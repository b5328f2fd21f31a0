/** Small vocabulary shared by the models. */
module Basics {

  datatype Option<+T> = None | Some(value: T)

  /** How often `x` occurs in `s`. */
  function Count<T(==)>(s: seq<T>, x: T): nat {
    if s == [] then 0 else Count(s[..|s| - 1], x) + (if s[|s| - 1] == x then 1 else 0)
  }

  /** The elements of `s` that satisfy `p`, in order. */
  function Keep<T>(s: seq<T>, p: T -> bool): seq<T> {
    if s == [] then []
    else Keep(s[..|s| - 1], p) + (if p(s[|s| - 1]) then [s[|s| - 1]] else [])
  }

  lemma CountSnoc<T>(s: seq<T>, y: T, x: T)
    ensures Count(s + [y], x) == Count(s, x) + (if y == x then 1 else 0)
  {
    assert (s + [y])[..|s|] == s;
  }

  lemma KeepSnoc<T>(s: seq<T>, y: T, p: T -> bool)
    ensures Keep(s + [y], p) == if p(y) then Keep(s, p) + [y] else Keep(s, p)
  {
    assert (s + [y])[..|s|] == s;
  }

  /** Filtering element by element, in order: with KeepSnoc and `Keep([], p) == []`, nothing else fits. */
  lemma {:induction false} KeepAppend<T>(a: seq<T>, b: seq<T>, p: T -> bool)
    ensures Keep(a + b, p) == Keep(a, p) + Keep(b, p)
  {
    if b == [] {
      assert a + b == a;
    } else {
      var front, last := b[..|b| - 1], b[|b| - 1];
      assert a + b == (a + front) + [last] && b == front + [last];
      KeepAppend(a, front, p);
      KeepSnoc(a + front, last, p);
      KeepSnoc(front, last, p);
    }
  }

  lemma HeadIsMember<T>(s: seq<T>)
    ensures s == [] || s[0] in s
  {
  }

  function CeilDiv(x: nat, y: nat): nat
    requires y > 0
  {
    (x + y - 1) / y
  }

  function Digit(d: nat): char
    requires d < 10
  {
    "0123456789"[d]
  }

  /** Decimal printing, `String(n)`. */
  function Decimal(n: nat): string {
    if n < 10 then [Digit(n)] else Decimal(n / 10) + [Digit(n % 10)]
  }

  /** Plain decimal reading: it reads back what Decimal prints. */
  function ReadDecimal(s: string): Option<int> {
    if s == "" || !('0' <= s[|s| - 1] <= '9') then None
    else
      var last := s[|s| - 1] as int - '0' as int;
      if |s| == 1 then Some(last)
      else match ReadDecimal(s[..|s| - 1])
        case None => None
        case Some(front) => Some(front * 10 + last)
  }

  lemma {:induction false} DecimalReadsBack(n: nat)
    ensures ReadDecimal(Decimal(n)) == Some(n)
  {
    if n >= 10 {
      DecimalReadsBack(n / 10);
      assert Decimal(n)[..|Decimal(n)| - 1] == Decimal(n / 10);
    }
  }

  lemma {:induction false} DecimalIsDigits(n: nat)
    ensures forall c | c in Decimal(n) :: '0' <= c <= '9'
    ensures Decimal(n) != ""
  {
    if n >= 10 {
      DecimalIsDigits(n / 10);
    }
  }

  lemma DecimalIsInjective(m: nat, n: nat)
    requires Decimal(m) == Decimal(n)
    ensures m == n
  {
    DecimalReadsBack(m);
    DecimalReadsBack(n);
  }
}
