/**
 * The durable record of what each job did, keyed by job name and idempotency key, and
 * the one-time rebuild of a table that was keyed by idempotency key alone.
 */
module IdempotencyStore {
  import opened Basics

  datatype Status = COMPLETED | FAILED

  /** `result` is the stored JSON text; the creation time is a nullable column. */
  datatype Record = Record(status: Status, result: string, createdAt: Option<int>)

  datatype Slot<+N> = Slot(jobName: N, key: string)

  /** A row of the old table. Its `key TEXT PRIMARY KEY` column admits NULL. */
  datatype LegacyRow<+N> = LegacyRow(key: Option<string>, jobName: N, record: Record)

  datatype Table<N(==)> = Missing | Legacy(rows: seq<LegacyRow<N>>) | Composite(records: map<Slot<N>, Record>)

  predicate IsDone(row: Option<Record>) {
    row.Some? && row.value.status == COMPLETED
  }

  function RecordAt<N(==)>(records: map<Slot<N>, Record>, slot: Slot<N>): Option<Record> {
    if slot in records then Some(records[slot]) else None
  }

  // ----- Migration -----

  /** INSERT OR IGNORE of every row in turn: NULL keys and taken slots are skipped. */
  function CopyRows<N(==)>(rows: seq<LegacyRow<N>>): map<Slot<N>, Record> {
    if rows == [] then map[]
    else
      var copied := CopyRows(rows[..|rows| - 1]);
      var row := rows[|rows| - 1];
      if row.key.None? || Slot(row.jobName, row.key.value) in copied then copied
      else copied[Slot(row.jobName, row.key.value) := row.record]
  }

  function Opened<N(==)>(t: Table<N>): map<Slot<N>, Record> {
    match t
    case Missing => map[]
    case Legacy(rows) => CopyRows(rows)
    case Composite(records) => records
  }

  /** What a scan of the old table finds for a job name and key. */
  function Scan<N(==)>(rows: seq<LegacyRow<N>>, slot: Slot<N>): Option<Record> {
    if rows == [] then None
    else if rows[0].key == Some(slot.key) && rows[0].jobName == slot.jobName then Some(rows[0].record)
    else Scan(rows[1..], slot)
  }

  lemma {:induction false} ScanSnoc<N>(rows: seq<LegacyRow<N>>, row: LegacyRow<N>, slot: Slot<N>)
    ensures Scan(rows + [row], slot)
         == if Scan(rows, slot).Some? then Scan(rows, slot)
            else if row.key == Some(slot.key) && row.jobName == slot.jobName then Some(row.record) else None
  {
    if rows != [] {
      assert (rows + [row])[1..] == rows[1..] + [row];
      ScanSnoc(rows[1..], row, slot);
    }
  }

  /** After the migration every lookup answers as a scan of the old rows would have. */
  lemma {:induction false} MigrationPreservesLookups<N>(rows: seq<LegacyRow<N>>, slot: Slot<N>)
    ensures RecordAt(CopyRows(rows), slot) == Scan(rows, slot)
  {
    if rows != [] {
      var front, row := rows[..|rows| - 1], rows[|rows| - 1];
      assert rows == front + [row];
      MigrationPreservesLookups(front, slot);
      ScanSnoc(front, row, slot);
    }
  }

  /**
   * Opening loses no answer and opening again changes nothing: whatever state the file
   * was in, a lookup finds what a look at that state would have found.
   */
  lemma OpeningPreservesLookups<N>(t: Table<N>, slot: Slot<N>)
    ensures t.Missing? ==> RecordAt(Opened(t), slot) == None
    ensures t.Legacy? ==> RecordAt(Opened(t), slot) == Scan(t.rows, slot)
    ensures t.Composite? ==> RecordAt(Opened(t), slot) == RecordAt(t.records, slot)
    ensures Opened(Composite(Opened(t))) == Opened(t)
  {
    if t.Legacy? {
      MigrationPreservesLookups(t.rows, slot);
    }
  }

  /** A scan finds a row exactly where there is one, and the first of them. */
  lemma {:induction false} ScanFindsFirst<N>(rows: seq<LegacyRow<N>>, slot: Slot<N>, r: Record)
    ensures Scan(rows, slot) == Some(r) <==> exists i :: IsFirst(rows, slot, r, i)
  {
    if rows != [] {
      var rest := rows[1..];
      ScanFindsFirst(rest, slot, r);
      if rows[0].key == Some(slot.key) && rows[0].jobName == slot.jobName {
        assert rows[0] == LegacyRow(Some(slot.key), slot.jobName, rows[0].record);
        assert IsFirst(rows, slot, rows[0].record, 0);
      } else {
        ScanShifts(rows, slot, r);
      }
    }
  }

  lemma ScanShifts<N>(rows: seq<LegacyRow<N>>, slot: Slot<N>, r: Record)
    requires rows != [] && (rows[0].key != Some(slot.key) || rows[0].jobName != slot.jobName)
    ensures (exists i :: IsFirst(rows, slot, r, i)) <==> exists i :: IsFirst(rows[1..], slot, r, i)
  {
    if i :| IsFirst(rows, slot, r, i) {
      assert IsFirst(rows[1..], slot, r, i - 1);
    }
    if i :| IsFirst(rows[1..], slot, r, i) {
      assert forall j | 1 <= j < i + 1 :: rows[j] == rows[1..][j - 1];
      assert IsFirst(rows, slot, r, i + 1);
    }
  }

  predicate IsFirst<N(==)>(rows: seq<LegacyRow<N>>, slot: Slot<N>, r: Record, i: int) {
    && 0 <= i < |rows| && rows[i] == LegacyRow(Some(slot.key), slot.jobName, r)
    && forall j | 0 <= j < i :: rows[j].key != Some(slot.key) || rows[j].jobName != slot.jobName
  }

  ghost predicate KeysUnique<N>(rows: seq<LegacyRow<N>>) {
    forall i, j | 0 <= i < j < |rows| && rows[i].key.Some? :: rows[i].key != rows[j].key
  }

  ghost predicate NoNullKey<N>(rows: seq<LegacyRow<N>>) {
    forall i | 0 <= i < |rows| :: rows[i].key.Some?
  }

  lemma {:induction false} CopiedSlotsComeFromRows<N>(rows: seq<LegacyRow<N>>, slot: Slot<N>)
    requires slot in CopyRows(rows)
    ensures exists i :: 0 <= i < |rows| && rows[i].key == Some(slot.key) && rows[i].jobName == slot.jobName
  {
    var front, row := rows[..|rows| - 1], rows[|rows| - 1];
    if slot in CopyRows(front) {
      CopiedSlotsComeFromRows(front, slot);
      var i :| 0 <= i < |front| && front[i].key == Some(slot.key) && front[i].jobName == slot.jobName;
      assert rows[i] == front[i];
    } else {
      assert rows[|rows| - 1] == row;
    }
  }

  /**
   * The copy drops no row exactly when no key is NULL; the old primary key already
   * rules out the collisions.
   */
  lemma {:induction false} MigrationIsLossless<N>(rows: seq<LegacyRow<N>>)
    requires KeysUnique(rows)
    ensures |CopyRows(rows)| <= |rows|
    ensures |CopyRows(rows)| == |rows| <==> NoNullKey(rows)
  {
    if rows != [] {
      var n := |rows| - 1;
      var front, row := rows[..n], rows[n];
      assert KeysUnique(front);
      MigrationIsLossless(front);
      assert NoNullKey(rows) <==> NoNullKey(front) && row.key.Some? by {
        assert NoNullKey(rows) ==> forall i | 0 <= i < n :: front[i] == rows[i] && rows[i].key.Some?;
      }
      assert row.key.Some? ==> forall i | 0 <= i < n :: front[i].key != row.key;
      if row.key.Some? && Slot(row.jobName, row.key.value) in CopyRows(front) {
        CopiedSlotsComeFromRows(front, Slot(row.jobName, row.key.value));
      }
    }
  }

  class IdempotencyDatabase<N(==)> {
    var table: Table<N>

    ghost predicate Valid()
      reads this
    {
      table.Composite?
    }

    ghost function Records(): map<Slot<N>, Record>
      reads this
      requires Valid()
    {
      table.records
    }

    /** Opens a database file in whatever state an earlier version left it. */
    constructor (existing: Table<N>)
      ensures Valid() && Records() == Opened(existing)
    {
      table := existing;
      new;
      MigrateIfLegacySchema();
      if table.Missing? {
        table := Composite(map[]);
      }
    }

    method MigrateIfLegacySchema()
      modifies this
      ensures table == if old(table).Legacy? then Composite(CopyRows(old(table).rows)) else old(table)
    {
      if table.Missing? || table.Composite? {
        return;
      }
      var legacy := table.rows;
      table := Composite(CopyRows(legacy));
    }

    method GetRecord(jobName: N, key: string) returns (r: Option<Record>)
      requires Valid()
      ensures r == RecordAt(Records(), Slot(jobName, key))
    {
      r := if Slot(jobName, key) in table.records then Some(table.records[Slot(jobName, key)]) else None;
    }

    method HasBeenProcessed(jobName: N, key: string) returns (b: bool)
      requires Valid()
      ensures b == IsDone(RecordAt(Records(), Slot(jobName, key)))
    {
      var record := GetRecord(jobName, key);
      b := record.Some? && record.value.status == COMPLETED;
    }

    method RecordSuccess(key: string, jobName: N, result: string, now: int)
      requires Valid()
      modifies this
      ensures Valid() && Records() == old(Records())[Slot(jobName, key) := Record(COMPLETED, result, Some(now))]
    {
      table := Composite(table.records[Slot(jobName, key) := Record(COMPLETED, result, Some(now))]);
    }

    /** An unguarded upsert: it would overwrite a COMPLETED row. */
    method RecordFailure(key: string, jobName: N, error: string, now: int)
      requires Valid()
      modifies this
      ensures Valid() && Records() == old(Records())[Slot(jobName, key) := Record(FAILED, error, Some(now))]
    {
      table := Composite(table.records[Slot(jobName, key) := Record(FAILED, error, Some(now))]);
    }
  }
}
