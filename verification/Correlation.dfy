/**
 * Correlation ids: how one is settled when a request arrives, and why a payload that
 * carries it is accepted by the schema the processor applies.
 */
module Correlation {
  import opened Basics

  const MAX_LENGTH := 64

  /** White space as String.prototype.trim removes it. */
  predicate IsSpace(c: char) {
    || 9 as char <= c <= 13 as char
    || c == ' '
    || c in {0xA0 as char, 0x1680 as char, 0x2028 as char, 0x2029 as char}
    || c in {0x202F as char, 0x205F as char, 0x3000 as char, 0xFEFF as char}
    || 0x2000 as char <= c <= 0x200A as char
  }

  predicate IsIdChar(c: char) {
    'A' <= c <= 'Z' || 'a' <= c <= 'z' || '0' <= c <= '9' || c == '_' || c == '-'
  }

  function TrimStart(s: string): string {
    if s != "" && IsSpace(s[0]) then TrimStart(s[1..]) else s
  }

  function TrimEnd(s: string): string {
    if s != "" && IsSpace(s[|s| - 1]) then TrimEnd(s[..|s| - 1]) else s
  }

  function Slice(s: string, n: nat): string {
    if |s| <= n then s else s[..n]
  }

  /** What normalisation looks at: the trimmed text, cut to length. */
  function Window(s: string): string {
    Slice(TrimEnd(TrimStart(s)), MAX_LENGTH)
  }

  /** What survives of it: the id characters, in order. */
  function Clean(raw: string): string {
    Keep(Window(raw), IsIdChar)
  }

  function Normalise(raw: Option<string>): Option<string> {
    if raw.None? || raw.value == "" then None
    else if Clean(raw.value) == "" then None
    else Some(Clean(raw.value))
  }

  /** A normalised header, or else the fresh identifier generated for the request. */
  function Intake(header: Option<string>, uuid: string): string {
    if Normalise(header).Some? then Normalise(header).value else uuid
  }

  ghost predicate IsId(s: string) {
    1 <= |s| <= MAX_LENGTH && forall i | 0 <= i < |s| :: IsIdChar(s[i])
  }

  lemma {:induction false} KeepIsSound(s: string)
    ensures |Keep(s, IsIdChar)| <= |s|
    ensures forall i | 0 <= i < |Keep(s, IsIdChar)| :: IsIdChar(Keep(s, IsIdChar)[i])
  {
    if s != "" {
      KeepIsSound(s[..|s| - 1]);
    }
  }

  lemma {:induction false} KeepOfAllIsAll(s: string)
    ensures (forall i | 0 <= i < |s| :: IsIdChar(s[i])) <==> Keep(s, IsIdChar) == s
  {
    if s != "" {
      var front := s[..|s| - 1];
      KeepOfAllIsAll(front);
      KeepIsSound(front);
      assert s == front + [s[|s| - 1]];
      assert (forall i | 0 <= i < |s| :: IsIdChar(s[i]))
        <==> (forall i | 0 <= i < |front| :: IsIdChar(front[i])) && IsIdChar(s[|s| - 1]);
    }
  }

  lemma IdCharIsNotSpace(c: char)
    requires IsIdChar(c)
    ensures !IsSpace(c)
  {
  }

  /** Whatever the header, the settled id has 1 to 64 characters of the allowed alphabet. */
  lemma IntakeIsId(header: Option<string>, uuid: string)
    requires IsId(uuid)
    ensures IsId(Intake(header, uuid))
  {
    if Normalise(header).Some? {
      KeepIsSound(Window(header.value));
    }
  }

  /** The ids that pass through untouched are exactly the well-formed ones; so a second pass changes nothing. */
  lemma FixedPointsAreIds(s: string)
    ensures Normalise(Some(s)) == Some(s) <==> IsId(s)
    ensures Normalise(Normalise(Some(s))) == Normalise(Some(s))
  {
    IdsAreFixed(s);
    if Normalise(Some(s)).Some? {
      IntakeIsId(Some(s), "-");
      IdsAreFixed(Clean(s));
    }
  }

  lemma IdsAreFixed(s: string)
    ensures IsId(s) ==> Normalise(Some(s)) == Some(s)
  {
    if IsId(s) {
      IdCharIsNotSpace(s[0]);
      IdCharIsNotSpace(s[|s| - 1]);
      assert TrimEnd(TrimStart(s)) == s;
      KeepOfAllIsAll(s);
    }
  }

  lemma {:induction false} KeepIsEmptyIff(s: string)
    ensures Keep(s, IsIdChar) == "" <==> forall i | 0 <= i < |s| :: !IsIdChar(s[i])
  {
    if s != "" {
      var front := s[..|s| - 1];
      KeepIsEmptyIff(front);
      assert s == front + [s[|s| - 1]];
      assert (forall i | 0 <= i < |s| :: !IsIdChar(s[i]))
        <==> (forall i | 0 <= i < |front| :: !IsIdChar(front[i])) && !IsIdChar(s[|s| - 1]);
    }
  }

  /**
   * Exactly when a header is kept as it is or discarded, as documented, and not
   * repaired: it is a well-formed id, or there is no id character to be salvaged.
   */
  lemma KeptOrDiscardedIff(s: string)
    ensures Normalise(Some(s)) in {None, Some(s)}
         <==> IsId(s) || forall i | 0 <= i < |Window(s)| :: !IsIdChar(Window(s)[i])
  {
    FixedPointsAreIds(s);
    KeepIsEmptyIff(Window(s));
  }

  /** A header that is repaired: its space is taken out and the rest is used. */
  lemma SpaceIsRepaired()
    ensures Normalise(Some("a b")) == Some("ab")
  {
    var s := "a b";
    assert TrimStart(s) == s && TrimEnd(s) == s && Slice(s, MAX_LENGTH) == s;
    assert s[..2] == "a " && s[..2][..1] == "a" && s[..2][..1][..0] == "";
    assert Keep("", IsIdChar) == "";
    assert Keep("a", IsIdChar) == "a";
    assert Keep("a ", IsIdChar) == "a";
    assert Keep(s, IsIdChar) == "ab";
  }

  /** The window is the front, 64 characters at most, of the text without the white space around it. */
  lemma WindowIsTrimmedFront(s: string) returns (lead: string, trimmed: string, trail: string)
    ensures s == lead + trimmed + trail
    ensures forall i | 0 <= i < |lead| :: IsSpace(lead[i])
    ensures forall i | 0 <= i < |trail| :: IsSpace(trail[i])
    ensures trimmed != "" ==> !IsSpace(trimmed[0]) && !IsSpace(trimmed[|trimmed| - 1])
    ensures Window(s) == if |trimmed| <= 64 then trimmed else trimmed[..64]
  {
    hide IsSpace;
    var rest;
    lead, rest := TrimStartDrops(s);
    trimmed, trail := TrimEndDrops(rest);
  }

  lemma {:induction false} TrimStartDrops(s: string) returns (lead: string, rest: string)
    ensures s == lead + rest && rest == TrimStart(s)
    ensures forall i | 0 <= i < |lead| :: IsSpace(lead[i])
    ensures rest != "" ==> !IsSpace(rest[0])
  {
    hide IsSpace;
    if s != "" && IsSpace(s[0]) {
      lead, rest := TrimStartDrops(s[1..]);
      lead := [s[0]] + lead;
    } else {
      lead, rest := "", s;
    }
  }

  lemma {:induction false} TrimEndDrops(s: string) returns (rest: string, trail: string)
    ensures s == rest + trail && rest == TrimEnd(s)
    ensures forall i | 0 <= i < |trail| :: IsSpace(trail[i])
    ensures rest != "" ==> !IsSpace(rest[|rest| - 1])
  {
    hide IsSpace;
    if s != "" && IsSpace(s[|s| - 1]) {
      rest, trail := TrimEndDrops(s[..|s| - 1]);
      trail := trail + [s[|s| - 1]];
    } else {
      rest, trail := s, "";
    }
  }

  predicate HasIdChar(s: string) {
    exists i :: 0 <= i < |s| && IsIdChar(s[i])
  }

  /**
   * Which id a request gets: its header if that is well-formed; the fresh one if there is
   * no header or nothing in it to use; and otherwise the id characters of the header's
   * trimmed first 64, in order.
   */
  lemma IntakeHonoursHeader(header: Option<string>, uuid: string)
    ensures header.Some? && IsId(header.value) ==> Intake(header, uuid) == header.value
    ensures header.None? || !HasIdChar(Window(header.value)) ==> Intake(header, uuid) == uuid
    ensures header.Some? && HasIdChar(Window(header.value)) ==>
      Intake(header, uuid) == Keep(Window(header.value), IsIdChar) != ""
  {
    if header.Some? {
      IdsAreFixed(header.value);
      KeepIsEmptyIff(Window(header.value));
    }
  }

  // ----- Strict schemas -----

  datatype Json = Text(text: string) | Number(value: int) | Object(fields: map<string, Json>) | Other

  type Document = map<string, Json>

  /** One field of a strict object: what it accepts, and what its absence means. */
  datatype Field = Field(accepts: Json -> bool, absent: Absence)
  datatype Absence = Refused | Omitted | Defaulted(value: Json)

  type Schema = map<string, Field>

  predicate FieldParses(schema: Schema, doc: Document, f: string)
    requires f in schema
  {
    if f in doc then schema[f].accepts(doc[f]) else !schema[f].absent.Refused?
  }

  /** Unknown keys are refused; absent fields with a default are filled in. */
  function Parse(schema: Schema, doc: Document): Option<Document> {
    if (forall f | f in doc :: f in schema) && (forall f | f in schema :: FieldParses(schema, doc, f)) then
      Some(map f | f in schema && (f in doc || schema[f].absent.Defaulted?) ::
             if f in doc then doc[f] else schema[f].absent.value)
    else None
  }

  const CORRELATION_ID := "correlationId"

  /** The record schema: the input schema and the server's own optional field. */
  function RecordSchema(schema: Schema): Schema {
    schema[CORRELATION_ID := Field((j: Json) => j.Text? && 1 <= |j.text| <= 64, Omitted)]
  }

  /** `{ ...data, correlationId }`, when there is one. */
  function Stamp(doc: Document, id: Option<string>): Document {
    if id.Some? then doc[CORRELATION_ID := Text(id.value)] else doc
  }

  ghost predicate DefaultsAccepted(schema: Schema) {
    forall f | f in schema && schema[f].absent.Defaulted? :: schema[f].accepts(schema[f].absent.value)
  }

  /**
   * Whatever the client sent and whatever its header said, a payload the input schema
   * accepted is accepted unchanged by the record schema once stamped.
   */
  lemma StampedPayloadParses(schema: Schema, sent: Document, header: Option<string>, uuid: string)
    requires CORRELATION_ID !in schema && DefaultsAccepted(schema)
    requires Parse(schema, sent).Some? && IsId(uuid)
    ensures
      var payload := Stamp(Parse(schema, sent).value, Some(Intake(header, uuid)));
      Parse(RecordSchema(schema), payload) == Some(payload)
  {
    IntakeIsId(header, uuid);
    StampParses(schema, sent, Some(Intake(header, uuid)));
  }

  lemma StampParses(schema: Schema, sent: Document, id: Option<string>)
    requires CORRELATION_ID !in schema && DefaultsAccepted(schema)
    requires Parse(schema, sent).Some? && (id.Some? ==> 1 <= |id.value| <= 64)
    ensures
      var payload := Stamp(Parse(schema, sent).value, id);
      Parse(RecordSchema(schema), payload) == Some(payload)
  {
    var parsed := Parse(schema, sent).value;
    var payload := Stamp(parsed, id);
    var record := RecordSchema(schema);
    forall f | f in record
      ensures FieldParses(record, payload, f)
    {
      if f != CORRELATION_ID {
        assert FieldParses(schema, sent, f);
      }
    }
    assert forall f | f in payload :: f in record;
    var again := Parse(record, payload).value;
    assert again.Keys == payload.Keys;
    assert again == payload;
    assert Parse(record, payload) == Some(again);
  }

  /** A client cannot supply the field itself: strictness refuses it. */
  lemma ClientCannotForge(schema: Schema, sent: Document)
    requires CORRELATION_ID !in schema && CORRELATION_ID in sent
    ensures Parse(schema, sent) == None
  {
    assert CORRELATION_ID !in schema;
  }

  predicate IsText(j: Json, min: nat, max: nat) {
    j.Text? && min <= |j.text| <= max
  }

  function EmailSchema(isEmail: string -> bool): Schema {
    map["to" := Field((j: Json) => j.Text? && isEmail(j.text), Refused),
        "subject" := Field((j: Json) => IsText(j, 1, 500), Refused),
        "body" := Field((j: Json) => IsText(j, 0, 100_000), Refused),
        "idempotencyKey" := Field((j: Json) => IsText(j, 1, 255), Refused)]
  }

  function WebhookSchema(): Schema {
    map["destination" := Field((j: Json) => j == Text("DEMO_AVAILABLE") || j == Text("DEMO_UNAVAILABLE"), Refused),
        "event" := Field((j: Json) => IsText(j, 1, 200), Refused),
        "payload" := Field((j: Json) => j.Object?, Defaulted(Object(map[]))),
        "idempotencyKey" := Field((j: Json) => IsText(j, 1, 255), Refused)]
  }

  /** Both job types meet what StampedPayloadParses asks of a schema. */
  lemma JobSchemasAreSuitable(isEmail: string -> bool)
    ensures CORRELATION_ID !in EmailSchema(isEmail) && DefaultsAccepted(EmailSchema(isEmail))
    ensures CORRELATION_ID !in WebhookSchema() && DefaultsAccepted(WebhookSchema())
  {
  }

  /**
   * What a client may submit as an email job: exactly these four fields, within these
   * limits; and nothing of it is changed.
   */
  lemma EmailAcceptedIff(isEmail: string -> bool, doc: Document)
    ensures Parse(EmailSchema(isEmail), doc).Some? <==>
      && doc.Keys == {"to", "subject", "body", "idempotencyKey"}
      && doc["to"].Text? && isEmail(doc["to"].text)
      && doc["subject"].Text? && 1 <= |doc["subject"].text| <= 500
      && doc["body"].Text? && |doc["body"].text| <= 100_000
      && doc["idempotencyKey"].Text? && 1 <= |doc["idempotencyKey"].text| <= 255
    ensures Parse(EmailSchema(isEmail), doc).Some? ==> Parse(EmailSchema(isEmail), doc).value == doc
  {
    var schema := EmailSchema(isEmail);
    assert schema.Keys == {"to", "subject", "body", "idempotencyKey"};
    if Parse(schema, doc).Some? {
      assert FieldParses(schema, doc, "to") && FieldParses(schema, doc, "subject");
      assert FieldParses(schema, doc, "body") && FieldParses(schema, doc, "idempotencyKey");
      assert doc.Keys == schema.Keys;
      assert Parse(schema, doc).value == doc;
    }
  }

  predicate IsWebhookForm(doc: Document) {
    && doc.Keys + {"payload"} == {"destination", "event", "payload", "idempotencyKey"}
    && (doc["destination"] == Text("DEMO_AVAILABLE") || doc["destination"] == Text("DEMO_UNAVAILABLE"))
    && doc["event"].Text? && 1 <= |doc["event"].text| <= 200
    && ("payload" in doc ==> doc["payload"].Object?)
    && doc["idempotencyKey"].Text? && 1 <= |doc["idempotencyKey"].text| <= 255
  }

  /** What a client may submit as a webhook job; a payload left out is an empty one. */
  lemma WebhookAcceptedIff(doc: Document)
    ensures Parse(WebhookSchema(), doc).Some? <==> IsWebhookForm(doc)
    ensures IsWebhookForm(doc) ==>
      Parse(WebhookSchema(), doc) == Some(if "payload" in doc then doc else doc["payload" := Object(map[])])
  {
    hide WebhookSchema, Parse, IsWebhookForm;
    if IsWebhookForm(doc) {
      WebhookFormParses(doc);
    }
    if Parse(WebhookSchema(), doc).Some? {
      ParsedHasWebhookForm(doc);
    }
  }

  lemma WebhookFields()
    ensures WebhookSchema().Keys == {"destination", "event", "payload", "idempotencyKey"}
    ensures WebhookSchema()["payload"].absent == Defaulted(Object(map[]))
    ensures forall f | f in WebhookSchema() && f != "payload" :: WebhookSchema()[f].absent == Refused
  {
  }

  lemma ParsedHasWebhookForm(doc: Document)
    requires Parse(WebhookSchema(), doc).Some?
    ensures IsWebhookForm(doc)
  {
    var schema := WebhookSchema();
    WebhookFields();
    assert FieldParses(schema, doc, "destination") && FieldParses(schema, doc, "event");
    assert FieldParses(schema, doc, "payload") && FieldParses(schema, doc, "idempotencyKey");
  }

  lemma WebhookFieldParses(doc: Document, f: string)
    requires IsWebhookForm(doc) && f in WebhookSchema()
    ensures FieldParses(WebhookSchema(), doc, f)
  {
    assert f != "payload" ==> f in doc.Keys + {"payload"};
  }

  lemma WebhookFormParses(doc: Document)
    requires IsWebhookForm(doc)
    ensures Parse(WebhookSchema(), doc)
         == Some(if "payload" in doc then doc else doc["payload" := Object(map[])])
  {
    hide WebhookSchema, FieldParses;
    var schema := WebhookSchema();
    WebhookFields();
    forall f | f in schema
      ensures FieldParses(schema, doc, f)
    {
      WebhookFieldParses(doc, f);
    }
    assert forall f | f in doc :: f in doc.Keys + {"payload"};
    var filled := if "payload" in doc then doc else doc["payload" := Object(map[])];
    assert filled.Keys == schema.Keys;
    assert Parse(schema, doc).value == filled;
  }

  /** Of all ids the server could stamp, the record schema takes exactly those of 1 to 64 characters. */
  lemma StampParsesIff(schema: Schema, sent: Document, id: string)
    requires CORRELATION_ID !in schema && DefaultsAccepted(schema) && Parse(schema, sent).Some?
    ensures Parse(RecordSchema(schema), Stamp(Parse(schema, sent).value, Some(id))).Some? <==> 1 <= |id| <= 64
  {
    if 1 <= |id| <= 64 {
      StampParses(schema, sent, Some(id));
    } else {
      assert !FieldParses(RecordSchema(schema), Stamp(Parse(schema, sent).value, Some(id)), CORRELATION_ID);
    }
  }
}
