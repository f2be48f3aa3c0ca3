/** handleOutgoingMessage (utils/handleOutgoing.js): a manager's outgoing
    chat message becomes a four-field record that is appended, as one line of
    JSON, to an append-only log file. */
module OutgoingLog {
  import opened JsText
  import opened Json

  /** The creation time: the message's own `created_at` when it has one,
      otherwise the clock reading (milliseconds) taken when it was logged. */
  datatype Stamp = FromMessage(value: string) | Clock(millis: nat)

  /** The logged object. `entityId` is None when both `entity_id` and
      `element_id` are undefined: JSON.stringify then leaves the key out. */
  datatype LogRecord = LogRecord(entityId: Option<string>, direction: string, text: string, createdAt: Stamp)

  /** The record for message `msg` when the clock reads `now`. */
  function RecordOf(msg: JsObject, now: nat): (r: LogRecord)
    ensures r.direction == "outgoing"
    ensures Truthy(Lookup(msg, "text")) ==> r.text == msg["text"]
    ensures !Truthy(Lookup(msg, "text")) ==> r.text == ""
    ensures Truthy(Lookup(msg, "entity_id")) ==> r.entityId == Some(msg["entity_id"])
    ensures !Truthy(Lookup(msg, "entity_id")) ==> r.entityId == Lookup(msg, "element_id")
    ensures Truthy(Lookup(msg, "created_at")) ==> r.createdAt == FromMessage(msg["created_at"])
    ensures !Truthy(Lookup(msg, "created_at")) ==> r.createdAt == Clock(now)
  {
    var text := Or(Lookup(msg, "text"), Some(""));
    var created := if Truthy(Lookup(msg, "created_at")) then FromMessage(msg["created_at"]) else Clock(now);
    LogRecord(Or(Lookup(msg, "entity_id"), Lookup(msg, "element_id")), "outgoing", text.value, created)
  }

  /** The keys of the logged object, as JSON.stringify writes them. */
  const EntityKey := "\"entity_id\":"
  const DirectionKey := "\"direction\":"
  const TextKey := "\"text\":"
  const CreatedKey := "\"created_at\":"

  function EncodeStamp(t: Stamp): string {
    match t
    case FromMessage(s) => Quote(s)
    case Clock(n) => Decimal(n)
  }

  /** The entity_id member with its comma, or nothing when it is undefined. */
  function EncodeEntity(e: Option<string>): string {
    match e
    case Some(id) => EntityKey + Quote(id) + ","
    case None => ""
  }

  function EncodeFields(r: LogRecord): string {
    DirectionKey + Quote(r.direction) + "," + TextKey + Quote(r.text) + "," + CreatedKey + EncodeStamp(r.createdAt)
  }

  /** `JSON.stringify(log)`, keys in the order entity_id, direction, text, created_at. */
  function EncodeRecord(r: LogRecord): string {
    "{" + EncodeEntity(r.entityId) + EncodeFields(r) + "}"
  }

  /** The line appended to the log. */
  function EncodeLine(r: LogRecord): string {
    EncodeRecord(r) + "\n"
  }

  /** `s` with the literal `lit` removed from its front, if it starts with it. */
  function Expect(lit: string, s: string): Option<string> {
    if |lit| <= |s| && s[..|lit|] == lit then Some(s[|lit|..]) else None
  }

  lemma ExpectPrefix(lit: string, t: string)
    ensures Expect(lit, lit + t) == Some(t)
  {
    assert (lit + t)[..|lit|] == lit;
    assert (lit + t)[|lit|..] == t;
  }

  /** A JSON string literal at the front of `s`: its value and what follows it. */
  function ReadStringLiteral(s: string): Option<(string, string)> {
    if s != [] && s[0] == '"' then ReadString(s[1..]) else None
  }

  lemma ReadStringLiteralOf(x: string, rest: string)
    ensures ReadStringLiteral(Quote(x) + rest) == Some((x, rest))
  {
    assert Quote(x) + rest == "\"" + (Escape(x) + "\"" + rest);
    ReadQuoted(x, rest);
  }

  /** One `"key":"value",` member: its value and what follows the comma. */
  function ReadMember(key: string, s: string): Option<(string, string)> {
    var t :- Expect(key, s);
    var v :- ReadStringLiteral(t);
    var rest :- Expect(",", v.1);
    Some((v.0, rest))
  }

  lemma ReadMemberOf(key: string, x: string, rest: string)
    ensures ReadMember(key, key + (Quote(x) + ("," + rest))) == Some((x, rest))
  {
    var t1 := "," + rest;
    var t0 := Quote(x) + t1;
    assert Expect(key, key + t0) == Some(t0) by { ExpectPrefix(key, t0); }
    assert ReadStringLiteral(t0) == Some((x, t1)) by { ReadStringLiteralOf(x, t1); }
    assert Expect(",", t1) == Some(rest) by { ExpectPrefix(",", rest); }
  }

  /** The optional entity_id member: absent exactly when the object does not
      open with that key. */
  function DecodeEntity(s: string): Option<(Option<string>, string)> {
    if Expect(EntityKey, s).None? then Some((None, s))
    else
      var m :- ReadMember(EntityKey, s);
      Some((Some(m.0), m.1))
  }

  function DecodeStamp(s: string): Option<(Stamp, string)> {
    if s != [] && s[0] == '"' then
      var v :- ReadString(s[1..]);
      Some((FromMessage(v.0), v.1))
    else
      var n := DigitRun(s);
      if n == 0 then None else Some((Clock(DigitsValue(s[..n])), s[n..]))
  }

  function DecodeFields(entity: Option<string>, s: string): Option<LogRecord> {
    var d :- ReadMember(DirectionKey, s);
    var t :- ReadMember(TextKey, d.1);
    var s1 :- Expect(CreatedKey, t.1);
    var c :- DecodeStamp(s1);
    if c.1 == "}\n" then Some(LogRecord(entity, d.0, t.0, c.0)) else None
  }

  /** Reads one log line back: exactly the object JSON.stringify writes for a
      record, in its key order, followed by a line feed and nothing else. */
  function DecodeLine(line: string): Option<LogRecord> {
    var s0 :- Expect("{", line);
    var e :- DecodeEntity(s0);
    DecodeFields(e.0, e.1)
  }

  lemma DecodeStampOf(t: Stamp)
    ensures DecodeStamp(EncodeStamp(t) + "}\n") == Some((t, "}\n"))
  {
    match t
    case FromMessage(s) =>
      var w := EncodeStamp(t) + "}\n";
      assert w == "\"" + (Escape(s) + "\"" + "}\n");
      assert w[1..] == Escape(s) + "\"" + "}\n";
      ReadQuoted(s, "}\n");
    case Clock(n) =>
      var w := Decimal(n) + "}\n";
      DigitRunOfDecimal(n, "}\n");
      assert w[..|Decimal(n)|] == Decimal(n);
      assert w[|Decimal(n)|..] == "}\n";
      DecimalValue(n);
  }

  lemma Assoc(a: string, b: string, c: string)
    ensures a + b + c == a + (b + c)
  {
  }

  /** The members after the entity id, laid out right to left. */
  lemma FieldsLayout(r: LogRecord)
    ensures EncodeFields(r) + "}\n" ==
      DirectionKey + (Quote(r.direction) + ("," + (TextKey + (Quote(r.text) + ("," + (CreatedKey + (EncodeStamp(r.createdAt) + "}\n")))))))
  {
    var qd, qt, st := Quote(r.direction), Quote(r.text), EncodeStamp(r.createdAt);
    var x6 := st + "}\n";
    var x5 := CreatedKey + x6;
    var x4 := "," + x5;
    var x3 := qt + x4;
    var x2 := TextKey + x3;
    var x1 := "," + x2;
    var x0 := qd + x1;
    var p6 := DirectionKey + qd + "," + TextKey + qt + "," + CreatedKey;
    Assoc(p6, st, "}\n");
    var p5 := DirectionKey + qd + "," + TextKey + qt + ",";
    Assoc(p5, CreatedKey, x6);
    var p4 := DirectionKey + qd + "," + TextKey + qt;
    Assoc(p4, ",", x5);
    var p3 := DirectionKey + qd + "," + TextKey;
    Assoc(p3, qt, x4);
    var p2 := DirectionKey + qd + ",";
    Assoc(p2, TextKey, x3);
    var p1 := DirectionKey + qd;
    Assoc(p1, ",", x2);
    Assoc(DirectionKey, qd, x1);
  }

  /** The whole line, opened up around the entity member and the remaining members. */
  lemma LineLayout(r: LogRecord)
    ensures EncodeLine(r) == "{" + (EncodeEntity(r.entityId) + (EncodeFields(r) + "}\n"))
  {
    var e, f := EncodeEntity(r.entityId), EncodeFields(r);
    Assoc("{" + e + f, "}", "\n");
    assert "}" + "\n" == "}\n";
    Assoc("{" + e, f, "}\n");
    Assoc("{", e, f + "}\n");
  }

  lemma DecodeFieldsSteps(e: Option<string>, s: string, d: string, t: string, c: Stamp, t0: string, t1: string, t2: string)
    requires ReadMember(DirectionKey, s) == Some((d, t0))
    requires ReadMember(TextKey, t0) == Some((t, t1))
    requires Expect(CreatedKey, t1) == Some(t2)
    requires DecodeStamp(t2) == Some((c, "}\n"))
    ensures DecodeFields(e, s) == Some(LogRecord(e, d, t, c))
  {
  }

  /** The members after the entity id read back as the record's. */
  lemma DecodeFieldsOf(r: LogRecord)
    ensures DecodeFields(r.entityId, EncodeFields(r) + "}\n") == Some(r)
  {
    var t2 := EncodeStamp(r.createdAt) + "}\n";
    var t1 := CreatedKey + t2;
    var t0 := TextKey + (Quote(r.text) + ("," + t1));
    var s := DirectionKey + (Quote(r.direction) + ("," + t0));
    assert EncodeFields(r) + "}\n" == s by { FieldsLayout(r); }
    assert ReadMember(DirectionKey, s) == Some((r.direction, t0)) by { ReadMemberOf(DirectionKey, r.direction, t0); }
    assert ReadMember(TextKey, t0) == Some((r.text, t1)) by { ReadMemberOf(TextKey, r.text, t1); }
    assert Expect(CreatedKey, t1) == Some(t2) by { ExpectPrefix(CreatedKey, t2); }
    assert DecodeStamp(t2) == Some((r.createdAt, "}\n")) by { DecodeStampOf(r.createdAt); }
    DecodeFieldsSteps(r.entityId, s, r.direction, r.text, r.createdAt, t0, t1, t2);
  }

  /** A line for a record without entity id opens directly with the direction key. */
  lemma NoEntityKey(rest: string)
    ensures Expect(EntityKey, DirectionKey + rest).None?
  {
    var s := DirectionKey + rest;
    assert s[1] == 'd';
    if |EntityKey| <= |s| {
      assert s[..|EntityKey|][1] == 'd';
    }
  }

  lemma DecodeEntityOf(e: Option<string>, rest: string)
    ensures DecodeEntity(EncodeEntity(e) + (DirectionKey + rest)) == Some((e, DirectionKey + rest))
  {
    var s := DirectionKey + rest;
    match e {
      case Some(id) =>
        var t0 := Quote(id) + ("," + s);
        assert EncodeEntity(e) + s == EntityKey + t0;
        assert Expect(EntityKey, EntityKey + t0).Some? by { ExpectPrefix(EntityKey, t0); }
        ReadMemberOf(EntityKey, id, s);
      case None =>
        assert EncodeEntity(e) + s == s;
        NoEntityKey(rest);
    }
  }

  lemma DecodeLineSteps(line: string, s0: string, e: Option<string>, s1: string, r: LogRecord)
    requires Expect("{", line) == Some(s0)
    requires DecodeEntity(s0) == Some((e, s1))
    requires DecodeFields(e, s1) == Some(r)
    ensures DecodeLine(line) == Some(r)
  {
  }

  /** Every line the log is given decodes to the record it was made from. */
  lemma LineRoundTrip(r: LogRecord)
    ensures DecodeLine(EncodeLine(r)) == Some(r)
  {
    var rest := Quote(r.direction) + ("," + (TextKey + (Quote(r.text) + ("," + (CreatedKey + (EncodeStamp(r.createdAt) + "}\n"))))));
    var fields := EncodeFields(r) + "}\n";
    var s0 := EncodeEntity(r.entityId) + fields;
    assert EncodeLine(r) == "{" + s0 by { LineLayout(r); }
    assert Expect("{", EncodeLine(r)) == Some(s0) by { ExpectPrefix("{", s0); }
    assert DecodeEntity(s0) == Some((r.entityId, fields)) by {
      FieldsLayout(r);
      DecodeEntityOf(r.entityId, rest);
    }
    assert DecodeFields(r.entityId, fields) == Some(r) by { DecodeFieldsOf(r); }
    DecodeLineSteps(EncodeLine(r), s0, r.entityId, fields, r);
  }

  /** A log line ends with its line feed and holds no other one, so each call
      adds exactly one line to the file. */
  lemma LineIsSingleLine(r: LogRecord)
    ensures var l := EncodeLine(r); |l| > 0 && l[|l| - 1] == '\n' && '\n' !in l[..|l| - 1]
  {
    var l := EncodeLine(r);
    assert l[..|l| - 1] == "{" + EncodeEntity(r.entityId) + EncodeFields(r) + "}";
    EntityHasNoNewline(r.entityId);
    FieldsHaveNoNewline(r);
  }

  lemma EntityHasNoNewline(e: Option<string>)
    ensures '\n' !in EncodeEntity(e)
  {
    if e.Some? {
      EscapeHasNoNewline(e.value);
    }
  }

  lemma QuoteHasNoNewline(x: string)
    ensures '\n' !in Quote(x)
  {
    EscapeHasNoNewline(x);
  }

  lemma FieldsHaveNoNewline(r: LogRecord)
    ensures '\n' !in EncodeFields(r)
  {
    assert '\n' !in EncodeStamp(r.createdAt) by {
      match r.createdAt {
        case FromMessage(s) => QuoteHasNoNewline(s);
        case Clock(n) => assert forall k :: 0 <= k < |Decimal(n)| ==> Decimal(n)[k] != '\n';
      }
    }
    QuoteHasNoNewline(r.direction);
    QuoteHasNoNewline(r.text);
  }

  /** The file's text: its lines in the order they were appended. */
  function Concat(lines: seq<string>): string
    decreases |lines|
  {
    if lines == [] then "" else Concat(lines[..|lines| - 1]) + lines[|lines| - 1]
  }

  /** The outgoing-message log file, as the sequence of lines appended to it. */
  class Log {
    var lines: seq<string>

    /** Every line in the file is a record line. */
    predicate Valid()
      reads this
    {
      forall i :: 0 <= i < |lines| ==> DecodeLine(lines[i]).Some?
    }

    function Text(): string
      reads this
    {
      Concat(lines)
    }

    constructor ()
      ensures lines == [] && Valid()
    {
      lines := [];
    }

    /** handleOutgoingMessage: appends the record line when the file can be
        written (`writable`); when the write fails the error is swallowed and
        the log is left as it was. Never fails itself. */
    method HandleOutgoingMessage(msg: JsObject, now: nat, writable: bool)
      modifies this
      ensures lines == if writable then old(lines) + [EncodeLine(RecordOf(msg, now))] else old(lines)
      ensures Text() == if writable then old(Text()) + EncodeLine(RecordOf(msg, now)) else old(Text())
      ensures old(Valid()) ==> Valid()
    {
      if writable {
        var line := EncodeLine(RecordOf(msg, now));
        LineRoundTrip(RecordOf(msg, now));
        lines := lines + [line];
        assert lines[..|lines| - 1] == old(lines);
      }
    }
  }
}
