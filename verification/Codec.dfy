/** Envelope validation and the mapping between messages and their dictionary form. */
module Codec {
  import opened Wrappers
  import opened Json
  import opened Messages

  datatype Invalid =
    | MissingFields
    | BadMessageId
    | UnknownType
    | BadVersion
    | UnsupportedVersion
    | BadMetadata
    | BadSender
    | BadTimestamp
    | BadBody
    | BadCorrelation
    | ResponseWithoutCorrelation
    | RequestWithCorrelation
    | NotificationWithCorrelation
    | ExtraNotMapping

  // ---- the version's major component ----------------------------------------

  /** The characters that Python's `str.strip` takes for white space. */
  predicate IsSpace(c: char) {
    var n := c as int;
    || 0x09 <= n <= 0x0D || 0x1C <= n <= 0x20 || n == 0x85 || n == 0xA0 || n == 0x1680 || 0x2000 <= n <= 0x200A
    || n == 0x2028 || n == 0x2029 || n == 0x202F || n == 0x205F || n == 0x3000
  }

  /** In ASCII those are the blank, the five layout characters and the four separators. */
  lemma AsciiSpace(c: char)
    requires c as int < 0x80
    ensures IsSpace(c) <==> c == ' ' || 9 <= c as int <= 13 || 28 <= c as int <= 31
  {
  }

  function TrimLeft(s: string): string {
    if s != "" && IsSpace(s[0]) then TrimLeft(s[1..]) else s
  }

  function TrimRight(s: string): string {
    if s != "" && IsSpace(s[|s| - 1]) then TrimRight(s[..|s| - 1]) else s
  }

  function Trim(s: string): string {
    TrimRight(TrimLeft(s))
  }

  /** Everything before the first `sep`, or all of `s`. */
  function Before(s: string, sep: char): string {
    if s == "" || s[0] == sep then "" else [s[0]] + Before(s[1..], sep)
  }

  predicate IsDigit(c: char) {
    '0' <= c <= '9'
  }

  /** Decimal digits, with single underscores allowed between two digits. */
  function Digits(s: string, acc: int, afterDigit: bool): Option<int> {
    if s == "" then (if afterDigit then Some(acc) else None)
    else if IsDigit(s[0]) then Digits(s[1..], acc * 10 + (s[0] as int - '0' as int), true)
    else if s[0] == '_' && afterDigit then Digits(s[1..], acc, false)
    else None
  }

  /** Python's `int(text)` on ASCII text. */
  function ParseInt(s: string): Option<int> {
    var t := Trim(s);
    if t != "" && t[0] == '-' then
      match Digits(t[1..], 0, false)
      case Some(n) => Some(-n)
      case None => None
    else
      match Digits(if t != "" && t[0] == '+' then t[1..] else t, 0, false)
      case Some(n) => Some(n)
      case None => None
  }

  function Major(version: string): Option<int> {
    ParseInt(Before(version, '.'))
  }

  // ---- validation -------------------------------------------------------------

  function KindName(k: Kind): string {
    match k
    case Request => "request"
    case Response => "response"
    case Error => "error"
    case Notification => "notification"
  }

  function KindOf(v: Value): Option<Kind> {
    if v == Str("request") then Some(Request)
    else if v == Str("response") then Some(Response)
    else if v == Str("error") then Some(Error)
    else if v == Str("notification") then Some(Notification)
    else None
  }

  const REQUIRED := ["message_id", "type", "protocol_version", "metadata", "body"]

  /** The first problem with an envelope dictionary, in the order the checks are made. */
  function Validate(d: Object): Option<Invalid> {
    if exists f <- REQUIRED :: f !in d then Some(MissingFields)
    else if !NonEmptyText(d["message_id"]) then Some(BadMessageId)
    else if KindOf(d["type"]).None? then Some(UnknownType)
    else if !d["protocol_version"].Str? || Major(d["protocol_version"].text).None? then Some(BadVersion)
    else if Major(d["protocol_version"].text) != Some(1) then Some(UnsupportedVersion)
    else if !d["metadata"].Obj? then Some(BadMetadata)
    else if !NonEmptyText(Get(d["metadata"].fields, "sender")) then Some(BadSender)
    else if !NonEmptyText(Get(d["metadata"].fields, "timestamp")) then Some(BadTimestamp)
    else if !d["body"].Obj? then Some(BadBody)
    else ValidateCorrelation(KindOf(d["type"]).value, Get(d, "correlation_id"))
  }

  function ValidateCorrelation(kind: Kind, correlation: Value): Option<Invalid> {
    if !correlation.Null? && !correlation.Str? then Some(BadCorrelation)
    else if kind.Response? && correlation.Null? then Some(ResponseWithoutCorrelation)
    else if kind.Request? && !correlation.Null? then Some(RequestWithCorrelation)
    else if kind.Notification? && !correlation.Null? then Some(NotificationWithCorrelation)
    else None
  }

  // ---- the two directions -------------------------------------------------------

  function Optional(s: Option<string>): Value {
    if s.Some? then Str(s.value) else Null
  }

  function ToDict(m: Message): Object {
    map["message_id" := Str(m.id),
        "type" := Str(KindName(m.kind)),
        "protocol_version" := Str(m.version),
        "metadata" := Obj(map["sender" := m.metadata.sender,
                              "recipient" := m.metadata.recipient,
                              "timestamp" := Str(m.metadata.timestamp),
                              "extra" := Obj(m.metadata.extra)]),
        "body" := Obj(m.body),
        "correlation_id" := Optional(m.correlation)]
  }

  /** `extra` may be absent; a value that is not a mapping is refused. */
  function ExtraOf(metadata: Object): Option<Object> {
    if "extra" !in metadata then Some(map[])
    else if metadata["extra"].Obj? then Some(metadata["extra"].fields)
    else None
  }

  function FromDict(d: Object): Result<Message, Invalid> {
    match Validate(d)
    case Some(problem) => Err(problem)
    case None =>
      assert forall f <- REQUIRED :: f in d;
      assert REQUIRED[0] in d && REQUIRED[1] in d && REQUIRED[2] in d && REQUIRED[3] in d && REQUIRED[4] in d;
      var raw := d["metadata"].fields;
      var kind := KindOf(d["type"]).value;
      match ExtraOf(raw)
      case None => Err(ExtraNotMapping)
      case Some(extra) =>
        var metadata := Metadata(raw["sender"], Get(raw, "recipient"), raw["timestamp"].text, extra);
        var correlation := Get(d, "correlation_id");
        Ok(Message(kind, metadata, d["message_id"].text, d["protocol_version"].text, d["body"].fields,
                   if (kind.Response? || kind.Error?) && correlation.Str? then Some(correlation.text) else None))
  }

  // ---- what is accepted, and what the fields become ------------------------------------

  /** Which dictionaries pass the checks. */
  lemma ValidatesExactly(d: Object)
    ensures var meta := if Get(d, "metadata").Obj? then d["metadata"].fields else map[];
            var kind, version, correlation := Get(d, "type"), Get(d, "protocol_version"), Get(d, "correlation_id");
            Validate(d).None? <==>
              && NonEmptyText(Get(d, "message_id"))
              && kind in {Str("request"), Str("response"), Str("error"), Str("notification")}
              && version.Str? && Major(version.text) == Some(1)
              && Get(d, "metadata").Obj? && NonEmptyText(Get(meta, "sender")) && NonEmptyText(Get(meta, "timestamp"))
              && Get(d, "body").Obj?
              && (correlation == Null || correlation.Str?)
              && (kind == Str("response") ==> correlation != Null)
              && (kind == Str("request") || kind == Str("notification") ==> correlation == Null)
  {
    var f := REQUIRED;
    assert f[0] == "message_id" && f[1] == "type" && f[2] == "protocol_version" && f[3] == "metadata" && f[4] == "body";
  }

  /** An unsupported version, an error of its own, is a number other than one after the id and type have passed. */
  lemma UnsupportedExactly(d: Object)
    ensures Validate(d) == Some(UnsupportedVersion) <==>
              && (forall f <- REQUIRED :: f in d)
              && NonEmptyText(Get(d, "message_id"))
              && Get(d, "type") in {Str("request"), Str("response"), Str("error"), Str("notification")}
              && Get(d, "protocol_version").Str?
              && Major(Get(d, "protocol_version").text).Some? && Major(Get(d, "protocol_version").text) != Some(1)
  {
    assert Validate(d) == Some(UnsupportedVersion) ==> forall f <- REQUIRED :: f in d;
    assert REQUIRED[0] == "message_id" && REQUIRED[1] == "type" && REQUIRED[2] == "protocol_version";
  }

  /** Each field of a parsed message is the dictionary's field of that name. */
  lemma ParsesFields(d: Object)
    requires FromDict(d).Ok?
    ensures var m := FromDict(d).value; var kind := Get(d, "type");
            && Get(d, "message_id") == Str(m.id) && Get(d, "protocol_version") == Str(m.version)
            && (m.kind.Request? <==> kind == Str("request")) && (m.kind.Response? <==> kind == Str("response"))
            && (m.kind.Error? <==> kind == Str("error")) && (m.kind.Notification? <==> kind == Str("notification"))
            && Get(d, "body") == Obj(m.body)
            && Get(d, "correlation_id") == (if m.correlation.Some? then Str(m.correlation.value) else Null)
  {
    ValidatesExactly(d);
    CorrelationKept(d);
  }

  lemma ParsesMetadata(d: Object)
    requires FromDict(d).Ok?
    ensures var m := FromDict(d).value; var meta := Get(d, "metadata");
            && meta.Obj?
            && m.metadata.sender == Get(meta.fields, "sender") && m.metadata.recipient == Get(meta.fields, "recipient")
            && Get(meta.fields, "timestamp") == Str(m.metadata.timestamp)
            && if "extra" in meta.fields then meta.fields["extra"] == Obj(m.metadata.extra)
               else m.metadata.extra == map[]
  {
    ValidatesExactly(d);
  }

  /** So it is the other way round, and there is no other field. */
  lemma PrintsFields(m: Message)
    ensures var d := ToDict(m);
            && d.Keys == {"message_id", "type", "protocol_version", "metadata", "body", "correlation_id"}
            && d["message_id"] == Str(m.id) && d["protocol_version"] == Str(m.version) && d["body"] == Obj(m.body)
            && d["type"] == Str(if m.kind.Request? then "request" else if m.kind.Response? then "response"
                                else if m.kind.Error? then "error" else "notification")
            && d["correlation_id"] == (if m.correlation.Some? then Str(m.correlation.value) else Null)
            && d["metadata"] == Obj(map["sender" := m.metadata.sender, "recipient" := m.metadata.recipient,
                                        "timestamp" := Str(m.metadata.timestamp), "extra" := Obj(m.metadata.extra)])
  {
  }

  // ---- what the two directions mean for each other --------------------------------

  /** The messages that may be put on the wire. */
  predicate Sendable(m: Message) {
    && m.WellFormed()
    && m.id != ""
    && Major(m.version) == Some(1)
    && NonEmptyText(m.metadata.sender)
    && m.metadata.timestamp != ""
  }

  /** Validating a message and validating its dictionary agree, and accept exactly the sendable ones. */
  lemma ValidateAgrees(m: Message)
    requires m.WellFormed()
    ensures Validate(ToDict(m)).None? <==> Sendable(m)
  {
    assert KindOf(Str(KindName(m.kind))) == Some(m.kind);
  }

  lemma RoundTrip(m: Message)
    requires Sendable(m)
    ensures FromDict(ToDict(m)) == Ok(m)
  {
    ValidateAgrees(m);
    assert KindOf(Str(KindName(m.kind))) == Some(m.kind);
  }

  lemma ParsedIsSendable(d: Object)
    requires FromDict(d).Ok?
    ensures Sendable(FromDict(d).value)
  {
  }

  /** An accepted dictionary with defaults filled in and unknown keys dropped. */
  function Normal(d: Object): Object
    requires FromDict(d).Ok?
  {
    var raw := d["metadata"].fields;
    map["message_id" := d["message_id"],
        "type" := d["type"],
        "protocol_version" := d["protocol_version"],
        "metadata" := Obj(map["sender" := raw["sender"],
                              "recipient" := Get(raw, "recipient"),
                              "timestamp" := raw["timestamp"],
                              "extra" := Obj(if "extra" in raw then raw["extra"].fields else map[])]),
        "body" := d["body"],
        "correlation_id" := Get(d, "correlation_id")]
  }

  /** Which dictionaries parse: those that validate and carry no `extra` or a mapping. */
  lemma ParsesExactly(d: Object)
    ensures FromDict(d).Ok? <==> Validate(d).None? && ExtraOf(d["metadata"].fields).Some?
  {
  }

  lemma KindNamed(v: Value)
    requires KindOf(v).Some?
    ensures Str(KindName(KindOf(v).value)) == v
  {
  }

  /** The correlation id of an accepted dictionary is kept, whatever the kind. */
  lemma CorrelationKept(d: Object)
    requires FromDict(d).Ok?
    ensures Optional(FromDict(d).value.correlation) == Get(d, "correlation_id")
  {
    assert ValidateCorrelation(KindOf(d["type"]).value, Get(d, "correlation_id")).None?;
  }

  lemma PrintsNormal(d: Object)
    requires FromDict(d).Ok?
    ensures ToDict(FromDict(d).value) == Normal(d)
  {
    var m := FromDict(d).value;
    KindNamed(d["type"]);
    CorrelationKept(d);
    var raw := d["metadata"].fields;
    assert m.metadata == Metadata(raw["sender"], Get(raw, "recipient"), raw["timestamp"].text, ExtraOf(raw).value);
  }

  /** Parsing and printing an accepted dictionary normalises it, and normalising is idempotent. */
  lemma PrintingNormalises(d: Object)
    requires FromDict(d).Ok?
    ensures ToDict(FromDict(d).value) == Normal(d)
    ensures FromDict(Normal(d)) == FromDict(d)
    ensures Normal(Normal(d)) == Normal(d)
  {
    PrintsNormal(d);
    ParsedIsSendable(d);
    RoundTrip(FromDict(d).value);
    assert FromDict(Normal(d)) == FromDict(d);
    PrintsNormal(Normal(d));
  }
}
