/** How a client reads the broker's answers, and when that is as good as dialling the recipient itself. */
module BrokeredTransport {
  import opened Wrappers
  import opened Json
  import opened Messages
  import opened BrokerState
  import Codec
  import Retry
  import Broker

  // ---- messages as response bodies ---------------------------------------------------

  /** A response body: empty, no JSON text, or the tree it parses to. */
  datatype Body = NoData | NotJson | Tree(v: Value)

  /** `ProtocolProblem` is what the message parser raises on purpose, `OtherProblem` anything else. */
  datatype Problem = ProtocolProblem | OtherProblem

  function Deserialize(b: Body): Result<Message, Problem> {
    if !b.Tree? || !b.v.Obj? then Err(ProtocolProblem)
    else
      match Codec.FromDict(b.v.fields)
      case Ok(m) => Ok(m)
      case Err(e) => Err(if e.ExtraNotMapping? then OtherProblem else ProtocolProblem)
  }

  function Serialize(m: Message): Body {
    Tree(Obj(Codec.ToDict(m)))
  }

  lemma DeserializeSerialized(m: Message)
    requires Codec.Sendable(m)
    ensures Deserialize(Serialize(m)) == Ok(m)
  {
    Codec.RoundTrip(m);
  }

  // ---- sending -------------------------------------------------------------------------

  /** What a caller of `send` or `route` sees: a reply, nothing, or one of the exceptions. */
  datatype Outcome =
    | Reply(m: Message)
    | Nothing
    | NotFound
    | Undelivered(text: Value)
    | TransportFailure
    | EnvelopeRefused
    | OtherException

  /** An HTTP exchange: a status and a body, or no answer at all. */
  datatype Exchange = Http(status: int, body: Body) | Unanswered

  /** `NetworkedBrokerTransport.send` after the exchange. */
  function ReadAnswer(x: Exchange): Outcome {
    if x.Unanswered? then TransportFailure
    else if x.status == 200 then
      match Deserialize(x.body)
      case Ok(m) => Reply(m)
      case Err(ProtocolProblem) => TransportFailure
      case Err(OtherProblem) => OtherException
    else if x.status == 202 || x.status == 204 || x.body.NoData? then Nothing
    else ReadEnvelope(Deserialize(x.body))
  }

  /** The exception raised for an error envelope. */
  function ReadEnvelope(parsed: Result<Message, Problem>): Outcome {
    match parsed
    case Err(ProtocolProblem) => EnvelopeRefused
    case Err(OtherProblem) => TransportFailure
    case Ok(e) =>
      var code := Get(e.body, "code");
      if code == Str("unknown_recipient") then NotFound
      else if code == Str("delivery_failed") then
        Undelivered(if "message" in e.body then e.body["message"] else Str("delivery failed"))
      else TransportFailure
  }

  /** `TransportClient.send`: one attempt to hand the message to the recipient's own server. */
  function Dialled(x: Exchange): Retry.Attempt<Option<Message>, Outcome> {
    if x.Unanswered? || x.status >= 400 then Retry.Failed(TransportFailure)
    else if x.status == 204 || x.body.NoData? then Retry.Done(None)
    else
      match Deserialize(x.body)
      case Ok(m) => Retry.Done(Some(m))
      case Err(ProtocolProblem) => Retry.Failed(TransportFailure)
      case Err(OtherProblem) => Retry.Raised(OtherException)
  }

  /** The recipient's answers to attempt 1, 2, 3 and so on, and how often the router tries. */
  datatype Line = Line(answers: nat -> Exchange, maxAttempts: int, failureText: string)

  function Delivered(line: Line): Retry.Outcome<Option<Message>, Outcome> {
    Retry.Retried((k: nat) => Dialled(line.answers(k)), line.maxAttempts)
  }

  /** `Router.route` over the registry itself and the dialling transport. */
  function Direct(registry: map<AgentId, Endpoint>, m: Message, line: Line): Outcome {
    var r := m.metadata.recipient;
    if !Truthy(r) then NotFound
    else if Broker.KeyOf(r).Unhashable? then OtherException
    else if Broker.KeyOf(r).NoSuchName? || r.text !in registry then NotFound
    else
      match Delivered(line)
      case Returned(Some(reply)) => Reply(reply)
      case Returned(None) => Nothing
      case DeliveryFailed(_) => Undelivered(Str(line.failureText))
      case Propagated(_) => OtherException
  }

  /** The broker's own router dials over the same line. */
  function DialOver(line: Line): Broker.Dial {
    match Delivered(line)
    case Returned(Some(reply)) => Broker.Replied(reply)
    case Returned(None) => Broker.NoReply
    case DeliveryFailed(_) => Broker.Failed(line.failureText)
    case Propagated(_) => Broker.Broke
  }

  /** The broker's answer on the wire; a refusal without an envelope is a plain `error` object. */
  function OnTheWire(a: Broker.Answer): Exchange {
    match a
    case Crash => Unanswered
    case Answer(status, Some(m)) => Http(status, Serialize(m))
    case Answer(status, None) =>
      Http(status, if status >= 400 then Tree(Obj(map["error" := Str("refused")])) else NoData)
  }

  function ViaBroker(s: Maps<Message>, m: Message, caller: AgentId, line: Line, stamp: Stamp, now: real): Outcome {
    ReadAnswer(OnTheWire(Broker.Sent(s, m, caller, DialOver(line), stamp, now).answer))
  }

  // ---- when the broker is transparent -------------------------------------------------

  predicate ProperStamp(stamp: Stamp) {
    stamp.id != "" && stamp.time != ""
  }

  lemma VersionIsSupported()
    ensures Codec.Major(PROTOCOL_VERSION) == Some(1)
  {
    var s := "1";
    assert Codec.Before("1.0", '.') == "1" by {
      assert "1.0"[1..] == ".0";
    }
    assert Codec.TrimLeft(s) == s && Codec.TrimRight(s) == s;
    assert s[1..] == "";
    assert Codec.Digits(s, 0, false) == Some(1);
  }

  /** An error envelope passes validation exactly when its request's recipient is absent or a non-empty string. */
  lemma ErrorEnvelopeSendable(m: Message, code: string, text: string, stamp: Stamp)
    requires Codec.Sendable(m) && ProperStamp(stamp)
    ensures Codec.Sendable(ErrorTo(m, code, text, None, stamp))
       <==> m.metadata.recipient == Null || NonEmptyText(m.metadata.recipient)
  {
    VersionIsSupported();
  }

  lemma ReadError(e: Message, code: string, text: string)
    requires e.body == ErrorBody(code, text)
    ensures ReadEnvelope(Ok(e)) == if code == "unknown_recipient" then NotFound
                                   else if code == "delivery_failed" then Undelivered(Str(text))
                                   else TransportFailure
  {
  }

  lemma EnvelopeParsed(m: Message, code: string, text: string, stamp: Stamp)
    requires Codec.Sendable(m) && ProperStamp(stamp)
    ensures var e := ErrorTo(m, code, text, None, stamp);
            Deserialize(Serialize(e))
            == if m.metadata.recipient == Null || NonEmptyText(m.metadata.recipient) then Ok(e)
               else Err(ProtocolProblem)
  {
    var e := ErrorTo(m, code, text, None, stamp);
    ErrorEnvelopeSendable(m, code, text, stamp);
    if Codec.Sendable(e) { DeserializeSerialized(e); } else { UnsendableRefused(e); }
  }

  /** What the client makes of an error envelope of the broker. */
  lemma EnvelopeRead(m: Message, status: int, code: string, text: string, stamp: Stamp)
    requires Codec.Sendable(m) && ProperStamp(stamp) && status >= 400
    ensures var x := Http(status, Serialize(ErrorTo(m, code, text, None, stamp)));
            if m.metadata.recipient != Null && !NonEmptyText(m.metadata.recipient) then ReadAnswer(x) == EnvelopeRefused
            else if code == "unknown_recipient" then ReadAnswer(x) == NotFound
            else if code == "delivery_failed" then ReadAnswer(x) == Undelivered(Str(text))
            else ReadAnswer(x) == TransportFailure
  {
    EnvelopeParsed(m, code, text, stamp);
    ReadError(ErrorTo(m, code, text, None, stamp), code, text);
  }

  lemma UnsendableRefused(m: Message)
    requires m.WellFormed() && !Codec.Sendable(m)
    ensures Deserialize(Serialize(m)) == Err(ProtocolProblem)
  {
    Codec.ValidateAgrees(m);
  }

  lemma DialledReplySendable(x: Exchange)
    requires Dialled(x).Done? && Dialled(x).value.Some?
    ensures Codec.Sendable(Dialled(x).value.value)
  {
    Codec.ParsedIsSendable(x.body.v.fields);
  }

  /** A reply that reaches the router has been validated. */
  lemma RepliesAreSendable(line: Line)
    requires Delivered(line).Returned? && Delivered(line).value.Some?
    ensures Codec.Sendable(Delivered(line).value.value)
  {
    var f := (k: nat) => Dialled(line.answers(k));
    var last := Retry.Calls(f, line.maxAttempts);
    assert f(last) == Dialled(line.answers(last));
    DialledReplySendable(line.answers(last));
  }

  // ---- deliveries, from the recipient's own answers --------------------------------------

  /** What a body parses to. */
  lemma DeserializesExactly(b: Body)
    ensures forall m :: Deserialize(b) == Ok(m) <==> b.Tree? && b.v.Obj? && Codec.FromDict(b.v.fields) == Ok(m)
    ensures Deserialize(b) == Err(OtherProblem) <==>
              b.Tree? && b.v.Obj? && Codec.Validate(b.v.fields).None? && "extra" in b.v.fields["metadata"].fields
              && !b.v.fields["metadata"].fields["extra"].Obj?
  {
  }

  /** An attempt that hands over no message: no answer, an error status, or a body that is no message. */
  predicate Refuses(x: Exchange) {
    || x.Unanswered? || x.status >= 400
    || (x.status != 204 && !x.body.NoData? && Deserialize(x.body) == Err(ProtocolProblem))
  }

  /** An answer without a message, such as the one to a notification. */
  predicate TakesIt(x: Exchange) {
    x.Http? && x.status < 400 && (x.status == 204 || x.body.NoData?)
  }

  predicate AnswersWith(x: Exchange, reply: Message) {
    x.Http? && x.status < 400 && x.status != 204 && x.body == Serialize(reply) && Codec.Sendable(reply)
  }

  /** Attempt `k` is the first that is not refused, and is allowed. */
  ghost predicate FirstTaken(line: Line, k: nat) {
    1 <= k <= line.maxAttempts && !Refuses(line.answers(k)) && forall i :: 1 <= i < k ==> Refuses(line.answers(i))
  }

  lemma DialledByAnswer(x: Exchange)
    ensures Dialled(x).Failed? <==> Refuses(x)
    ensures TakesIt(x) ==> Dialled(x) == Retry.Done(None)
    ensures forall reply | AnswersWith(x, reply) :: Dialled(x) == Retry.Done(Some(reply))
  {
    forall reply | AnswersWith(x, reply) ensures Dialled(x) == Retry.Done(Some(reply)) {
      DeserializeSerialized(reply);
    }
  }

  lemma DeliveredAt(line: Line, k: nat)
    requires FirstTaken(line, k)
    ensures Delivered(line) == Retry.OutcomeOf((i: nat) => Dialled(line.answers(i)), k)
  {
    var f := (i: nat) => Dialled(line.answers(i));
    forall i | 1 <= i <= k ensures f(i).Failed? <==> Refuses(line.answers(i)) { DialledByAnswer(line.answers(i)); }
    Retry.CallsExactly(f, line.maxAttempts, k);
  }

  /** Both ways a send over the line ends alike, and the broker's answer says how. */
  lemma DeliveryBothWays(s: Maps<Message>, m: Message, caller: AgentId, line: Line, stamp: Stamp, now: real)
    requires Codec.Sendable(m) && ProperStamp(stamp) && SenderAccepted(m, caller) && Dialable(s.registry, m)
    ensures var direct, via := Direct(s.registry, m, line), ViaBroker(s, m, caller, line, stamp, now);
            var answer := Broker.Sent(s, m, caller, DialOver(line), stamp, now).answer;
            match Delivered(line)
            case Returned(Some(reply)) => direct == Reply(reply) == via && answer == Broker.Answer(200, Some(reply))
            case Returned(None) => direct == Nothing == via && answer == Broker.Answer(204, None)
            case DeliveryFailed(_) =>
              direct == Undelivered(Str(line.failureText)) == via && answer.Answer? && answer.status == 502
            case Propagated(_) => direct == OtherException && answer == Broker.Crash
  {
    ReportRead(m, line, stamp);
  }

  /** When every allowed attempt is refused the send fails both ways, and the broker says 502. */
  lemma RefusedBothWays(s: Maps<Message>, m: Message, caller: AgentId, line: Line, stamp: Stamp, now: real)
    requires Codec.Sendable(m) && ProperStamp(stamp) && SenderAccepted(m, caller) && Dialable(s.registry, m)
    requires forall k :: 1 <= k <= line.maxAttempts ==> Refuses(line.answers(k))
    ensures Direct(s.registry, m, line) == Undelivered(Str(line.failureText))
    ensures ViaBroker(s, m, caller, line, stamp, now) == Undelivered(Str(line.failureText))
    ensures var answer := Broker.Sent(s, m, caller, DialOver(line), stamp, now).answer;
            answer.Answer? && answer.status == 502
  {
    DeliveredNever(line);
    DeliveryBothWays(s, m, caller, line, stamp, now);
  }

  lemma DeliveredNever(line: Line)
    requires forall k :: 1 <= k <= line.maxAttempts ==> Refuses(line.answers(k))
    ensures Delivered(line).DeliveryFailed?
  {
    var f := (k: nat) => Dialled(line.answers(k));
    forall k | 1 <= k <= line.maxAttempts ensures f(k).Failed? { DialledByAnswer(line.answers(k)); }
    Retry.DeliveryErrorExactly(f, line.maxAttempts);
  }

  /** When the first attempt that is not refused brings a reply, both ways return that reply. */
  lemma AnsweredBothWays(s: Maps<Message>, m: Message, caller: AgentId, line: Line, stamp: Stamp, now: real, k: nat,
                         reply: Message)
    requires Codec.Sendable(m) && ProperStamp(stamp) && SenderAccepted(m, caller) && Dialable(s.registry, m)
    requires FirstTaken(line, k) && AnswersWith(line.answers(k), reply)
    ensures Direct(s.registry, m, line) == Reply(reply) == ViaBroker(s, m, caller, line, stamp, now)
    ensures Broker.Sent(s, m, caller, DialOver(line), stamp, now).answer == Broker.Answer(200, Some(reply))
  {
    DeliveredAt(line, k);
    DialledByAnswer(line.answers(k));
    DeliveryBothWays(s, m, caller, line, stamp, now);
  }

  /** When it brings none, both ways return nothing, and the broker says 204. */
  lemma TakenBothWays(s: Maps<Message>, m: Message, caller: AgentId, line: Line, stamp: Stamp, now: real, k: nat)
    requires Codec.Sendable(m) && ProperStamp(stamp) && SenderAccepted(m, caller) && Dialable(s.registry, m)
    requires FirstTaken(line, k) && TakesIt(line.answers(k))
    ensures Direct(s.registry, m, line) == Nothing == ViaBroker(s, m, caller, line, stamp, now)
    ensures Broker.Sent(s, m, caller, DialOver(line), stamp, now).answer == Broker.Answer(204, None)
  {
    DeliveredAt(line, k);
    DialledByAnswer(line.answers(k));
    DeliveryBothWays(s, m, caller, line, stamp, now);
  }

  /** A recipient that is missing or not registered is not found, without a single attempt. */
  lemma UnknownNotFound(registry: map<AgentId, Endpoint>, m: Message, line: Line)
    requires var r := m.metadata.recipient;
             Broker.Missing(r) || (!r.Arr? && !r.Obj? && (r.Str? ==> r.text !in registry))
    ensures Direct(registry, m, line) == NotFound
  {
  }

  /** A list or an object that is not empty cannot be looked up at all. */
  lemma UnhashableRaises(registry: map<AgentId, Endpoint>, m: Message, line: Line)
    requires (m.metadata.recipient.Arr? || m.metadata.recipient.Obj?) && !Broker.Missing(m.metadata.recipient)
    ensures Direct(registry, m, line) == OtherException
  {
  }

  /** The recipient is a registered agent that the broker dials. */
  predicate Dialable(registry: map<AgentId, Endpoint>, m: Message) {
    var r := m.metadata.recipient;
    r.Str? && r.text != "" && r.text in registry && !registry[r.text].mailbox
  }

  /** How a client reads an answer that is neither a success nor empty, by the envelope in it. */
  lemma ReadsEnvelopeExactly(x: Exchange, e: Message)
    requires x.Http? && x.status !in {200, 202, 204}
    ensures Deserialize(x.body) == Ok(e) ==>
              var code := Get(e.body, "code");
              ReadAnswer(x) == if code == Str("unknown_recipient") then NotFound
                               else if code != Str("delivery_failed") then TransportFailure
                               else if "message" in e.body then Undelivered(e.body["message"])
                               else Undelivered(Str("delivery failed"))
    ensures !x.body.NoData? && Deserialize(x.body) == Err(ProtocolProblem) ==> ReadAnswer(x) == EnvelopeRefused
    ensures Deserialize(x.body) == Err(OtherProblem) ==> ReadAnswer(x) == TransportFailure
  {
  }

  /** How a client reads each answer of the broker. */
  lemma ReadsExactly(x: Exchange)
    ensures ReadAnswer(x) == Nothing <==> x.Http? && x.status != 200 && (x.status in {202, 204} || x.body.NoData?)
    ensures forall m :: ReadAnswer(x) == Reply(m) <==> x.Http? && x.status == 200 && Deserialize(x.body) == Ok(m)
    ensures x.Unanswered? || (x.status == 200 && Deserialize(x.body) == Err(ProtocolProblem)) ==>
              ReadAnswer(x) == TransportFailure
    ensures x.Http? && x.status !in {200, 202, 204} && x.body == NotJson ==> ReadAnswer(x) == EnvelopeRefused
  {
  }

  predicate SenderAccepted(m: Message, caller: AgentId) {
    caller == "" || m.metadata.sender == Str(caller)
  }

  /** The recipient is registered as a pull agent, whose messages the broker queues instead of dialling. */
  predicate ForMailbox(registry: map<AgentId, Endpoint>, m: Message) {
    m.metadata.recipient.Str? && m.metadata.recipient.text in registry && registry[m.metadata.recipient.text].mailbox
  }

  /** Registered, but the dialled server's answer makes the router itself raise. */
  predicate RouterRaises(registry: map<AgentId, Endpoint>, m: Message, line: Line) {
    m.metadata.recipient.Str? && m.metadata.recipient.text in registry && Delivered(line).Propagated?
  }

  /** The client reads the broker's report on a dialled delivery as the delivery itself. */
  lemma ReportRead(m: Message, line: Line, stamp: Stamp)
    requires Codec.Sendable(m) && ProperStamp(stamp) && NonEmptyText(m.metadata.recipient)
    ensures var read := ReadAnswer(OnTheWire(Broker.Report(m, DialOver(line), stamp)));
            match Delivered(line)
            case Returned(Some(reply)) => read == Reply(reply)
            case Returned(None) => read == Nothing
            case DeliveryFailed(_) => read == Undelivered(Str(line.failureText))
            case Propagated(_) => read == TransportFailure
  {
    var d := Delivered(line);
    if d.DeliveryFailed? {
      EnvelopeRead(m, 502, "delivery_failed", line.failureText, stamp);
    } else if d.Returned? && d.value.Some? {
      RepliesAreSendable(line);
      DeserializeSerialized(d.value.value);
    }
  }

  lemma NobodyThere(s: Maps<Message>, m: Message, caller: AgentId, line: Line, stamp: Stamp, now: real)
    requires Codec.Sendable(m) && ProperStamp(stamp) && SenderAccepted(m, caller)
    requires NonEmptyText(m.metadata.recipient) && m.metadata.recipient.text !in s.registry
    ensures ViaBroker(s, m, caller, line, stamp, now) == NotFound == Direct(s.registry, m, line)
  {
    EnvelopeRead(m, 404, "unknown_recipient", "unknown recipient", stamp);
  }

  /** The part of transparency that concerns recipients the broker may dial. */
  lemma DialledTransparently(s: Maps<Message>, m: Message, caller: AgentId, line: Line, stamp: Stamp, now: real)
    requires Codec.Sendable(m) && ProperStamp(stamp) && SenderAccepted(m, caller)
    requires NonEmptyText(m.metadata.recipient) && !ForMailbox(s.registry, m)
    ensures ViaBroker(s, m, caller, line, stamp, now) == Direct(s.registry, m, line)
       <==> !RouterRaises(s.registry, m, line)
  {
    if m.metadata.recipient.text in s.registry {
      DeliveryBothWays(s, m, caller, line, stamp, now);
      if RouterRaises(s.registry, m, line) { assert ViaBroker(s, m, caller, line, stamp, now) == TransportFailure; }
    } else {
      NobodyThere(s, m, caller, line, stamp, now);
    }
  }

  /**
   * Sending through the broker and routing directly give the same outcome exactly when the broker
   * accepts the sender, the recipient is a non-empty string, and the router does not itself raise.
   */
  lemma TransparentExactly(s: Maps<Message>, m: Message, caller: AgentId, line: Line, stamp: Stamp, now: real)
    requires Codec.Sendable(m) && ProperStamp(stamp) && !ForMailbox(s.registry, m)
    ensures ViaBroker(s, m, caller, line, stamp, now) == Direct(s.registry, m, line)
       <==> && SenderAccepted(m, caller)
            && NonEmptyText(m.metadata.recipient)
            && !RouterRaises(s.registry, m, line)
  {
    if SenderAccepted(m, caller) && NonEmptyText(m.metadata.recipient) {
      DialledTransparently(s, m, caller, line, stamp, now);
    } else {
      RefusedDifferently(s, m, caller, line, stamp, now);
    }
  }

  lemma PlainRefusalRead(status: int)
    requires status >= 400
    ensures ReadAnswer(OnTheWire(Broker.Answer(status, None))) == EnvelopeRefused
  {
    var d := map["error" := Str("refused")];
    assert Codec.REQUIRED[0] !in d;
  }

  lemma DirectNeverRefuses(registry: map<AgentId, Endpoint>, m: Message, line: Line)
    ensures Direct(registry, m, line) != EnvelopeRefused
  {
  }

  /** What the broker refuses by itself the caller sees as a bad envelope or a broken connection. */
  lemma RefusedDifferently(s: Maps<Message>, m: Message, caller: AgentId, line: Line, stamp: Stamp, now: real)
    requires Codec.Sendable(m) && ProperStamp(stamp) && !ForMailbox(s.registry, m)
    requires !SenderAccepted(m, caller) || !NonEmptyText(m.metadata.recipient)
    ensures ViaBroker(s, m, caller, line, stamp, now) != Direct(s.registry, m, line)
  {
    var answer := Broker.Sent(s, m, caller, DialOver(line), stamp, now).answer;
    DirectNeverRefuses(s.registry, m, line);
    if answer.Answer? {
      assert answer.body.None? || !NonEmptyText(m.metadata.recipient);
      if answer.body.None? { PlainRefusalRead(answer.status); } else {
        EnvelopeRead(m, 404, "unknown_recipient", "unknown recipient", stamp);
      }
    }
  }

  /** A message for a pull agent is queued, whatever dialling it would have given. */
  lemma MailboxNeverReplies(s: Maps<Message>, m: Message, caller: AgentId, line: Line, stamp: Stamp, now: real)
    requires ForMailbox(s.registry, m) && m.metadata.recipient.text != "" && SenderAccepted(m, caller)
    ensures ViaBroker(s, m, caller, line, stamp, now) == Nothing
    ensures Queue(Broker.Sent(s, m, caller, DialOver(line), stamp, now).maps, m.metadata.recipient.text)
         == Queue(s, m.metadata.recipient.text) + [m]
  {
  }

  /** Behind a retrying router the transport's own errors, an unknown recipient included, all become delivery errors. */
  lemma RouterHidesTheCause(answers: nat -> Exchange, maxAttempts: int)
    requires forall k: nat ::
               var o := ReadAnswer(answers(k)); o.NotFound? || o.TransportFailure? || o.Undelivered?
    ensures Retry.Retried((k: nat) => AsAttempt(ReadAnswer(answers(k))), maxAttempts).DeliveryFailed?
  {
    Retry.DeliveryErrorExactly((k: nat) => AsAttempt(ReadAnswer(answers(k))), maxAttempts);
  }

  /** Which outcomes the retry loop sees as transport errors. */
  function AsAttempt(o: Outcome): Retry.Attempt<Option<Message>, Outcome> {
    match o
    case Reply(m) => Retry.Done(Some(m))
    case Nothing => Retry.Done(None)
    case NotFound => Retry.Failed(o)
    case Undelivered(_) => Retry.Failed(o)
    case TransportFailure => Retry.Failed(o)
    case EnvelopeRefused => Retry.Raised(o)
    case OtherException => Retry.Raised(o)
  }

  // ---- receiving -----------------------------------------------------------------------

  /** A polled batch, or why it is lost. */
  datatype Batch = Batch(messages: seq<Message>) | Lost(why: Outcome)

  function Decoded(items: seq<Result<Message, Problem>>): Batch {
    if items == [] then Batch([])
    else
      var n := |items| - 1;
      match Decoded(items[..n])
      case Lost(why) => Lost(why)
      case Batch(messages) =>
        match items[n]
        case Ok(m) => Batch(messages + [m])
        case Err(ProtocolProblem) => Lost(TransportFailure)
        case Err(OtherProblem) => Lost(OtherException)
  }

  function Deserialized(items: seq<Body>): seq<Result<Message, Problem>> {
    seq(|items|, i requires 0 <= i < |items| => Deserialize(items[i]))
  }

  lemma {:induction false} LostStays(items: seq<Result<Message, Problem>>, i: nat)
    requires i <= |items| && Decoded(items[..i]).Lost?
    ensures Decoded(items) == Decoded(items[..i])
    decreases |items|
  {
    if i < |items| {
      var n := |items| - 1;
      assert items[..n][..i] == items[..i];
      LostStays(items[..n], i);
    } else {
      assert items[..i] == items;
    }
  }

  /** `NetworkedBrokerTransport.receive` after the exchange: one bad message loses the whole batch. */
  method Receive(status: int, items: seq<Body>) returns (batch: Batch)
    ensures batch == if status != 200 then Lost(TransportFailure) else Decoded(Deserialized(items))
  {
    if status != 200 { return Lost(TransportFailure); }
    var out: seq<Message> := [];
    ghost var all := Deserialized(items);
    for i := 0 to |items|
      invariant Decoded(all[..i]) == Batch(out)
    {
      assert all[..i + 1][..i] == all[..i];
      var m := Deserialize(items[i]);
      assert m == all[i];
      if m.Err? {
        LostStays(all, i + 1);
        return Lost(if m.error.ProtocolProblem? then TransportFailure else OtherException);
      }
      out := out + [m.value];
    }
    assert all[..|items|] == all;
    batch := Batch(out);
  }

  /** The first item that cannot be read decides what is raised. */
  lemma {:induction false} LostToTheFirst(items: seq<Result<Message, Problem>>, i: nat)
    requires i < |items| && items[i].Err? && forall j :: 0 <= j < i ==> items[j].Ok?
    ensures Decoded(items) == Lost(if items[i].error.ProtocolProblem? then TransportFailure else OtherException)
  {
    ArrivesExactly(items[..i]);
    assert items[..i + 1][..i] == items[..i];
    LostStays(items, i + 1);
  }

  /** A batch arrives exactly when each of its messages can be read. */
  lemma {:induction false} ArrivesExactly(items: seq<Result<Message, Problem>>)
    ensures Decoded(items).Batch? <==> forall i :: 0 <= i < |items| ==> items[i].Ok?
    decreases |items|
  {
    if items != [] {
      var n := |items| - 1;
      ArrivesExactly(items[..n]);
      assert forall i :: 0 <= i < n ==> items[..n][i] == items[i];
    }
  }

  function Printed(queue: seq<Message>): seq<Body> {
    seq(|queue|, i requires 0 <= i < |queue| => Serialize(queue[i]))
  }

  lemma {:induction false} AllDecoded(items: seq<Result<Message, Problem>>, queue: seq<Message>)
    requires |items| == |queue| && forall i :: 0 <= i < |queue| ==> items[i] == Ok(queue[i])
    ensures Decoded(items) == Batch(queue)
    decreases |queue|
  {
    if queue != [] {
      var n := |queue| - 1;
      AllDecoded(items[..n], queue[..n]);
      assert queue == queue[..n] + [queue[n]];
    }
  }

  /** A mailbox of sendable messages reaches its agent complete and in order. */
  lemma BatchRoundTrip(queue: seq<Message>)
    requires forall m <- queue :: Codec.Sendable(m)
    ensures Decoded(Deserialized(Printed(queue))) == Batch(queue)
  {
    var items := Deserialized(Printed(queue));
    forall i | 0 <= i < |queue| ensures items[i] == Ok(queue[i]) {
      DeserializeSerialized(queue[i]);
    }
    AllDecoded(items, queue);
  }
}
