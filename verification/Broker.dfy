/** The broker's handlers as methods that update its dictionaries in place. */
module Broker {
  import opened Wrappers
  import opened Json
  import opened BrokerState
  import opened Messages
  import Registration
  import opened TrafficLog

  /** What comes of routing a message to a dialable endpoint; `Broke` is an exception no handler catches. */
  datatype Dial = Replied(reply: Message) | NoReply | Failed(text: string) | Broke

  /** The answer to a send; `Crash` is a handler killed by an exception, its connection closed. */
  datatype Answer = Answer(status: int, body: Option<Message>) | Crash

  /** How a recipient value behaves as a registry key. */
  datatype Key = Name(id: AgentId) | NoSuchName | Unhashable

  function KeyOf(v: Value): Key {
    match v
    case Str(t) => Name(t)
    case Arr(_) | Obj(_) => Unhashable
    case _ => NoSuchName
  }

  /** Upper bound on a long-poll hold, and the default grace. */
  const MAX_POLL_WAIT := 30.0

  /** The hold for a `?wait=` value; `None` when it is not a number. */
  function Hold(wait: Option<real>): (h: real)
    ensures 0.0 <= h <= MAX_POLL_WAIT == 30.0
    ensures wait.Some? && 0.0 <= wait.value <= 30.0 ==> h == wait.value
    ensures wait.Some? && wait.value < 0.0 ==> h == 0.0
    ensures wait.Some? && wait.value > 30.0 ==> h == 30.0
    ensures wait.None? ==> h == 25.0
  {
    if wait.None? then 25.0
    else if wait.value < 0.0 then 0.0
    else if wait.value > MAX_POLL_WAIT then MAX_POLL_WAIT
    else wait.value
  }

  datatype SendEffect = SendEffect(maps: Maps<Message>, records: seq<Record>, answer: Answer)

  /** How the outcome of dialling is reported to the sender. */
  function Report(m: Message, dial: Dial, stamp: Stamp): Answer {
    match dial
    case Replied(reply) => Answer(200, Some(reply))
    case NoReply => Answer(204, None)
    case Failed(text) => Answer(502, Some(ErrorTo(m, "delivery_failed", text, None, stamp)))
    case Broke => Crash
  }

  /** A parsed message, as the send handler disposes of it. */
  function Sent(s: Maps<Message>, m: Message, caller: AgentId, dial: Dial, stamp: Stamp, now: real): SendEffect {
    var r := m.metadata.recipient;
    if caller != "" && m.metadata.sender != Str(caller) then
      SendEffect(s, [RecordOf(m, Rejected, 403, now)], Answer(403, None))
    else if !Truthy(r) then
      SendEffect(s, [RecordOf(m, Rejected, 400, now)], Answer(400, None))
    else if KeyOf(r).Unhashable? then SendEffect(s, [], Crash)
    else if KeyOf(r).NoSuchName? || r.text !in s.registry then
      SendEffect(s, [RecordOf(m, UnknownRecipient, 404, now)],
                 Answer(404, Some(ErrorTo(m, "unknown_recipient", "unknown recipient", None, stamp))))
    else if s.registry[r.text].mailbox then
      SendEffect(PutQueue(s, r.text, Queue(s, r.text) + [m]), [RecordOf(m, Queued, 202, now)], Answer(202, None))
    else
      var a := Report(m, dial, stamp);
      SendEffect(s, if a.Crash? then [] else [RecordOf(m, Routed, a.status, now)], a)
  }

  /** The sender may speak for itself: authentication is off, or it is the authenticated agent. */
  predicate SpeaksForItself(m: Message, caller: AgentId) {
    caller == "" || m.metadata.sender == Str(caller)
  }

  predicate IsPull(s: Maps<Message>, r: Value) {
    exists a :: r == Str(a) && a in s.registry && s.registry[a].mailbox
  }

  predicate IsDialable(s: Maps<Message>, r: Value) {
    exists a :: r == Str(a) && a in s.registry && !s.registry[a].mailbox
  }

  /** Null, false, zero and the empty string, list and object. */
  predicate Missing(r: Value) {
    r in {Null, Bool(false), Int(0), Float(0.0), Str(""), Arr([]), Obj(map[])}
  }

  /** Which answer a send gets: the first of these that applies. */
  lemma SendAnswersExactly(s: Maps<Message>, m: Message, caller: AgentId, dial: Dial, stamp: Stamp, now: real)
    ensures var answer, r := Sent(s, m, caller, dial, stamp, now).answer, m.metadata.recipient;
            if !SpeaksForItself(m, caller) then answer == Answer(403, None)
            else if Missing(r) then answer == Answer(400, None)
            else if r.Arr? || r.Obj? then answer == Crash
            else if IsPull(s, r) then answer == Answer(202, None)
            else if IsDialable(s, r) then
              match dial
              case Replied(reply) => answer == Answer(200, Some(reply))
              case NoReply => answer == Answer(204, None)
              case Failed(text) =>
                && answer.Answer? && answer.status == 502 && answer.body.Some?
                && answer.body.value.body == map["code" := Str("delivery_failed"), "message" := Str(text)]
              case Broke => answer == Crash
            else
              && answer.Answer? && answer.status == 404 && answer.body.Some?
              && answer.body.value.body
                 == map["code" := Str("unknown_recipient"), "message" := Str("unknown recipient")]
  {
  }

  /** A send changes nothing but the recipient's queue, and that only when the answer is 202: the message comes last. */
  lemma SendChangesExactly(s: Maps<Message>, m: Message, caller: AgentId, dial: Dial, stamp: Stamp, now: real)
    ensures var e := Sent(s, m, caller, dial, stamp, now);
            if e.answer == Answer(202, None) then
              && m.metadata.recipient.Str?
              && var a := m.metadata.recipient.text;
                 e.maps == s.(mailboxes := s.mailboxes[a := (if a in s.mailboxes then s.mailboxes[a] else []) + [m]])
            else e.maps == s
  {
  }

  /** A send that gets an answer leaves exactly one record, and the record agrees with the answer. */
  lemma OneRecordPerAnswer(s: Maps<Message>, m: Message, caller: AgentId, dial: Dial, stamp: Stamp, now: real)
    ensures var e := Sent(s, m, caller, dial, stamp, now);
            && |e.records| == (if e.answer.Answer? then 1 else 0)
            && (e.answer.Answer? ==>
                  var r := e.records[0];
                  && r.status == e.answer.status && r.id == m.id && r.time == now
                  && (r.disposition.Queued? <==> r.status == 202)
                  && (r.disposition.UnknownRecipient? <==> r.status == 404)
                  && (r.disposition.Rejected? <==> r.status in {400, 403})
                  && (r.disposition.Routed? <==> r.status in {200, 204, 502})
                  && (r.disposition.Queued? <==> e.maps != s))
  {
    var e := Sent(s, m, caller, dial, stamp, now);
    if e.answer == Answer(202, None) {
      assert e.maps.mailboxes[m.metadata.recipient.text] == Queue(s, m.metadata.recipient.text) + [m];
    }
  }

  class BrokerServer {
    var registry: map<AgentId, Endpoint>
    var capabilities: map<AgentId, Object>
    var lastHeartbeat: map<AgentId, real>
    var ttlSeconds: map<AgentId, int>
    var mailboxes: map<AgentId, seq<Message>>
    var traffic: seq<Record>
    const defaultTtl: int
    const mailboxGrace: real
    const trafficSize: nat

    constructor (defaultTtl: int, mailboxGrace: real, trafficSize: nat)
      ensures Valid() && View() == Empty() && traffic == []
      ensures this.defaultTtl == defaultTtl && this.mailboxGrace == mailboxGrace && this.trafficSize == trafficSize
    {
      this.defaultTtl, this.mailboxGrace, this.trafficSize := defaultTtl, mailboxGrace, trafficSize;
      registry, capabilities, lastHeartbeat, ttlSeconds := map[], map[], map[], map[];
      mailboxes, traffic := map[], [];
    }

    /** Endpoints are filed under their own agent id. */
    ghost predicate Valid()
      reads this
    {
      Keyed(View())
    }

    function View(): Maps<Message>
      reads this
    {
      Maps(registry, capabilities, lastHeartbeat, ttlSeconds, mailboxes)
    }

    /** `POST /agents`. */
    method Register(data: Object, caller: AgentId, now: real) returns (status: int)
      requires Valid()
      modifies this
      ensures Valid()
      ensures traffic == old(traffic)
      ensures match Registration.Parse(data, caller)
              case Err(reason) => status == Registration.StatusOf(reason) && View() == old(View())
              case Ok(p) =>
                && status == (if p.ep.agentId in old(registry) then 200 else 201)
                && View() == Registered(old(View()), p.ep, p.caps, p.given, now, defaultTtl)
    {
      var parsed := Registration.Parse(data, caller);
      if parsed.Err? { return Registration.StatusOf(parsed.error); }
      var ep, caps, given := parsed.value.ep, parsed.value.caps, parsed.value.given;
      var a := ep.agentId;
      var isNew := a !in registry;
      registry := registry[a := ep];
      if ep.mailbox && a !in mailboxes { mailboxes := mailboxes[a := []]; }
      capabilities := capabilities[a := caps];
      lastHeartbeat := lastHeartbeat[a := now];
      if given.Some? {
        ttlSeconds := ttlSeconds[a := given.value];
      } else if isNew {
        ttlSeconds := ttlSeconds[a := defaultTtl];
      }
      status := if isNew then 201 else 200;
    }

    /** `DELETE /agents/{id}`: removing an unknown agent succeeds too. */
    method Deregister(a: AgentId, caller: AgentId) returns (status: int)
      requires Valid()
      modifies this
      ensures Valid()
      ensures traffic == old(traffic)
      ensures status == if a == "" then 400 else if caller != "" && a != caller then 403 else 204
      ensures View() == if status == 204 then Removed(old(View()), a) else old(View())
    {
      if a == "" { return 400; }
      if caller != "" && a != caller { return 403; }
      Remove(a);
      status := 204;
    }

    method Remove(a: AgentId)
      requires Valid()
      modifies this
      ensures Valid()
      ensures traffic == old(traffic) && View() == Removed(old(View()), a)
    {
      registry := registry - {a};
      capabilities := capabilities - {a};
      lastHeartbeat := lastHeartbeat - {a};
      ttlSeconds := ttlSeconds - {a};
      mailboxes := mailboxes - {a};
    }

    method RecordTraffic(m: Message, disposition: Disposition, status: int, now: real)
      modifies this`traffic
      ensures traffic == Push(old(traffic), trafficSize, RecordOf(m, disposition, status, now))
    {
      traffic := LastN(traffic + [RecordOf(m, disposition, status, now)], trafficSize);
    }

    /** `POST /messages`. */
    method Send(m: Message, caller: AgentId, dial: Dial, stamp: Stamp, now: real) returns (answer: Answer)
      requires Valid()
      modifies this
      ensures Valid()
      ensures var e := Sent(old(View()), m, caller, dial, stamp, now);
              answer == e.answer && View() == e.maps && traffic == PushAll(old(traffic), trafficSize, e.records)
    {
      if caller != "" && m.metadata.sender != Str(caller) {
        RecordTraffic(m, Rejected, 403, now);
        return Answer(403, None);
      }
      var recipient := m.metadata.recipient;
      if !Truthy(recipient) {
        RecordTraffic(m, Rejected, 400, now);
        return Answer(400, None);
      }
      var key := KeyOf(recipient);
      if key.Unhashable? { return Crash; }
      if key.NoSuchName? || key.id !in registry {
        var error := ErrorTo(m, "unknown_recipient", "unknown recipient", None, stamp);
        RecordTraffic(m, UnknownRecipient, 404, now);
        return Answer(404, Some(error));
      }
      if registry[key.id].mailbox {
        if key.id !in mailboxes { mailboxes := mailboxes[key.id := []]; }
        mailboxes := mailboxes[key.id := mailboxes[key.id] + [m]];
        RecordTraffic(m, Queued, 202, now);
        return Answer(202, None);
      }
      answer := Report(m, dial, stamp);
      if answer.Crash? { return; }
      RecordTraffic(m, Routed, answer.status, now);
    }

    /** Re-create the registration of a pull agent the broker does not know. */
    method AutoRegisterMailbox(a: AgentId, now: real)
      requires Valid()
      modifies this
      ensures Valid()
      ensures traffic == old(traffic) && View() == AutoRegistered(old(View()), a, now, defaultTtl)
    {
      registry := registry[a := MailboxEndpoint(a)];
      if a !in mailboxes { mailboxes := mailboxes[a := []]; }
      if a !in capabilities { capabilities := capabilities[a := map[]]; }
      lastHeartbeat := lastHeartbeat[a := now];
      if a !in ttlSeconds { ttlSeconds := ttlSeconds[a := defaultTtl]; }
    }

    /** `GET /messages` up to the wait; the second result says how long it may hold. */
    method PollStart(a: AgentId, wait: Option<real>, now: real) returns (hold: real)
      requires Valid()
      modifies this
      ensures Valid()
      ensures traffic == old(traffic) && View() == PollStarted(old(View()), a, now, defaultTtl)
      ensures hold == Hold(wait)
    {
      if a !in mailboxes { AutoRegisterMailbox(a, now); }
      if a in ttlSeconds { lastHeartbeat := lastHeartbeat[a := now]; }
      hold := Hold(wait);
    }

    /** `GET /messages` after the wait: hand over the whole queue, or nothing if it was evicted. */
    method PollEnd(a: AgentId) returns (messages: seq<Message>)
      requires Valid()
      modifies this
      ensures Valid()
      ensures traffic == old(traffic) && messages == Queue(old(View()), a)
      ensures View() == if a in old(mailboxes) then PutQueue(old(View()), a, []) else old(View())
    {
      if a !in mailboxes { return []; }
      messages := mailboxes[a];
      mailboxes := mailboxes[a := []];
    }

    /** Evict, one after the other, every endpoint of a snapshot whose time is up. */
    method SweepOnce(now: real)
      requires Valid()
      modifies this
      ensures Valid()
      ensures traffic == old(traffic) && View() == Swept(old(View()), now, mailboxGrace)
    {
      var endpoints := registry;
      ghost var before := View();
      ghost var done: set<AgentId> := {};
      while endpoints != map[]
        invariant endpoints == before.registry - done && traffic == old(traffic)
        invariant View() == SweptAmong(before, now, mailboxGrace, done)
        decreases endpoints.Keys
      {
        var a :| a in endpoints;
        var ep := endpoints[a];
        endpoints := endpoints - {a};
        var expired := a in lastHeartbeat && a in ttlSeconds && ttlSeconds[a] > 0
                       && now - lastHeartbeat[a] > ttlSeconds[a] as real + (if ep.mailbox then mailboxGrace else 0.0);
        SweepRound(before, now, mailboxGrace, done, a);
        if expired { Remove(a); }
        done := done + {a};
      }
      forall a <- before.registry ensures a in done {
        assert a in done || a in before.registry - done;
      }
      SweepAll(before, now, mailboxGrace, done);
    }
  }
}
