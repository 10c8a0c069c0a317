/**
 * Pull-mode agents exchanging requests, replies and notifications through mailboxes:
 * waiters, timeouts, the receive loop, the handler pool and replies that come too late.
 * The mailboxes are used only as `BrokerThreadsSafety` shows them to behave: appends in
 * order, batches taken out whole.
 */
module PullProtocol {
  import opened Wrappers
  import opened Json
  import opened Messages

  type Id = string

  /** Where a message is. `Filling` and `Signalling` are the receive loop holding a reply for a waiter. */
  datatype Place =
    | Mailbox(a: AgentId)
    | Received(a: AgentId)
    | Filling(a: AgentId)
    | Signalling(a: AgentId)
    | Pool(a: AgentId)
    | Outbox(a: AgentId)

  /** Packets at one place are in the order of the sequence they are kept in. */
  datatype Packet = Packet(at: Place, m: Message)

  datatype Outcome = Sending | Waiting | Returned(reply: Message) | EmptySlot | TimedOut | SendFailed

  /**
   * What posting a request comes to: 202, the request is in a mailbox; 200 or 204, the broker has dialled the
   * recipient, and the answer carries its reply, if any; an error answer, which raises; or no answer at all,
   * which raises too, although the broker may have queued the request.
   */
  datatype Receipt = Queued | Answered(reply: Option<Message>) | Refused | Lost(queued: bool)

  predicate Queues(r: Receipt) {
    r.Queued? || (r.Lost? && r.queued)
  }

  predicate Raises(r: Receipt) {
    r.Refused? || r.Lost?
  }

  /**
   * One `send_request`: `registered` says that its waiter is in the owner's table, `slot` and
   * `event` are the waiter itself, which the receive loop may still reach after it is removed.
   * Taking the first element of an empty slot would raise: outcome `EmptySlot`. `receipt` is what came of posting.
   */
  datatype Call = Call(owner: AgentId, request: Message, registered: bool, slot: seq<Message>, event: bool,
                       outcome: Outcome, receipt: Option<Receipt>)

  /** One run of an agent's handler on a message. */
  datatype Handling = Handling(agent: AgentId, m: Message, reply: Option<Message>)

  /** `notices` counts, for each notification, how often the broker queued it. */
  datatype State = State(packets: seq<Packet>, calls: map<Id, Call>, handled: seq<Handling>, used: set<Id>,
                         notices: map<Id, nat>)

  const START := State([], map[], [], {}, map[])

  /** What comes of a request's handler: an answer, a failure (also a missing handler), or nothing that can be sent. */
  datatype Verdict = Answer(body: Object) | Fail(code: string, text: string) | Silent

  datatype Action =
    | Begin(a: AgentId, b: AgentId, stamp: Stamp, body: Object)
    | Post(id: Id, receipt: Receipt)
    | Notify(a: AgentId, b: AgentId, stamp: Stamp, body: Object, copies: nat)
    | Poll(a: AgentId, lost: bool)
    | Evict(a: AgentId)
    | Dispatch(i: nat, poolUp: bool)
    | Fill(i: nat)
    | Signal(i: nat)
    | Handle(i: nat, verdict: Verdict, stamp: Stamp)
    | PostReply(i: nat, queued: bool)
    | Finish(id: Id)
    | Timeout(id: Id)
    | Cleanup(id: Id)

  // ---- messages -----------------------------------------------------------------

  function RequestOf(a: AgentId, b: AgentId, stamp: Stamp, body: Object): Message {
    Message(Request, Metadata(Str(a), Str(b), stamp.time, map[]), stamp.id, PROTOCOL_VERSION, body, None)
  }

  function NotificationOf(a: AgentId, b: AgentId, stamp: Stamp, body: Object): Message {
    Message(Notification, Metadata(Str(a), Str(b), stamp.time, map[]), stamp.id, PROTOCOL_VERSION, body, None)
  }

  /** The reply a handler run produces; only requests are answered. */
  function ReplyOf(a: AgentId, m: Message, verdict: Verdict, stamp: Stamp): Option<Message> {
    if !m.kind.Request? then None
    else
      match verdict
      case Answer(body) => Some(ResponseTo(m, body, Some(Str(a)), stamp))
      case Fail(code, text) => Some(ErrorTo(m, code, text, Some(Str(a)), stamp))
      case Silent => None
  }

  // ---- packets ------------------------------------------------------------------

  function Moved(packets: seq<Packet>, from: Place, to: Place): seq<Packet> {
    seq(|packets|, i requires 0 <= i < |packets| =>
      if packets[i].at == from then packets[i].(at := to) else packets[i])
  }

  function Without(packets: seq<Packet>, place: Place): seq<Packet> {
    if packets == [] then []
    else
      var n := |packets| - 1;
      Without(packets[..n], place) + if packets[n].at == place then [] else [packets[n]]
  }

  function Removed(packets: seq<Packet>, i: nat): seq<Packet>
    requires i < |packets|
  {
    packets[..i] + packets[i + 1..]
  }

  predicate Empty(packets: seq<Packet>, place: Place) {
    forall i :: 0 <= i < |packets| ==> packets[i].at != place
  }

  /** The receive loop of `a` is between two messages. */
  predicate LoopFree(packets: seq<Packet>, a: AgentId) {
    Empty(packets, Filling(a)) && Empty(packets, Signalling(a))
  }

  /** The call whose waiter `a`'s receive loop finds for a message, if any. */
  function WaiterFor(s: State, a: AgentId, m: Message): Option<Id> {
    if m.correlation.Some? && m.correlation.value in s.calls && s.calls[m.correlation.value].owner == a
       && s.calls[m.correlation.value].registered
    then m.correlation else None
  }

  // ---- steps ---------------------------------------------------------------------

  predicate PacketAt(s: State, i: nat) {
    i < |s.packets|
  }

  predicate Possible(s: State, act: Action) {
    match act
    case Begin(_, _, stamp, _) => stamp.id !in s.used
    case Post(id, _) => id in s.calls && s.calls[id].outcome.Sending?
    case Notify(_, _, stamp, _, _) => stamp.id !in s.used
    case Poll(a, _) => Empty(s.packets, Received(a)) && LoopFree(s.packets, a)
    case Evict(_) => true
    case Dispatch(i, _) =>
      && PacketAt(s, i) && s.packets[i].at.Received?
      && LoopFree(s.packets, s.packets[i].at.a) && Empty(s.packets[..i], s.packets[i].at)
    case Fill(i) => PacketAt(s, i) && s.packets[i].at.Filling?
    case Signal(i) => PacketAt(s, i) && s.packets[i].at.Signalling?
    case Handle(i, _, stamp) => PacketAt(s, i) && s.packets[i].at.Pool? && stamp.id !in s.used
    case PostReply(i, _) => PacketAt(s, i) && s.packets[i].at.Outbox?
    case Finish(id) => id in s.calls && s.calls[id].outcome.Waiting? && s.calls[id].event
    case Timeout(id) => id in s.calls && s.calls[id].outcome.Waiting? && !s.calls[id].event
    case Cleanup(id) => id in s.calls && !s.calls[id].outcome.Sending? && !s.calls[id].outcome.Waiting?
  }

  /** The broker has put the call's request into a mailbox. */
  predicate WasQueued(c: Call) {
    c.receipt.Some? && Queues(c.receipt.value)
  }

  function WithCall(s: State, id: Id, c: Call): State {
    s.(calls := s.calls[id := c])
  }

  /** The mailbox a message is posted to. */
  function PostedTo(m: Message): Option<Place> {
    if m.metadata.recipient.Str? then Some(Mailbox(m.metadata.recipient.text)) else None
  }

  function CorrelatedCall(s: State, m: Message): Option<Id> {
    if m.correlation.Some? && m.correlation.value in s.calls then m.correlation else None
  }

  function Step(s: State, act: Action): State
    requires Possible(s, act)
  {
    match act
    case Begin(a, b, stamp, body) =>
      WithCall(s, stamp.id, Call(a, RequestOf(a, b, stamp, body), true, [], false, Sending, None))
      .(used := s.used + {stamp.id})
    case Post(id, receipt) =>
      var c := s.calls[id];
      var to := PostedTo(c.request);
      var outcome := if Raises(receipt) then SendFailed else Waiting;
      var s1 := WithCall(s, id, c.(outcome := outcome, receipt := Some(receipt)));
      if Queues(receipt) && to.Some? then s1.(packets := s.packets + [Packet(to.value, c.request)]) else s1
    case Notify(a, b, stamp, body, copies) =>
      s.(packets := s.packets + seq(copies, _ => Packet(Mailbox(b), NotificationOf(a, b, stamp, body))),
         used := s.used + {stamp.id},
         notices := s.notices[stamp.id := copies])
    case Poll(a, lost) =>
      s.(packets := if lost then Without(s.packets, Mailbox(a)) else Moved(s.packets, Mailbox(a), Received(a)))
    case Evict(a) => s.(packets := Without(s.packets, Mailbox(a)))
    case Dispatch(i, poolUp) =>
      var p := s.packets[i];
      if WaiterFor(s, p.at.a, p.m).Some? then s.(packets := s.packets[i := p.(at := Filling(p.at.a))])
      else if poolUp then s.(packets := s.packets[i := p.(at := Pool(p.at.a))])
      else s.(packets := Removed(s.packets, i))
    case Fill(i) =>
      var p := s.packets[i];
      var s1 := s.(packets := s.packets[i := p.(at := Signalling(p.at.a))]);
      var id := CorrelatedCall(s, p.m);
      if id.Some? then WithCall(s1, id.value, s.calls[id.value].(slot := s.calls[id.value].slot + [p.m])) else s1
    case Signal(i) =>
      var s1 := s.(packets := Removed(s.packets, i));
      var id := CorrelatedCall(s, s.packets[i].m);
      if id.Some? then WithCall(s1, id.value, s.calls[id.value].(event := true)) else s1
    case Handle(i, verdict, stamp) =>
      var p := s.packets[i];
      var reply := ReplyOf(p.at.a, p.m, verdict, stamp);
      s.(handled := s.handled + [Handling(p.at.a, p.m, reply)],
         used := s.used + {stamp.id},
         packets := if reply.Some? then s.packets[i := Packet(Outbox(p.at.a), reply.value)] else Removed(s.packets, i))
    case PostReply(i, queued) =>
      var to := PostedTo(s.packets[i].m);
      s.(packets := Removed(s.packets, i) + if queued && to.Some? then [Packet(to.value, s.packets[i].m)] else [])
    case Finish(id) =>
      var slot := s.calls[id].slot;
      WithCall(s, id, s.calls[id].(outcome := if slot == [] then EmptySlot else Returned(slot[0])))
    case Timeout(id) => WithCall(s, id, s.calls[id].(outcome := TimedOut))
    case Cleanup(id) => WithCall(s, id, s.calls[id].(registered := false))
  }
}
