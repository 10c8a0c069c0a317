/** What users and handlers put in is what comes out at the other end, in order. */
module PullProtocolContents {
  import opened Wrappers
  import opened Json
  import opened Messages
  import opened PullProtocol
  import opened PullProtocolSafety

  // ---- what was sent is what handlers see ------------------------------------------------

  /** `m` is what the user asked to be sent in this step. */
  ghost predicate SentBy(act: Action, m: Message) {
    match act
    case Begin(a, b, stamp, body) => m.kind.Request? && Carries(m, a, b, stamp, body)
    case Notify(a, b, stamp, body, _) => m.kind.Notification? && Carries(m, a, b, stamp, body)
    case _ => false
  }

  predicate Carries(m: Message, a: AgentId, b: AgentId, stamp: Stamp, body: Object) {
    && m.id == stamp.id && m.metadata.timestamp == stamp.time && m.version == "1.0" && m.correlation == None
    && m.metadata.sender == Str(a) && m.metadata.recipient == Str(b) && m.metadata.extra == map[]
    && m.body == body
  }

  /** The reply of the handler run is what the handler decided in this step. */
  ghost predicate AnsweredBy(act: Action, h: Handling) {
    && act.Handle? && h.reply.Some?
    && var r := h.reply.value;
       && r.id == act.stamp.id && r.metadata.sender == Str(h.agent) && r.metadata.recipient == h.m.metadata.sender
       && r.correlation == Some(h.m.id)
       && match act.verdict
          case Answer(body) => r.kind.Response? && r.body == body
          case Fail(code, text) => r.kind.Error? && r.body == map["code" := Str(code), "message" := Str(text)]
          case Silent => false
  }

  predicate IsSend(m: Message) {
    m.kind.Request? || m.kind.Notification?
  }

  ghost predicate FromUser(actions: seq<Action>, m: Message) {
    exists i :: 0 <= i < |actions| && SentBy(actions[i], m)
  }

  ghost predicate FromHandler(actions: seq<Action>, h: Handling) {
    exists i :: 0 <= i < |actions| && AnsweredBy(actions[i], h)
  }

  ghost predicate Told(actions: seq<Action>, s: State) {
    && (forall p <- s.packets :: IsSend(p.m) ==> FromUser(actions, p.m))
    && (forall id <- s.calls :: FromUser(actions, s.calls[id].request))
    && (forall h <- s.handled ::
          (IsSend(h.m) ==> FromUser(actions, h.m)) && (h.reply.Some? ==> FromHandler(actions, h)))
  }

  ghost predicate Travels(s: State, m: Message) {
    exists q :: q in s.packets && q.m == m
  }

  /** A step only moves messages, but for those that are posted, notified or made by a handler. */
  lemma NewMessages(s: State, act: Action)
    requires Possible(s, act)
    ensures forall p <- Step(s, act).packets ::
              Travels(s, p.m) || (act.Post? && p.m == s.calls[act.id].request) || SentBy(act, p.m) || !IsSend(p.m)
  {
    var s' := Step(s, act);
    forall p <- s'.packets
      ensures Travels(s, p.m) || (act.Post? && p.m == s.calls[act.id].request) || SentBy(act, p.m) || !IsSend(p.m)
    {
      if act.Poll? && !act.lost {
        var i :| 0 <= i < |s'.packets| && s'.packets[i] == p;
        assert s.packets[i].m == p.m;
      } else if act.Poll? || act.Evict? {
        LiveWithout(s.packets, Mailbox(act.a), Notice(""));
      } else if act.Dispatch? || act.Fill? || act.Signal? || act.PostReply? {
        assert Travels(s, s.packets[act.i].m) by { assert s.packets[act.i] in s.packets; }
      }
    }
  }

  lemma CallsStay(s: State, act: Action)
    requires Possible(s, act)
    ensures forall id <- Step(s, act).calls :: var request := Step(s, act).calls[id].request;
              SentBy(act, request) || (id in s.calls && s.calls[id].request == request)
  {
  }

  lemma HandlingsStay(s: State, act: Action)
    requires Possible(s, act)
    ensures forall h <- Step(s, act).handled ::
              h in s.handled || (Travels(s, h.m) && (h.reply.Some? ==> AnsweredBy(act, h)))
  {
    if act.Handle? {
      assert s.packets[act.i] in s.packets;
    } else {
      assert Step(s, act).handled == s.handled;
    }
  }

  lemma Earlier(actions: seq<Action>, act: Action)
    ensures forall m :: FromUser(actions, m) || SentBy(act, m) ==> FromUser(actions + [act], m)
    ensures forall h :: FromHandler(actions, h) || AnsweredBy(act, h) ==> FromHandler(actions + [act], h)
  {
    var all := actions + [act];
    assert all[|actions|] == act;
    forall m | FromUser(actions, m) ensures FromUser(all, m) {
      var i :| 0 <= i < |actions| && SentBy(actions[i], m);
      assert all[i] == actions[i];
    }
    forall h | FromHandler(actions, h) ensures FromHandler(all, h) {
      var i :| 0 <= i < |actions| && AnsweredBy(actions[i], h);
      assert all[i] == actions[i];
    }
  }

  lemma StepTold(actions: seq<Action>, s: State, act: Action, s': State)
    requires Told(actions, s) && Possible(s, act) && s' == Step(s, act)
    ensures Told(actions + [act], s')
  {
    Earlier(actions, act);
    NewMessages(s, act);
    CallsStay(s, act);
    HandlingsStay(s, act);
    forall m | Travels(s, m) && IsSend(m) ensures FromUser(actions, m) {
      var q :| q in s.packets && q.m == m;
    }
  }

  lemma LastStep(actions: seq<Action>, s: State) returns (mid: State)
    requires actions != [] && Leads(START, actions, s)
    ensures var n := |actions| - 1;
            Leads(START, actions[..n], mid) && Possible(mid, actions[n]) && s == Step(mid, actions[n])
  {
    var n := |actions| - 1;
    mid :| Leads(START, actions[..n], mid) && Possible(mid, actions[n]) && s == Step(mid, actions[n]);
  }

  lemma NothingTold(actions: seq<Action>)
    ensures Told(actions, START)
  {
  }

  lemma {:induction false} RunTold(actions: seq<Action>, s: State)
    requires Leads(START, actions, s)
    ensures Told(actions, s)
    decreases |actions|
  {
    if actions == [] {
      NothingTold(actions);
    } else {
      var before, act := actions[..|actions| - 1], actions[|actions| - 1];
      var mid := LastStep(actions, s);
      RunTold(before, mid);
      StepTold(before, mid, act, s);
      assert actions == before + [act];
    }
  }

  /**
   * In every run, every request or notification that a handler sees is one that a user sent in it, to the
   * agent that handles it, with the body, sender, id and time that were given.
   */
  lemma HandlersSeeWhatWasSent(actions: seq<Action>, s: State, h: Handling)
    requires Leads(START, actions, s) && h in s.handled && (h.m.kind.Request? || h.m.kind.Notification?)
    ensures h.m.metadata.recipient == Str(h.agent)
    ensures exists i :: 0 <= i < |actions| && SentBy(actions[i], h.m)
  {
    RunTold(actions, s);
    assert Reachable(s);
    ReachableInv(s);
    assert HandlingOk(s, h);
  }

  /**
   * In every run, a call returns to the user who began it the answer, or the error, that the handler of the
   * agent it was addressed to decided on when it saw the body that the user gave.
   */
  lemma ReturnsTheAnswer(actions: seq<Action>, s: State, id: Id)
    requires Leads(START, actions, s) && id in s.calls && s.calls[id].outcome.Returned?
    ensures exists i, h, j ::
              && 0 <= i < |actions| && actions[i].Begin? && actions[i].stamp.id == id
              && actions[i].a == s.calls[id].owner
              && h in s.handled && SentBy(actions[i], h.m) && h.agent == actions[i].b
              && h.reply == Some(s.calls[id].outcome.reply)
              && 0 <= j < |actions| && AnsweredBy(actions[j], h)
  {
    RunTold(actions, s);
    assert Reachable(s);
    ReplyIsTheHandlersReply(s, id);
    ReachableInv(s);
    assert CallOk(s, id);
    var r := s.calls[id].outcome.reply;
    var k :| 0 <= k < |s.handled| && s.handled[k].reply == Some(r) && s.handled[k].m == s.calls[id].request;
    var h := s.handled[k];
    assert HandlingOk(s, h);
    var i :| 0 <= i < |actions| && SentBy(actions[i], s.calls[id].request);
    var j :| 0 <= j < |actions| && AnsweredBy(actions[j], h);
    assert actions[i].Begin? && SentBy(actions[i], h.m);
  }

  /** Beginning a call records exactly the request that was asked for, and posts nothing yet. */
  lemma BeginRecords(s: State, a: AgentId, b: AgentId, stamp: Stamp, body: Object)
    requires Possible(s, Begin(a, b, stamp, body))
    ensures var s' := Step(s, Begin(a, b, stamp, body));
            && stamp.id in s'.calls && s'.packets == s.packets
            && var c := s'.calls[stamp.id];
               && c.request.kind.Request? && Carries(c.request, a, b, stamp, body)
               && c.owner == a && c.registered && c.slot == [] && !c.event
  {
  }

  // ---- in order ------------------------------------------------------------------------------

  /** The messages at a place, oldest first. */
  function MessagesAt(packets: seq<Packet>, place: Place): seq<Message> {
    if packets == [] then []
    else
      var n := |packets| - 1;
      MessagesAt(packets[..n], place) + if packets[n].at == place then [packets[n].m] else []
  }

  lemma AtAppend(packets: seq<Packet>, p: Packet, place: Place)
    ensures MessagesAt(packets + [p], place) == MessagesAt(packets, place) + if p.at == place then [p.m] else []
  {
    assert (packets + [p])[..|packets|] == packets;
  }

  lemma MovedAppend(packets: seq<Packet>, p: Packet, from: Place, to: Place)
    ensures Moved(packets + [p], from, to) == Moved(packets, from, to) + [if p.at == from then p.(at := to) else p]
  {
  }

  lemma EmptyBefore(packets: seq<Packet>, p: Packet, place: Place)
    requires Empty(packets + [p], place)
    ensures Empty(packets, place) && p.at != place
  {
    assert (packets + [p])[|packets|] == p;
    forall i | 0 <= i < |packets| ensures packets[i].at != place { assert (packets + [p])[i] == packets[i]; }
  }

  lemma {:induction false} AtMoved(packets: seq<Packet>, from: Place, to: Place, place: Place)
    requires Empty(packets, to) && from != to
    ensures MessagesAt(Moved(packets, from, to), place)
         == if place == from then [] else if place == to then MessagesAt(packets, from) else MessagesAt(packets, place)
    decreases |packets|
  {
    if packets != [] {
      var rest, p := packets[..|packets| - 1], packets[|packets| - 1];
      assert packets == rest + [p];
      EmptyBefore(rest, p, to);
      AtMoved(rest, from, to, place);
      MovedAppend(rest, p, from, to);
      AtAppend(Moved(rest, from, to), if p.at == from then p.(at := to) else p, place);
      AtAppend(rest, p, from);
      AtAppend(rest, p, place);
      if place == to { NothingAt(rest, to); }
    } else {
      assert Moved(packets, from, to) == [];
    }
  }

  lemma {:induction false} NothingAt(packets: seq<Packet>, place: Place)
    requires Empty(packets, place)
    ensures MessagesAt(packets, place) == []
    decreases |packets|
  {
    if packets != [] {
      var rest, p := packets[..|packets| - 1], packets[|packets| - 1];
      assert packets == rest + [p];
      EmptyBefore(rest, p, place);
      NothingAt(rest, place);
    }
  }

  lemma {:induction false} AtWithout(packets: seq<Packet>, gone: Place, place: Place)
    ensures MessagesAt(Without(packets, gone), place) == if place == gone then [] else MessagesAt(packets, place)
    decreases |packets|
  {
    if packets != [] {
      var n := |packets| - 1;
      AtWithout(packets[..n], gone, place);
      if packets[n].at == gone {
        assert Without(packets, gone) == Without(packets[..n], gone);
      } else {
        AtAppend(Without(packets[..n], gone), packets[n], place);
      }
    }
  }

  /** A poll takes the whole mailbox, in order, and leaves every other place as it is; a lost or evicted one is gone. */
  lemma PollTakesAll(s: State, a: AgentId, lost: bool, place: Place)
    requires Possible(s, Poll(a, lost))
    ensures MessagesAt(Step(s, Poll(a, lost)).packets, place)
         == if place == Mailbox(a) then []
            else if place == Received(a) && !lost then MessagesAt(s.packets, Mailbox(a))
            else MessagesAt(s.packets, place)
    ensures MessagesAt(Step(s, Evict(a)).packets, place)
         == if place == Mailbox(a) then [] else MessagesAt(s.packets, place)
  {
    AtWithout(s.packets, Mailbox(a), place);
    if !lost { AtMoved(s.packets, Mailbox(a), Received(a), place); }
  }

  lemma PostedPackets(s: State, id: Id, receipt: Receipt, b: AgentId)
    requires Possible(s, Post(id, receipt)) && s.calls[id].request.metadata.recipient == Str(b)
    ensures Step(s, Post(id, receipt)).packets
         == if receipt == Queued || receipt == Lost(true) then s.packets + [Packet(Mailbox(b), s.calls[id].request)]
            else s.packets
  {
  }

  /** A request that the broker queues comes last in its recipient's mailbox; otherwise posting moves nothing. */
  lemma PostQueuesLast(s: State, id: Id, receipt: Receipt, b: AgentId, place: Place)
    requires Possible(s, Post(id, receipt)) && s.calls[id].request.metadata.recipient == Str(b)
    ensures MessagesAt(Step(s, Post(id, receipt)).packets, place)
         == MessagesAt(s.packets, place)
            + if place == Mailbox(b) && (receipt == Queued || receipt == Lost(true)) then [s.calls[id].request] else []
  {
    PostedPackets(s, id, receipt, b);
    AtAppend(s.packets, Packet(Mailbox(b), s.calls[id].request), place);
  }

  // ---- who gets a reply ------------------------------------------------------------------

  /** How a call goes on: posted, it waits or has failed; waiting, it takes the oldest reply or times out. */
  lemma CallsEndExactly(s: State, act: Action, id: Id)
    requires Possible(s, act) && id in s.calls && id in s.used
    ensures var c, c' := s.calls[id], Step(s, act).calls[id];
            && (act == Timeout(id) ==> c' == c.(outcome := TimedOut))
            && (act == Finish(id) && c.slot != [] ==> c' == c.(outcome := Returned(c.slot[0])))
            && (act.Post? && act.id == id && (act.receipt.Queued? || act.receipt.Answered?) ==> c'.outcome == Waiting)
            && (act.Post? && act.id == id && (act.receipt.Refused? || act.receipt.Lost?) ==> c'.outcome == SendFailed)
            && (act.Post? && act.id == id ==> c'.receipt == Some(act.receipt))
            && (c'.outcome != c.outcome ==> act == Timeout(id) || act == Finish(id) || (act.Post? && act.id == id))
  {
  }

  /** The waiter is removed once the call is over, and never comes back. */
  lemma CleanupIsFinal(s: State, act: Action, id: Id)
    requires Possible(s, act) && id in s.calls && id in s.used
    ensures var s' := Step(s, act);
            && id in s'.calls
            && (act == Cleanup(id) ==> !s'.calls[id].registered)
            && (!s.calls[id].registered ==> !s'.calls[id].registered)
            && (s'.calls[id].registered != s.calls[id].registered ==> act == Cleanup(id))
  {
  }

  /**
   * Where a polled message goes: to the waiter of its own agent's call, when it is correlated with one that is
   * still registered; to a handler otherwise, a late reply included, unless the pool is shut down.
   */
  lemma DispatchedTo(s: State, i: nat, poolUp: bool)
    requires Possible(s, Dispatch(i, poolUp))
    ensures var s', p := Step(s, Dispatch(i, poolUp)), s.packets[i]; var a := p.at.a;
            if exists id :: p.m.correlation == Some(id) && id in s.calls && s.calls[id].owner == a
                            && s.calls[id].registered
            then s'.packets == s.packets[i := Packet(Filling(a), p.m)]
            else if poolUp then s'.packets == s.packets[i := Packet(Pool(a), p.m)]
            else s'.packets == s.packets[..i] + s.packets[i + 1..]
  {
  }
}
