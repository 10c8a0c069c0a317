/** How often a notification may be handled, and that a queued request can be answered. */
module PullProtocolRuns {
  import opened Wrappers
  import opened Json
  import opened Messages
  import opened PullProtocol
  import opened PullProtocolSafety
  import Retry

  // ---- notifications ---------------------------------------------------------------------

  /** A notification is handled at most as often as the broker queued it. */
  lemma HandledAtMostQueued(s: State, id: Id)
    requires Reachable(s)
    ensures Handled(s.handled, Notice(id)) <= if id in s.notices then s.notices[id] else 0
  {
    ReachableInv(s);
    assert Single(s, Notice(id));
  }

  /** A notification is queued by calls that `retry_call` makes; a call that fails may have queued it all the same. */
  ghost predicate Attempted(act: Action, maxAttempts: int) {
    act.Notify? ==> exists f: nat -> Retry.Attempt<int, int> :: act.copies <= Retry.Calls(f, maxAttempts)
  }

  /** Reachable when every notification is sent with this retry limit. */
  ghost predicate ReachableWith(maxAttempts: int, s: State) {
    exists actions :: Leads(START, actions, s) && forall act <- actions :: Attempted(act, maxAttempts)
  }

  ghost predicate Bounded(s: State, maxAttempts: int) {
    forall id <- s.notices :: s.notices[id] == 0 || s.notices[id] <= maxAttempts
  }

  lemma StepKeepsBounded(maxAttempts: int, s: State, act: Action)
    requires Possible(s, act) && Attempted(act, maxAttempts) && Bounded(s, maxAttempts)
    ensures Bounded(Step(s, act), maxAttempts)
  {
    if act.Notify? {
      var f: nat -> Retry.Attempt<int, int> :| act.copies <= Retry.Calls(f, maxAttempts);
      Retry.CallsBounded(f, maxAttempts);
    } else {
      assert Step(s, act).notices == s.notices;
    }
  }

  lemma {:induction false} NoticesBounded(maxAttempts: int, actions: seq<Action>, s: State)
    requires Leads(START, actions, s) && forall act <- actions :: Attempted(act, maxAttempts)
    ensures Bounded(s, maxAttempts)
    decreases |actions|
  {
    if actions != [] {
      var n := |actions| - 1;
      var mid :| Leads(START, actions[..n], mid) && Possible(mid, actions[n]) && s == Step(mid, actions[n]);
      NoticesBounded(maxAttempts, actions[..n], mid);
      StepKeepsBounded(maxAttempts, mid, actions[n]);
    }
  }

  lemma AttemptedStep(maxAttempts: int, s: State, act: Action)
    requires ReachableWith(maxAttempts, s) && Possible(s, act) && Attempted(act, maxAttempts)
    ensures ReachableWith(maxAttempts, Step(s, act))
  {
    var actions :| Leads(START, actions, s) && forall a <- actions :: Attempted(a, maxAttempts);
    var longer := actions + [act];
    assert longer[..|actions|] == actions && longer[|actions|] == act;
    assert Leads(START, longer, Step(s, act));
  }

  lemma TwicePolled(maxAttempts: int, a: AgentId, b: AgentId, sent: Stamp, body: Object)
    requires maxAttempts >= 2
    ensures var p := Packet(Received(b), NotificationOf(a, b, sent, body));
            ReachableWith(maxAttempts, State([p, p], map[], [], {sent.id}, map[sent.id := 2]))
  {
    var m := NotificationOf(a, b, sent, body);
    var posted, polled := Packet(Mailbox(b), m), Packet(Received(b), m);
    var notify := Notify(a, b, sent, body, 2);
    assert Leads(START, [], START);
    assert ReachableWith(maxAttempts, START);
    assert Attempted(notify, maxAttempts) by {
      var f: nat -> Retry.Attempt<int, int> := k => Retry.Failed(0);
      Retry.CallsExactly(f, maxAttempts, maxAttempts);
    }
    AttemptedStep(maxAttempts, START, notify);
    var s := State([posted, posted], map[], [], {sent.id}, map[sent.id := 2]);
    assert seq(2, _ => posted) == [posted, posted];
    assert Step(START, notify) == s;
    AttemptedStep(maxAttempts, s, Poll(b, false));
    assert Moved([posted, posted], Mailbox(b), Received(b)) == [polled, polled];
  }

  lemma TwiceDispatched(maxAttempts: int, a: AgentId, b: AgentId, sent: Stamp, body: Object)
    requires maxAttempts >= 2
    ensures var p := Packet(Pool(b), NotificationOf(a, b, sent, body));
            ReachableWith(maxAttempts, State([p, p], map[], [], {sent.id}, map[sent.id := 2]))
  {
    var m := NotificationOf(a, b, sent, body);
    var polled, pooled := Packet(Received(b), m), Packet(Pool(b), m);
    TwicePolled(maxAttempts, a, b, sent, body);
    var s := State([polled, polled], map[], [], {sent.id}, map[sent.id := 2]);
    AttemptedStep(maxAttempts, s, Dispatch(0, true));
    assert [polled, polled][0 := pooled] == [pooled, polled];
    var s' := State([pooled, polled], map[], [], {sent.id}, map[sent.id := 2]);
    AttemptedStep(maxAttempts, s', Dispatch(1, true));
    assert [pooled, polled][1 := pooled] == [pooled, pooled];
  }

  /** With two attempts allowed, a notification whose first attempt was queued but not answered is handled twice. */
  lemma NotificationHandledTwice(maxAttempts: int, a: AgentId, b: AgentId, sent: Stamp, first: Stamp, second: Stamp,
                                 body: Object)
    requires maxAttempts >= 2 && sent.id != first.id && sent.id != second.id && first.id != second.id
    ensures var h := Handling(b, NotificationOf(a, b, sent, body), None);
            ReachableWith(maxAttempts, State([], map[], [h, h], {sent.id, first.id, second.id}, map[sent.id := 2]))
  {
    var m := NotificationOf(a, b, sent, body);
    var pooled, h := Packet(Pool(b), m), Handling(b, m, None);
    TwiceDispatched(maxAttempts, a, b, sent, body);
    var s := State([pooled, pooled], map[], [], {sent.id}, map[sent.id := 2]);
    AttemptedStep(maxAttempts, s, Handle(0, Silent, first));
    assert Removed([pooled, pooled], 0) == [pooled];
    var s' := State([pooled], map[], [h], {sent.id, first.id}, map[sent.id := 2]);
    assert Step(s, Handle(0, Silent, first)) == s';
    AttemptedStep(maxAttempts, s', Handle(0, Silent, second));
    assert Removed([pooled], 0) == [] && [h] + [h] == [h, h];
    assert {sent.id, first.id} + {second.id} == {sent.id, first.id, second.id};
  }

  ghost predicate NotificationsOnce(maxAttempts: int) {
    forall s, id :: ReachableWith(maxAttempts, s) ==> Handled(s.handled, Notice(id)) <= 1
  }

  /** In every run each notification is handled at most once, exactly if the retry policy allows at most one attempt. */
  lemma NotificationsOnceExactly(maxAttempts: int)
    ensures NotificationsOnce(maxAttempts) <==> maxAttempts <= 1
  {
    if maxAttempts <= 1 {
      forall s, id | ReachableWith(maxAttempts, s) ensures Handled(s.handled, Notice(id)) <= 1 {
        var actions :| Leads(START, actions, s) && forall act <- actions :: Attempted(act, maxAttempts);
        NoticesBounded(maxAttempts, actions, s);
        assert Reachable(s);
        HandledAtMostQueued(s, id);
      }
    } else {
      var sent := Stamp("0", "");
      NotificationHandledTwice(maxAttempts, "", "", sent, Stamp("1", ""), Stamp("2", ""), map[]);
      var h := Handling("", NotificationOf("", "", sent, map[]), None);
      HandledTwoRuns(h, "0");
      var s := State([], map[], [h, h], {"0", "1", "2"}, map["0" := 2]);
      assert ReachableWith(maxAttempts, s) && Handled(s.handled, Notice("0")) == 2;
    }
  }

  lemma HandledTwoRuns(h: Handling, id: Id)
    requires h.m.kind.Notification? && h.m.id == id
    ensures Handled([h, h], Notice(id)) == 2
  {
    HandledAppend([], h, Notice(id));
    HandledAppend([h], h, Notice(id));
    assert [] + [h] == [h] && [h] + [h] == [h, h];
  }

  // ---- a request can be answered -----------------------------------------------------------

  lemma Extended(s: State, act: Action)
    requires Reachable(s) && Possible(s, act)
    ensures Reachable(Step(s, act))
  {
    var actions :| Leads(START, actions, s);
    var longer := actions + [act];
    assert longer[..|actions|] == actions && longer[|actions|] == act;
    assert Leads(START, longer, Step(s, act));
  }

  /** One request, its call and where the one message on its way is. */
  function Scene(p: seq<Packet>, q: Stamp, c: Call, handled: seq<Handling>, used: set<Id>): State {
    State(p, map[q.id := c], handled, used, map[])
  }

  function Waiter(a: AgentId, request: Message): Call {
    Call(a, request, true, [], false, Waiting, Some(Queued))
  }

  lemma RequestQueued(a: AgentId, b: AgentId, q: Stamp, body: Object)
    ensures var request := RequestOf(a, b, q, body);
            Reachable(Scene([Packet(Mailbox(b), request)], q, Waiter(a, request), [], {q.id}))
  {
    var request := RequestOf(a, b, q, body);
    var begin, post := Begin(a, b, q, body), Post(q.id, Queued);
    assert Leads(START, [], START);
    Extended(START, begin);
    var s := Scene([], q, Call(a, request, true, [], false, Sending, None), [], {q.id});
    assert Step(START, begin) == s;
    Extended(s, post);
    assert map[q.id := s.calls[q.id]][q.id := Waiter(a, request)] == map[q.id := Waiter(a, request)];
    assert [] + [Packet(Mailbox(b), request)] == [Packet(Mailbox(b), request)];
    assert Step(s, post) == Scene([Packet(Mailbox(b), request)], q, Waiter(a, request), [], {q.id});
  }

  /** From a mailbox to the pool or to the waiter of the agent that polls it. */
  lemma PolledAndDispatched(a: AgentId, m: Message, q: Stamp, c: Call, handled: seq<Handling>, used: set<Id>)
    requires Reachable(Scene([Packet(Mailbox(a), m)], q, c, handled, used))
    ensures var mine := m.correlation == Some(q.id) && c.owner == a && c.registered;
            Reachable(Scene([Packet(if mine then Filling(a) else Pool(a), m)], q, c, handled, used))
  {
    var s := Scene([Packet(Mailbox(a), m)], q, c, handled, used);
    Extended(s, Poll(a, false));
    var s' := Scene([Packet(Received(a), m)], q, c, handled, used);
    assert Moved(s.packets, Mailbox(a), Received(a)) == s'.packets;
    assert Step(s, Poll(a, false)) == s';
    Extended(s', Dispatch(0, true));
    assert s'.packets[0 := Packet(Filling(a), m)] == [Packet(Filling(a), m)];
    assert s'.packets[0 := Packet(Pool(a), m)] == [Packet(Pool(a), m)];
  }

  lemma ReplyQueued(a: AgentId, b: AgentId, q: Stamp, r: Stamp, body: Object, answer: Object)
    requires q.id != r.id
    ensures var request := RequestOf(a, b, q, body);
            var reply := ResponseTo(request, answer, Some(Str(b)), r);
            var handled := [Handling(b, request, Some(reply))];
            Reachable(Scene([Packet(Mailbox(a), reply)], q, Waiter(a, request), handled, {q.id, r.id}))
  {
    var request := RequestOf(a, b, q, body);
    var reply := ResponseTo(request, answer, Some(Str(b)), r);
    var c := Waiter(a, request);
    RequestQueued(a, b, q, body);
    PolledAndDispatched(b, request, q, c, [], {q.id});
    var s := Scene([Packet(Pool(b), request)], q, c, [], {q.id});
    Extended(s, Handle(0, Answer(answer), r));
    var s' := Scene([Packet(Outbox(b), reply)], q, c, [Handling(b, request, Some(reply))], {q.id, r.id});
    assert s.packets[0 := Packet(Outbox(b), reply)] == s'.packets && {q.id} + {r.id} == {q.id, r.id};
    assert [] + [Handling(b, request, Some(reply))] == [Handling(b, request, Some(reply))];
    assert Step(s, Handle(0, Answer(answer), r)) == s';
    Extended(s', PostReply(0, true));
    assert Removed(s'.packets, 0) + [Packet(Mailbox(a), reply)] == [Packet(Mailbox(a), reply)];
  }

  lemma WaiterFilled(a: AgentId, m: Message, q: Stamp, c: Call, handled: seq<Handling>, used: set<Id>)
    requires Reachable(Scene([Packet(Filling(a), m)], q, c, handled, used)) && m.correlation == Some(q.id)
    requires c.slot == []
    ensures Reachable(Scene([Packet(Signalling(a), m)], q, c.(slot := [m]), handled, used))
  {
    var s := Scene([Packet(Filling(a), m)], q, c, handled, used);
    var filled := c.(slot := [m]);
    Extended(s, Fill(0));
    assert s.packets[0 := Packet(Signalling(a), m)] == [Packet(Signalling(a), m)] && [] + [m] == [m];
    assert map[q.id := c][q.id := filled] == map[q.id := filled];
  }

  lemma WaiterSignalled(a: AgentId, m: Message, q: Stamp, c: Call, handled: seq<Handling>, used: set<Id>)
    requires Reachable(Scene([Packet(Signalling(a), m)], q, c, handled, used)) && m.correlation == Some(q.id)
    ensures Reachable(Scene([], q, c.(event := true), handled, used))
  {
    var s := Scene([Packet(Signalling(a), m)], q, c, handled, used);
    Extended(s, Signal(0));
    assert Removed(s.packets, 0) == [] && map[q.id := c][q.id := c.(event := true)] == map[q.id := c.(event := true)];
  }

  /** The receive loop fills the waiter's slot, sets its event, and the caller takes the reply. */
  lemma WaiterServed(a: AgentId, m: Message, q: Stamp, c: Call, handled: seq<Handling>, used: set<Id>)
    requires Reachable(Scene([Packet(Filling(a), m)], q, c, handled, used))
    requires m.correlation == Some(q.id) && c.slot == [] && c.outcome.Waiting?
    ensures Reachable(Scene([], q, c.(slot := [m], event := true, outcome := Returned(m)), handled, used))
  {
    WaiterFilled(a, m, q, c, handled, used);
    WaiterSignalled(a, m, q, c.(slot := [m]), handled, used);
    var ready := c.(slot := [m], event := true);
    var s := Scene([], q, ready, handled, used);
    Extended(s, Finish(q.id));
    assert map[q.id := ready][q.id := ready.(outcome := Returned(m))] == map[q.id := ready.(outcome := Returned(m))];
  }

  /** For any two agents, ids, bodies and answers: a request that was queued can return its handler's reply. */
  lemma QueuedCanReturn(a: AgentId, b: AgentId, q: Stamp, r: Stamp, body: Object, answer: Object) returns (s: State)
    requires q.id != r.id
    ensures Reachable(s) && q.id in s.calls
    ensures s.calls[q.id].request == RequestOf(a, b, q, body) && s.calls[q.id].receipt == Some(Queued)
    ensures s.calls[q.id].outcome == Returned(ResponseTo(RequestOf(a, b, q, body), answer, Some(Str(b)), r))
    ensures s.calls[q.id].request.body == body && s.calls[q.id].outcome.reply.body == answer
    ensures |s.handled| == 1 && s.handled[0].agent == b && s.handled[0].m.body == body
  {
    var request := RequestOf(a, b, q, body);
    var reply := ResponseTo(request, answer, Some(Str(b)), r);
    var c, handled := Waiter(a, request), [Handling(b, request, Some(reply))];
    ReplyQueued(a, b, q, r, body, answer);
    PolledAndDispatched(a, reply, q, c, handled, {q.id, r.id});
    WaiterServed(a, reply, q, c, handled, {q.id, r.id});
    s := Scene([], q, c.(slot := [reply], event := true, outcome := Returned(reply)), handled, {q.id, r.id});
  }
}
