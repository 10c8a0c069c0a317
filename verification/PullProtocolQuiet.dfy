/** Traffic dies down: replies cause no replies, so without new sends every mailbox empties. */
module PullProtocolQuiet {
  import opened Wrappers
  import opened Messages
  import opened PullProtocol
  import opened PullProtocolSafety

  /** How many moves a packet can still cause; a request is worth its own moves and its reply's. */
  function Weight(p: Packet): nat {
    var request := p.m.kind.Request?;
    match p.at
    case Outbox(_) => if request then 10 else 6
    case Mailbox(_) => if request then 9 else 5
    case Received(_) => if request then 8 else 4
    case Pool(_) => if request then 7 else 3
    case Filling(_) => 2
    case Signalling(_) => 1
  }

  function Work(packets: seq<Packet>): nat {
    if packets == [] then 0 else Work(packets[..|packets| - 1]) + Weight(packets[|packets| - 1])
  }

  lemma WorkAppend(packets: seq<Packet>, p: Packet)
    ensures Work(packets + [p]) == Work(packets) + Weight(p)
  {
    assert (packets + [p])[..|packets|] == packets;
  }

  lemma {:induction false} WorkSplit(left: seq<Packet>, right: seq<Packet>)
    ensures Work(left + right) == Work(left) + Work(right)
    decreases |right|
  {
    if right == [] {
      assert left + right == left;
    } else {
      var n := |right| - 1;
      WorkSplit(left, right[..n]);
      assert (left + right)[..|left + right| - 1] == left + right[..n];
    }
  }

  lemma WorkSpliced(packets: seq<Packet>, i: nat, middle: seq<Packet>)
    requires i < |packets|
    ensures Work(packets[..i] + middle + packets[i + 1..]) == Work(packets) - Weight(packets[i]) + Work(middle)
  {
    WorkSplit(packets[..i], middle);
    WorkSplit(packets[..i] + middle, packets[i + 1..]);
    WorkAppend(packets[..i], packets[i]);
    WorkSplit(packets[..i] + [packets[i]], packets[i + 1..]);
    assert packets[..i] + [packets[i]] + packets[i + 1..] == packets;
  }

  lemma WorkRemoved(packets: seq<Packet>, i: nat)
    requires i < |packets|
    ensures Work(Removed(packets, i)) == Work(packets) - Weight(packets[i])
  {
    WorkSpliced(packets, i, []);
    assert packets[..i] + [] + packets[i + 1..] == Removed(packets, i);
  }

  lemma WorkReplaced(packets: seq<Packet>, i: nat, p: Packet)
    requires i < |packets|
    ensures Work(packets[i := p]) == Work(packets) - Weight(packets[i]) + Weight(p)
  {
    WorkSpliced(packets, i, [p]);
    WorkAppend([], p);
    assert [] + [p] == [p];
    assert packets[..i] + [p] + packets[i + 1..] == packets[i := p];
  }

  lemma {:induction false} WorkMoved(packets: seq<Packet>, a: AgentId)
    ensures Work(Moved(packets, Mailbox(a), Received(a))) <= Work(packets)
    ensures !Empty(packets, Mailbox(a)) ==> Work(Moved(packets, Mailbox(a), Received(a))) < Work(packets)
    decreases |packets|
  {
    if packets != [] {
      var n := |packets| - 1;
      WorkMoved(packets[..n], a);
      var moved := Moved(packets, Mailbox(a), Received(a));
      assert moved[..n] == Moved(packets[..n], Mailbox(a), Received(a));
      assert !Empty(packets, Mailbox(a)) && packets[n].at != Mailbox(a) ==> !Empty(packets[..n], Mailbox(a)) by {
        if i :| 0 <= i < |packets| && packets[i].at == Mailbox(a) { assert i == n || packets[..n][i].at == Mailbox(a); }
      }
    }
  }

  lemma WithoutAppend(packets: seq<Packet>, p: Packet, place: Place)
    ensures Without(packets + [p], place) == Without(packets, place) + if p.at == place then [] else [p]
  {
    assert (packets + [p])[..|packets|] == packets;
  }

  lemma EmptyAppend(packets: seq<Packet>, p: Packet, place: Place)
    ensures Empty(packets + [p], place) <==> Empty(packets, place) && p.at != place
  {
    assert (packets + [p])[|packets|] == p;
    forall i | 0 <= i < |packets| ensures (packets + [p])[i] == packets[i] {}
  }

  lemma {:induction false} WorkWithout(packets: seq<Packet>, a: AgentId)
    ensures Work(Without(packets, Mailbox(a))) <= Work(packets)
    ensures !Empty(packets, Mailbox(a)) ==> Work(Without(packets, Mailbox(a))) < Work(packets)
    decreases |packets|
  {
    if packets != [] {
      var rest, p := packets[..|packets| - 1], packets[|packets| - 1];
      WorkWithout(rest, a);
      assert packets == rest + [p];
      EmptyAppend(rest, p, Mailbox(a));
      WorkAppend(rest, p);
      WithoutAppend(rest, p, Mailbox(a));
      if p.at == Mailbox(a) {
        assert Without(packets, Mailbox(a)) == Without(rest, Mailbox(a));
      } else {
        WorkAppend(Without(rest, Mailbox(a)), p);
      }
    }
  }

  /** A user starts something; every other step only carries on what was started. */
  predicate Send(act: Action) {
    act.Begin? || act.Post? || act.Notify?
  }

  /** Steps that move at least one packet on. */
  predicate Moves(s: State, act: Action) {
    match act
    case Poll(a, _) => !Empty(s.packets, Mailbox(a))
    case Evict(a) => !Empty(s.packets, Mailbox(a))
    case _ => act.Dispatch? || act.Fill? || act.Signal? || act.Handle? || act.PostReply?
  }

  lemma DispatchMoves(s: State, i: nat, poolUp: bool)
    requires Possible(s, Dispatch(i, poolUp))
    ensures Work(Step(s, Dispatch(i, poolUp)).packets) < Work(s.packets)
  {
    var p := s.packets[i];
    WorkReplaced(s.packets, i, p.(at := Filling(p.at.a)));
    WorkReplaced(s.packets, i, p.(at := Pool(p.at.a)));
    WorkRemoved(s.packets, i);
  }

  lemma HandleMoves(s: State, i: nat, verdict: Verdict, stamp: Stamp)
    requires Possible(s, Handle(i, verdict, stamp))
    ensures Work(Step(s, Handle(i, verdict, stamp)).packets) < Work(s.packets)
  {
    var p := s.packets[i];
    var reply := ReplyOf(p.at.a, p.m, verdict, stamp);
    if reply.Some? {
      WorkReplaced(s.packets, i, Packet(Outbox(p.at.a), reply.value));
    } else {
      WorkRemoved(s.packets, i);
    }
  }

  lemma PostReplyMoves(s: State, i: nat, queued: bool)
    requires Possible(s, PostReply(i, queued))
    ensures Work(Step(s, PostReply(i, queued)).packets) < Work(s.packets)
  {
    var rest, to := Removed(s.packets, i), PostedTo(s.packets[i].m);
    WorkRemoved(s.packets, i);
    if queued && to.Some? {
      var p := Packet(to.value, s.packets[i].m);
      assert Step(s, PostReply(i, queued)).packets == rest + [p];
      WorkAppend(rest, p);
      assert Weight(p) < Weight(s.packets[i]);
    } else {
      assert Step(s, PostReply(i, queued)).packets == rest;
    }
  }

  /** No step but a user's send makes more work, and every step that moves a packet makes less. */
  lemma StepLowersWork(s: State, act: Action)
    requires Possible(s, act) && !Send(act)
    ensures Work(Step(s, act).packets) <= Work(s.packets)
    ensures Moves(s, act) ==> Work(Step(s, act).packets) < Work(s.packets)
  {
    match act
    case Poll(a, lost) => if lost { WorkWithout(s.packets, a); } else { WorkMoved(s.packets, a); }
    case Evict(a) => WorkWithout(s.packets, a);
    case Dispatch(i, poolUp) => DispatchMoves(s, i, poolUp);
    case Fill(i) => WorkReplaced(s.packets, i, s.packets[i].(at := Signalling(s.packets[i].at.a)));
    case Signal(i) => WorkRemoved(s.packets, i);
    case Handle(i, verdict, stamp) => HandleMoves(s, i, verdict, stamp);
    case PostReply(i, queued) => PostReplyMoves(s, i, queued);
    case _ =>
  }

  /** A run in which no user sends anything, and `moves` of whose steps moved a packet. */
  ghost predicate Quiet(s: State, moves: nat, actions: seq<Action>, s': State)
    decreases |actions|
  {
    if actions == [] then s == s' && moves == 0
    else
      var act := actions[0];
      && Possible(s, act) && !Send(act)
      && if Moves(s, act) then moves > 0 && Quiet(Step(s, act), moves - 1, actions[1..], s')
         else Quiet(Step(s, act), moves, actions[1..], s')
  }

  /** Once users stop sending, the number of moves that can still happen is bounded in advance. */
  lemma {:induction false} QuietRunsAreShort(s: State, moves: nat, actions: seq<Action>, s': State)
    requires Quiet(s, moves, actions, s')
    ensures moves + Work(s'.packets) <= Work(s.packets)
    decreases |actions|
  {
    if actions != [] {
      var act := actions[0];
      StepLowersWork(s, act);
      QuietRunsAreShort(Step(s, act), if Moves(s, act) then moves - 1 else moves, actions[1..], s');
    }
  }

  lemma {:induction false} FirstAt(packets: seq<Packet>, place: Place) returns (i: nat)
    requires !Empty(packets, place)
    ensures i < |packets| && packets[i].at == place && Empty(packets[..i], place)
    decreases |packets|
  {
    var n := |packets| - 1;
    if Empty(packets[..n], place) {
      i := n;
    } else {
      i := FirstAt(packets[..n], place);
      assert packets[..n][..i] == packets[..i];
    }
  }

  /** With packets around and a message id to spare, some step moves one of them. */
  lemma AlwaysAMove(s: State, stamp: Stamp) returns (act: Action)
    requires s.packets != [] && stamp.id !in s.used
    ensures Possible(s, act) && Moves(s, act) && !Send(act)
  {
    var a := s.packets[0].at.a;
    if s.packets[0].at.Pool? {
      act := Handle(0, Silent, stamp);
    } else if s.packets[0].at.Outbox? {
      act := PostReply(0, true);
    } else if !Empty(s.packets, Filling(a)) {
      var i := FirstAt(s.packets, Filling(a));
      act := Fill(i);
    } else if !Empty(s.packets, Signalling(a)) {
      var i := FirstAt(s.packets, Signalling(a));
      act := Signal(i);
    } else if !Empty(s.packets, Received(a)) {
      var i := FirstAt(s.packets, Received(a));
      act := Dispatch(i, true);
    } else {
      assert s.packets[0].at == Mailbox(a);
      act := Poll(a, false);
    }
  }

  // ---- how many replies there are ------------------------------------------------

  /** How many handler runs produced a reply. */
  function Replies(handled: seq<Handling>): nat {
    if handled == [] then 0
    else Replies(handled[..|handled| - 1]) + if handled[|handled| - 1].reply.Some? then 1 else 0
  }

  lemma {:induction false} DistinctRepliesFit(handled: seq<Handling>, ids: set<Id>)
    requires forall i :: 0 <= i < |handled| && handled[i].reply.Some? ==>
               handled[i].m.kind.Request? && handled[i].m.id in ids
    requires forall i, j :: 0 <= i < j < |handled| && handled[i].m.kind.Request? && handled[j].m.kind.Request? ==>
               handled[i].m.id != handled[j].m.id
    ensures Replies(handled) <= |ids|
    decreases |handled|
  {
    if handled != [] {
      var n := |handled| - 1;
      if handled[n].reply.Some? {
        DistinctRepliesFit(handled[..n], ids - {handled[n].m.id});
      } else {
        DistinctRepliesFit(handled[..n], ids);
      }
    }
  }

  /** The requests that the broker put into a mailbox. */
  function QueuedRequests(s: State): set<Id> {
    set id <- s.calls | WasQueued(s.calls[id])
  }

  /** There are never more replies than requests that reached a mailbox: no reply is answered. */
  lemma RepliesAtMostRequests(s: State)
    requires Reachable(s)
    ensures Replies(s.handled) <= |QueuedRequests(s)|
  {
    ReachableInv(s);
    forall i | 0 <= i < |s.handled| && s.handled[i].reply.Some?
      ensures s.handled[i].m.kind.Request? && s.handled[i].m.id in QueuedRequests(s)
    {
      assert HandlingOk(s, s.handled[i]);
    }
    forall i, j | 0 <= i < j < |s.handled| && s.handled[i].m.kind.Request? && s.handled[j].m.kind.Request?
      ensures s.handled[i].m.id != s.handled[j].m.id
    {
      if s.handled[i].m.id == s.handled[j].m.id { HandledAtMostOnce(s, i, j); }
    }
    DistinctRepliesFit(s.handled, QueuedRequests(s));
  }
}
