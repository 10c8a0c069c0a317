/** What pull-mode request and reply guarantees in every interleaving, and why traffic dies down. */
module PullProtocolSafety {
  import opened Wrappers
  import opened Json
  import opened Messages
  import opened PullProtocol

  ghost predicate Leads(s: State, actions: seq<Action>, s': State)
    decreases |actions|
  {
    if actions == [] then s == s'
    else
      var n := |actions| - 1;
      exists mid :: Leads(s, actions[..n], mid) && Possible(mid, actions[n]) && s' == Step(mid, actions[n])
  }

  ghost predicate Reachable(s: State) {
    exists actions :: Leads(START, actions, s)
  }

  // ---- counting copies -------------------------------------------------------------

  /** What a message is counted under: requests and replies by their ids, notifications by theirs. */
  datatype Key = Exchange(id: Id) | Notice(id: Id)

  function KeyOf(m: Message): Key {
    if m.kind.Notification? then Notice(m.id) else Exchange(m.id)
  }

  function One(p: Packet, key: Key): nat {
    if KeyOf(p.m) == key then 1 else 0
  }

  /** How many copies of a message are on their way. */
  function Live(packets: seq<Packet>, key: Key): nat {
    if packets == [] then 0
    else Live(packets[..|packets| - 1], key) + One(packets[|packets| - 1], key)
  }

  /** Requests and notifications are what handlers are run on. */
  function Runs(h: Handling, key: Key): nat {
    if (h.m.kind.Request? || h.m.kind.Notification?) && KeyOf(h.m) == key then 1 else 0
  }

  /** How many handler runs a request or notification has had. */
  function Handled(handled: seq<Handling>, key: Key): nat {
    if handled == [] then 0
    else
      var h := handled[|handled| - 1];
      Handled(handled[..|handled| - 1], key) + Runs(h, key)
  }

  lemma LiveAppend(packets: seq<Packet>, p: Packet, key: Key)
    ensures Live(packets + [p], key) == Live(packets, key) + One(p, key)
  {
    assert (packets + [p])[..|packets|] == packets;
  }

  lemma {:induction false} LiveSplit(left: seq<Packet>, right: seq<Packet>, key: Key)
    ensures Live(left + right, key) == Live(left, key) + Live(right, key)
    decreases |right|
  {
    if right == [] {
      assert left + right == left;
    } else {
      var n := |right| - 1;
      LiveSplit(left, right[..n], key);
      assert (left + right)[..|left + right| - 1] == left + right[..n];
    }
  }

  lemma LiveOne(p: Packet, key: Key)
    ensures Live([p], key) == One(p, key)
  {
    assert [p][..0] == [];
  }

  lemma LiveRemoved(packets: seq<Packet>, i: nat, key: Key)
    requires i < |packets|
    ensures Live(Removed(packets, i), key) == Live(packets, key) - One(packets[i], key)
  {
    LiveOne(packets[i], key);
    LiveSplit(packets[..i], [packets[i]], key);
    LiveSplit(packets[..i] + [packets[i]], packets[i + 1..], key);
    assert packets[..i] + [packets[i]] + packets[i + 1..] == packets;
    LiveSplit(packets[..i], packets[i + 1..], key);
  }

  lemma LiveReplaced(packets: seq<Packet>, i: nat, p: Packet, key: Key)
    requires i < |packets|
    ensures Live(packets[i := p], key) == Live(packets, key) - One(packets[i], key) + One(p, key)
  {
    LiveRemoved(packets, i, key);
    LiveOne(p, key);
    LiveSplit(packets[..i], [p], key);
    LiveSplit(packets[..i] + [p], packets[i + 1..], key);
    assert packets[..i] + [p] + packets[i + 1..] == packets[i := p];
    LiveSplit(packets[..i], packets[i + 1..], key);
  }

  lemma {:induction false} LiveMoved(packets: seq<Packet>, from: Place, to: Place, key: Key)
    ensures Live(Moved(packets, from, to), key) == Live(packets, key)
    decreases |packets|
  {
    if packets != [] {
      var n := |packets| - 1;
      LiveMoved(packets[..n], from, to, key);
      assert Moved(packets, from, to)[..n] == Moved(packets[..n], from, to);
    }
  }

  lemma {:induction false} LiveWithout(packets: seq<Packet>, place: Place, key: Key)
    ensures Live(Without(packets, place), key) <= Live(packets, key)
    ensures forall p <- Without(packets, place) :: p in packets
    decreases |packets|
  {
    if packets != [] {
      var n := |packets| - 1;
      LiveWithout(packets[..n], place, key);
      assert Without(packets[..n], place) + [] == Without(packets[..n], place);
      if packets[n].at != place { LiveAppend(Without(packets[..n], place), packets[n], key); }
    }
  }

  lemma {:induction false} LiveNotices(packets: seq<Packet>, p: Packet, copies: nat, key: Key)
    ensures Live(packets + seq(copies, _ => p), key) == Live(packets, key) + if KeyOf(p.m) == key then copies else 0
    decreases copies
  {
    var all := packets + seq(copies, _ => p);
    if copies == 0 {
      assert all == packets;
    } else {
      LiveNotices(packets, p, copies - 1, key);
      assert all[..|all| - 1] == packets + seq(copies - 1, _ => p);
    }
  }

  lemma {:induction false} LiveWhenPresent(packets: seq<Packet>, i: nat)
    requires i < |packets|
    ensures Live(packets, KeyOf(packets[i].m)) >= 1
    decreases |packets|
  {
    if i < |packets| - 1 { LiveWhenPresent(packets[..|packets| - 1], i); }
  }

  lemma HandledAppend(handled: seq<Handling>, h: Handling, key: Key)
    ensures Handled(handled + [h], key) == Handled(handled, key) + Runs(h, key)
  {
    assert (handled + [h])[..|handled|] == handled;
  }

  // ---- the invariant ---------------------------------------------------------------

  /** `r` is the reply that some handler run produced. */
  ghost predicate Genuine(s: State, r: Message) {
    exists i :: 0 <= i < |s.handled| && s.handled[i].reply == Some(r)
  }

  ghost predicate HandlingOk(s: State, h: Handling) {
    && h.m.metadata.recipient == Str(h.agent)
    && (h.m.kind.Request? ==> h.m.id in s.calls && s.calls[h.m.id].request == h.m && WasQueued(s.calls[h.m.id]))
    && (h.reply.Some? ==>
          && h.m.kind.Request?
          && !h.reply.value.kind.Request? && !h.reply.value.kind.Notification?
          && h.reply.value.correlation == Some(h.m.id)
          && h.reply.value.metadata.recipient == h.m.metadata.sender)
  }

  ghost predicate CallOk(s: State, id: Id) {
    id in s.calls ==>
      var c := s.calls[id];
      && id in s.used
      && c.request.kind.Request? && c.request.id == id && c.request.correlation == None
      && c.request.metadata.sender == Str(c.owner)
      && (c.outcome.Sending? ==> Total(s, Exchange(id)) == 0)
      && (c.outcome.Sending? <==> c.receipt.None?)
      && c.request.metadata.recipient.Str?
      && (c.outcome.SendFailed? <==> c.receipt.Some? && Raises(c.receipt.value))
      && (c.event ==> c.slot != [])
      && (forall r <- c.slot :: Genuine(s, r) && r.correlation == Some(id))
      && !c.outcome.EmptySlot?
      && (c.outcome.Returned? ==> c.slot != [] && c.outcome.reply == c.slot[0])
  }

  ghost predicate PacketOk(s: State, p: Packet) {
    && (!p.at.Outbox? ==> p.m.metadata.recipient == Str(p.at.a))
    && match p.m.kind
       case Request =>
         && p.m.id in s.calls && s.calls[p.m.id].request == p.m && WasQueued(s.calls[p.m.id])
         && !p.at.Filling? && !p.at.Signalling? && !p.at.Outbox?
       case Notification => p.m.correlation == None && !p.at.Filling? && !p.at.Signalling? && !p.at.Outbox?
       case _ =>
         && Genuine(s, p.m)
         && (p.at.Filling? || p.at.Signalling? ==> CorrelatedCall(s, p.m).Some?)
         && (p.at.Signalling? ==> s.calls[p.m.correlation.value].slot != [])
  }

  /** How many copies and handler runs of a message there may be in all: one, or as often as it was queued. */
  function Allowance(s: State, key: Key): nat {
    match key
    case Exchange(id) => if id in s.used then 1 else 0
    case Notice(id) => if id in s.notices then s.notices[id] else 0
  }

  function Total(s: State, key: Key): nat {
    Live(s.packets, key) + Handled(s.handled, key)
  }

  ghost predicate Single(s: State, key: Key) {
    Total(s, key) <= Allowance(s, key)
  }

  ghost predicate Inv(s: State) {
    && (forall h <- s.handled :: HandlingOk(s, h))
    && (forall id :: CallOk(s, id))
    && (forall p <- s.packets :: PacketOk(s, p))
    && (forall key :: Single(s, key))
    && (forall id <- s.notices :: id in s.used)
  }

  /** What every step keeps: handler runs and used ids stay, calls keep their request and their slots grow. */
  ghost predicate Grows(s: State, s': State) {
    && s.handled <= s'.handled
    && s.used <= s'.used
    && forall id <- s.calls ::
         && id in s'.calls && s'.calls[id].request == s.calls[id].request && s'.calls[id].owner == s.calls[id].owner
         && (s.calls[id].receipt.Some? ==> s'.calls[id].receipt == s.calls[id].receipt)
         && s.calls[id].slot <= s'.calls[id].slot
  }

  lemma GenuineStays(s: State, s': State, r: Message)
    requires Grows(s, s') && Genuine(s, r)
    ensures Genuine(s', r)
  {
    var i :| 0 <= i < |s.handled| && s.handled[i].reply == Some(r);
    assert s'.handled[i] == s.handled[i];
  }

  lemma PacketStays(s: State, s': State, p: Packet)
    requires Grows(s, s') && PacketOk(s, p)
    ensures PacketOk(s', p)
  {
    if Genuine(s, p.m) { GenuineStays(s, s', p.m); }
  }

  lemma CallStays(s: State, s': State, id: Id)
    requires Grows(s, s') && CallOk(s, id) && id in s.calls && s'.calls[id] == s.calls[id]
    requires s.calls[id].outcome.Sending? ==> Total(s', Exchange(id)) == 0
    ensures CallOk(s', id)
  {
    forall r <- s.calls[id].slot ensures Genuine(s', r) {
      GenuineStays(s, s', r);
    }
  }

  /** Steps that only move, drop or repeat packets. */
  lemma PacketStep(s: State, s': State)
    requires Inv(s) && s' == s.(packets := s'.packets)
    requires forall p <- s'.packets :: PacketOk(s, p)
    requires forall key :: Live(s'.packets, key) <= Live(s.packets, key)
    ensures Inv(s')
  {
    assert Grows(s, s');
    forall key ensures Single(s', key) { assert Single(s, key); }
    forall id ensures CallOk(s', id) {
      assert CallOk(s, id);
      if id in s.calls { CallStays(s, s', id); }
    }
    forall p <- s'.packets ensures PacketOk(s', p) { PacketStays(s, s', p); }
    forall h <- s'.handled ensures HandlingOk(s', h) { assert HandlingOk(s, h); }
  }

  /** Steps that change the record of one call. */
  lemma CallStep(s: State, s': State, id: Id)
    requires Inv(s) && Grows(s, s') && id in s.calls && s' == s.(calls := s.calls[id := s'.calls[id]])
    requires CallOk(s', id)
    ensures Inv(s')
  {
    forall key ensures Single(s', key) { assert Single(s, key); }
    forall k ensures CallOk(s', k) {
      assert CallOk(s, k);
      if k in s.calls && k != id { CallStays(s, s', k); }
    }
    forall p <- s'.packets ensures PacketOk(s', p) { PacketStays(s, s', p); }
    forall h <- s'.handled ensures HandlingOk(s', h) { assert HandlingOk(s, h); }
  }

  lemma BeginKeeps(s: State, a: AgentId, b: AgentId, stamp: Stamp, body: Object)
    requires Inv(s) && Possible(s, Begin(a, b, stamp, body))
    ensures Inv(Step(s, Begin(a, b, stamp, body)))
  {
    var s' := Step(s, Begin(a, b, stamp, body));
    assert CallOk(s, stamp.id) && Single(s, Exchange(stamp.id));
    assert Grows(s, s');
    forall key ensures Single(s', key) { assert Single(s, key); }
    forall k ensures CallOk(s', k) {
      assert CallOk(s, k);
      if k in s.calls { CallStays(s, s', k); }
    }
    forall p <- s'.packets ensures PacketOk(s', p) { PacketStays(s, s', p); }
    forall h <- s'.handled ensures HandlingOk(s', h) { assert HandlingOk(s, h); }
  }

  /** A packet enters of which there is no copy yet, and no handling. */
  lemma NewPacket(s: State, s': State, p: Packet)
    requires Inv(s) && s' == s.(packets := s.packets + [p])
    requires PacketOk(s, p) && p.m.id in s.calls && !s.calls[p.m.id].outcome.Sending?
    requires p.m.kind.Request? && Total(s, Exchange(p.m.id)) == 0
    ensures Inv(s')
  {
    assert Grows(s, s');
    assert CallOk(s, p.m.id);
    forall key ensures Single(s', key) {
      assert Single(s, key);
      LiveAppend(s.packets, p, key);
    }
    forall k ensures CallOk(s', k) {
      assert CallOk(s, k);
      LiveAppend(s.packets, p, Exchange(k));
      if k in s.calls { CallStays(s, s', k); }
    }
    forall q <- s'.packets ensures PacketOk(s', q) { PacketStays(s, s', q); }
    forall h <- s'.handled ensures HandlingOk(s', h) { assert HandlingOk(s, h); }
  }

  /** The caller has its receipt; the request itself is not looked at. */
  function Receipted(s: State, id: Id, receipt: Receipt): State
    requires id in s.calls
  {
    var outcome := if Raises(receipt) then SendFailed else Waiting;
    WithCall(s, id, s.calls[id].(outcome := outcome, receipt := Some(receipt)))
  }

  lemma ReceiptKeeps(s: State, id: Id, receipt: Receipt)
    requires Inv(s) && Possible(s, Post(id, receipt))
    ensures Inv(Receipted(s, id, receipt))
  {
    var mid := Receipted(s, id, receipt);
    assert CallOk(s, id);
    assert Grows(s, mid);
    forall r <- s.calls[id].slot ensures Genuine(mid, r) { GenuineStays(s, mid, r); }
    CallStep(s, mid, id);
  }

  lemma PostKeeps(s: State, id: Id, receipt: Receipt)
    requires Inv(s) && Possible(s, Post(id, receipt))
    ensures Inv(Step(s, Post(id, receipt)))
  {
    var mid := Receipted(s, id, receipt);
    ReceiptKeeps(s, id, receipt);
    assert CallOk(s, id);
    if Queues(receipt) {
      NewPacket(mid, Step(s, Post(id, receipt)), Packet(PostedTo(s.calls[id].request).value, s.calls[id].request));
    } else {
      assert Step(s, Post(id, receipt)) == mid;
    }
  }

  lemma NotifyKeeps(s: State, a: AgentId, b: AgentId, stamp: Stamp, body: Object, copies: nat)
    requires Inv(s) && Possible(s, Notify(a, b, stamp, body, copies))
    ensures Inv(Step(s, Notify(a, b, stamp, body, copies)))
  {
    var s' := Step(s, Notify(a, b, stamp, body, copies));
    var notice := Packet(Mailbox(b), NotificationOf(a, b, stamp, body));
    assert s'.packets == s.packets + seq(copies, _ => notice);
    assert Grows(s, s');
    forall key ensures Single(s', key) {
      assert Single(s, key);
      LiveNotices(s.packets, notice, copies, key);
    }
    forall k ensures CallOk(s', k) {
      assert CallOk(s, k);
      LiveNotices(s.packets, notice, copies, Exchange(k));
      if k in s.calls { CallStays(s, s', k); }
    }
    forall p <- s'.packets ensures PacketOk(s', p) {
      if p in s.packets { PacketStays(s, s', p); } else { assert p == notice; }
    }
    forall h <- s'.handled ensures HandlingOk(s', h) { assert HandlingOk(s, h); }
  }

  lemma PollKeeps(s: State, a: AgentId, lost: bool)
    requires Inv(s) && Possible(s, Poll(a, lost))
    ensures Inv(Step(s, Poll(a, lost)))
  {
    var s' := Step(s, Poll(a, lost));
    forall key ensures Live(s'.packets, key) <= Live(s.packets, key) {
      if lost { LiveWithout(s.packets, Mailbox(a), key); } else { LiveMoved(s.packets, Mailbox(a), Received(a), key); }
    }
    forall p <- s'.packets ensures PacketOk(s, p) {
      if lost {
        LiveWithout(s.packets, Mailbox(a), Exchange(""));
      } else {
        var i :| 0 <= i < |s'.packets| && s'.packets[i] == p;
        assert PacketOk(s, s.packets[i]);
      }
    }
    PacketStep(s, s');
  }

  lemma EvictKeeps(s: State, a: AgentId)
    requires Inv(s)
    ensures Inv(Step(s, Evict(a)))
  {
    forall key ensures Live(Without(s.packets, Mailbox(a)), key) <= Live(s.packets, key) {
      LiveWithout(s.packets, Mailbox(a), key);
    }
    LiveWithout(s.packets, Mailbox(a), Exchange(""));
    PacketStep(s, Step(s, Evict(a)));
  }

  lemma DispatchKeeps(s: State, i: nat, poolUp: bool)
    requires Inv(s) && Possible(s, Dispatch(i, poolUp))
    ensures Inv(Step(s, Dispatch(i, poolUp)))
  {
    var s' := Step(s, Dispatch(i, poolUp));
    var p := s.packets[i];
    assert PacketOk(s, p) && CallOk(s, p.m.id);
    forall key ensures Live(s'.packets, key) <= Live(s.packets, key) {
      LiveReplaced(s.packets, i, p.(at := Filling(p.at.a)), key);
      LiveReplaced(s.packets, i, p.(at := Pool(p.at.a)), key);
      LiveRemoved(s.packets, i, key);
    }
    forall q <- s'.packets ensures PacketOk(s, q) {
      if q !in s.packets { assert q == s'.packets[i]; }
    }
    PacketStep(s, s');
  }

  lemma FillKeeps(s: State, i: nat)
    requires Inv(s) && Possible(s, Fill(i))
    ensures Inv(Step(s, Fill(i)))
  {
    var p := s.packets[i];
    assert PacketOk(s, p);
    var id := p.m.correlation.value;
    var c := s.calls[id];
    var mid := WithCall(s, id, c.(slot := c.slot + [p.m]));
    assert Grows(s, mid);
    assert CallOk(mid, id) by {
      assert CallOk(s, id);
      assert Genuine(s, p.m) && ReplyMatches(s, p.m) by { GenuineMatches(s, p.m); }
      forall r <- mid.calls[id].slot ensures Genuine(mid, r) && r.correlation == Some(id) {
        if r in c.slot { GenuineStays(s, mid, r); } else { GenuineStays(s, mid, p.m); }
      }
    }
    CallStep(s, mid, id);
    var q := p.(at := Signalling(p.at.a));
    forall key ensures Live(s.packets[i := q], key) <= Live(s.packets, key) { LiveReplaced(s.packets, i, q, key); }
    GenuineStays(s, mid, p.m);
    forall r <- s.packets[i := q] ensures PacketOk(mid, r) {
      if r in s.packets { assert PacketOk(mid, r); } else { assert r == q; }
    }
    PacketStep(mid, Step(s, Fill(i)));
  }

  /** A genuine reply carries the id of the request it answers. */
  ghost predicate ReplyMatches(s: State, r: Message) {
    exists i :: 0 <= i < |s.handled| && s.handled[i].reply == Some(r) && r.correlation == Some(s.handled[i].m.id)
  }

  lemma GenuineMatches(s: State, r: Message)
    requires Inv(s) && Genuine(s, r)
    ensures ReplyMatches(s, r)
  {
    var i :| 0 <= i < |s.handled| && s.handled[i].reply == Some(r);
    assert HandlingOk(s, s.handled[i]);
  }

  lemma SignalKeeps(s: State, i: nat)
    requires Inv(s) && Possible(s, Signal(i))
    ensures Inv(Step(s, Signal(i)))
  {
    var p := s.packets[i];
    assert PacketOk(s, p);
    var id := p.m.correlation.value;
    var mid := WithCall(s, id, s.calls[id].(event := true));
    assert Grows(s, mid);
    assert CallOk(mid, id) by {
      assert CallOk(s, id);
      forall r <- s.calls[id].slot ensures Genuine(mid, r) { GenuineStays(s, mid, r); }
    }
    CallStep(s, mid, id);
    forall key ensures Live(Removed(s.packets, i), key) <= Live(s.packets, key) { LiveRemoved(s.packets, i, key); }
    PacketStep(mid, Step(s, Signal(i)));
  }

  /** A handler run uses up its message; only its reply is new. */
  lemma HandleTotal(s: State, i: nat, verdict: Verdict, stamp: Stamp, key: Key)
    requires Possible(s, Handle(i, verdict, stamp))
    ensures Total(Step(s, Handle(i, verdict, stamp)), key) <= Total(s, key) + if key == Exchange(stamp.id) then 1 else 0
  {
    var p := s.packets[i];
    var reply := ReplyOf(p.at.a, p.m, verdict, stamp);
    HandledAppend(s.handled, Handling(p.at.a, p.m, reply), key);
    LiveRemoved(s.packets, i, key);
    if reply.Some? { LiveReplaced(s.packets, i, Packet(Outbox(p.at.a), reply.value), key); }
  }

  lemma HandleKeeps(s: State, i: nat, verdict: Verdict, stamp: Stamp)
    requires Inv(s) && Possible(s, Handle(i, verdict, stamp))
    ensures Inv(Step(s, Handle(i, verdict, stamp)))
  {
    var s' := Step(s, Handle(i, verdict, stamp));
    var p := s.packets[i];
    var reply := ReplyOf(p.at.a, p.m, verdict, stamp);
    var h := Handling(p.at.a, p.m, reply);
    assert PacketOk(s, p);
    assert Grows(s, s');
    assert s'.handled[|s.handled|] == h;
    if p.m.kind.Request? { assert CallOk(s, p.m.id); }
    assert CallOk(s, stamp.id);
    forall key ensures Single(s', key) {
      assert Single(s, key);
      HandleTotal(s, i, verdict, stamp, key);
    }
    forall k ensures CallOk(s', k) {
      assert CallOk(s, k);
      HandleTotal(s, i, verdict, stamp, Exchange(k));
      if k in s.calls { CallStays(s, s', k); }
    }
    forall q <- s'.packets ensures PacketOk(s', q) {
      if q in s.packets { PacketStays(s, s', q); } else { assert q == Packet(Outbox(p.at.a), reply.value); }
    }
    forall g <- s'.handled ensures HandlingOk(s', g) {
      if g in s.handled { assert HandlingOk(s, g); } else { assert g == h; }
    }
  }

  lemma PostReplyKeeps(s: State, i: nat, queued: bool)
    requires Inv(s) && Possible(s, PostReply(i, queued))
    ensures Inv(Step(s, PostReply(i, queued)))
  {
    var s' := Step(s, PostReply(i, queued));
    var p := s.packets[i];
    assert PacketOk(s, p);
    var rest := Removed(s.packets, i);
    assert rest + [] == rest;
    forall key ensures Live(s'.packets, key) <= Live(s.packets, key) {
      LiveRemoved(s.packets, i, key);
      if s'.packets != rest { LiveAppend(rest, s'.packets[|rest|], key); }
    }
    forall q <- s'.packets ensures PacketOk(s, q) {
      if q !in s.packets { assert q == Packet(PostedTo(p.m).value, p.m); }
    }
    PacketStep(s, s');
  }

  lemma CallerKeeps(s: State, act: Action)
    requires Inv(s) && Possible(s, act) && (act.Finish? || act.Timeout? || act.Cleanup?)
    ensures Inv(Step(s, act))
  {
    var s' := Step(s, act);
    assert CallOk(s, act.id);
    assert Grows(s, s');
    forall r <- s.calls[act.id].slot ensures Genuine(s', r) { GenuineStays(s, s', r); }
    CallStep(s, s', act.id);
  }

  lemma StepKeepsInv(s: State, act: Action)
    requires Inv(s) && Possible(s, act)
    ensures Inv(Step(s, act))
  {
    match act
    case Begin(a, b, stamp, body) => BeginKeeps(s, a, b, stamp, body);
    case Post(id, receipt) => PostKeeps(s, id, receipt);
    case Notify(a, b, stamp, body, copies) => NotifyKeeps(s, a, b, stamp, body, copies);
    case Poll(a, lost) => PollKeeps(s, a, lost);
    case Evict(a) => EvictKeeps(s, a);
    case Dispatch(i, poolUp) => DispatchKeeps(s, i, poolUp);
    case Fill(i) => FillKeeps(s, i);
    case Signal(i) => SignalKeeps(s, i);
    case Handle(i, verdict, stamp) => HandleKeeps(s, i, verdict, stamp);
    case PostReply(i, queued) => PostReplyKeeps(s, i, queued);
    case Finish(_) => CallerKeeps(s, act);
    case Timeout(_) => CallerKeeps(s, act);
    case Cleanup(_) => CallerKeeps(s, act);
  }

  lemma {:induction false} RunKeepsInv(s: State, actions: seq<Action>, s': State)
    requires Inv(s) && Leads(s, actions, s')
    ensures Inv(s')
    decreases |actions|
  {
    if actions != [] {
      var n := |actions| - 1;
      var mid :| Leads(s, actions[..n], mid) && Possible(mid, actions[n]) && s' == Step(mid, actions[n]);
      RunKeepsInv(s, actions[..n], mid);
      StepKeepsInv(mid, actions[n]);
    }
  }

  lemma ReachableInv(s: State)
    requires Reachable(s)
    ensures Inv(s)
  {
    var actions :| Leads(START, actions, s);
    RunKeepsInv(START, actions, s);
  }

  // ---- main results ------------------------------------------------------------------

  lemma {:induction false} HandledTwice(handled: seq<Handling>, i: nat, j: nat)
    requires i < j < |handled| && handled[i].m.kind.Request? && handled[j].m.kind.Request?
    requires handled[i].m.id == handled[j].m.id
    ensures Handled(handled, KeyOf(handled[i].m)) >= 2
    decreases |handled|
  {
    var n := |handled| - 1;
    if j < n { HandledTwice(handled[..n], i, j); } else { HandledOnce(handled[..n], i); }
  }

  lemma {:induction false} HandledOnce(handled: seq<Handling>, i: nat)
    requires i < |handled| && (handled[i].m.kind.Request? || handled[i].m.kind.Notification?)
    ensures Handled(handled, KeyOf(handled[i].m)) >= 1
    decreases |handled|
  {
    if i < |handled| - 1 { HandledOnce(handled[..|handled| - 1], i); }
  }

  /** No request is handled twice, and none while a copy of it is still on its way. */
  lemma HandledAtMostOnce(s: State, i: nat, j: nat)
    requires Reachable(s) && i < |s.handled| && s.handled[i].m.kind.Request?
    requires j < |s.handled| && s.handled[j].m.kind.Request? && s.handled[i].m.id == s.handled[j].m.id
    ensures i == j
    ensures forall p <- s.packets :: p.m.kind.Request? ==> p.m.id != s.handled[i].m.id
  {
    ReachableInv(s);
    var id := s.handled[i].m.id;
    assert Single(s, Exchange(id));
    HandledOnce(s.handled, i);
    if i < j { HandledTwice(s.handled, i, j); } else if j < i { HandledTwice(s.handled, j, i); }
    forall p <- s.packets | p.m.kind.Request? ensures p.m.id != id {
      var k :| 0 <= k < |s.packets| && s.packets[k] == p;
      LiveWhenPresent(s.packets, k);
    }
  }

  /**
   * A reply that `send_request` returns carries the request's id and is what the one handler run
   * on that request, by the agent it was addressed to, produced; and the call never reads an
   * empty slot, because the event is set only after the slot is filled.
   */
  lemma ReplyIsTheHandlersReply(s: State, id: Id)
    requires Reachable(s) && id in s.calls
    ensures !s.calls[id].outcome.EmptySlot? && (s.calls[id].event ==> s.calls[id].slot != [])
    ensures s.calls[id].outcome.Returned? ==>
              var r := s.calls[id].outcome.reply;
              && r.correlation == Some(id)
              && exists i :: 0 <= i < |s.handled|
                   && s.handled[i].reply == Some(r) && s.handled[i].m == s.calls[id].request
                   && s.calls[id].request.metadata.recipient == Str(s.handled[i].agent)
                   && forall j :: 0 <= j < |s.handled| && j != i && s.handled[j].m.kind.Request? ==>
                        s.handled[j].m.id != id
  {
    ReachableInv(s);
    assert CallOk(s, id);
    if s.calls[id].outcome.Returned? {
      var r := s.calls[id].outcome.reply;
      GenuineMatches(s, r);
      var i :| 0 <= i < |s.handled| && s.handled[i].reply == Some(r) && r.correlation == Some(s.handled[i].m.id);
      assert HandlingOk(s, s.handled[i]);
      forall j | 0 <= j < |s.handled| && j != i && s.handled[j].m.kind.Request? ensures s.handled[j].m.id != id {
        if s.handled[j].m.id == id { HandledAtMostOnce(s, i, j); }
      }
    }
  }

  /** A slot is filled only for a request that the broker put into a mailbox. */
  lemma FilledMeansQueued(s: State, id: Id)
    requires Reachable(s) && id in s.calls && s.calls[id].slot != []
    ensures WasQueued(s.calls[id])
  {
    ReachableInv(s);
    assert CallOk(s, id);
    var r := s.calls[id].slot[0];
    GenuineMatches(s, r);
    var i :| 0 <= i < |s.handled| && s.handled[i].reply == Some(r) && r.correlation == Some(s.handled[i].m.id);
    assert HandlingOk(s, s.handled[i]);
  }

  /** Only a request whose post was answered with 202 ever returns a reply. */
  lemma ReturnedMeansQueued(s: State, id: Id)
    requires Reachable(s) && id in s.calls && s.calls[id].outcome.Returned?
    ensures s.calls[id].receipt == Some(Queued)
  {
    ReachableInv(s);
    assert CallOk(s, id);
    FilledMeansQueued(s, id);
  }

  /**
   * When the broker dialled the recipient, the reply, if any, came back in the answer to the post and is
   * discarded: the caller waits for another one, which never comes, until it times out.
   */
  lemma AnsweredTimesOut(s: State, id: Id)
    requires Reachable(s) && id in s.calls && s.calls[id].receipt.Some? && s.calls[id].receipt.value.Answered?
    ensures (s.calls[id].outcome.Waiting? && !s.calls[id].event) || s.calls[id].outcome.TimedOut?
  {
    ReachableInv(s);
    assert CallOk(s, id);
    if s.calls[id].slot != [] { FilledMeansQueued(s, id); }
  }
}
