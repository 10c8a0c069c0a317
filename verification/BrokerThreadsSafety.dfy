/** Safety of the interleaved broker: the invariant holds in every reachable state. */
module BrokerThreadsSafety {
  import opened Wrappers
  import opened BrokerState
  import opened LockPrograms
  import opened LockChecks
  import opened BrokerThreads

  // ---- what a step of one thread means for the others -------------------------

  /** `s'` differs from `s` only in what thread `t` may change while others run. */
  ghost predicate OnlyBy(s: State, t: nat, s': State) {
    && t in s.threads
    && s'.threads.Keys == s.threads.Keys
    && (forall u <- s.threads :: u != t ==> s'.threads[u] == s.threads[u])
    && (forall u <- s.threads :: u != t ==> HeldBy(s', u) == HeldBy(s, u))
    && (forall l <- s'.holder :: s'.holder[l] in s.threads)
    && (forall u <- s.threads :: u != t ==> (InLog(s', u) <==> InLog(s, u)))
    && (s'.maps.mailboxes == s.maps.mailboxes || MailboxCond in HeldBy(s, t))
  }

  /** The mailbox lock is what protects a half-done append or drain. */
  lemma OthersUnaffected(s: State, t: nat, s': State)
    requires ThreadsOk(s) && OnlyBy(s, t, s')
    requires ThreadOk(s', t)
    ensures ThreadsOk(s')
  {
    forall u <- s'.threads ensures ThreadOk(s', u) {
      if u != t {
        assert ThreadOk(s, u);
        if MailboxCond in HeldBy(s, t) {
          assert MailboxCond !in HeldBy(s, u);
        }
      }
    }
  }

  lemma InLogAppend(s: State, s': State, e: Entry)
    requires s'.log == s.log + [e]
    ensures forall u :: InLog(s', u) <==> InLog(s, u) || u == e.sender
  {
    forall u ensures InLog(s', u) <==> InLog(s, u) || u == e.sender {
      if InLog(s, u) {
        var i :| 0 <= i < |s.log| && s.log[i].sender == u;
        assert s'.log[i].sender == u;
      }
      assert s'.log[|s.log|] == e;
    }
  }

  lemma OnlySendersAreLogged(s: State, t: nat)
    requires HistoryOk(s) && t in s.threads && !s.threads[t].job.SendJob?
    ensures !InLog(s, t)
  {
  }

  /** A thread about to run a handler's own code needs only the two static checks. */
  lemma ReadyThread(s: State, t: nat)
    requires t in s.threads && s.threads[t].status == None
    requires WellLocked(HeldBy(s, t), s.threads[t].prog)
    requires Accountable(s.threads[t].job, InLog(s, t), s.threads[t].prog)
    ensures ThreadOk(s, t)
  {
    var th := s.threads[t];
    if th.prog.Do? {
      assert Fits(th.job, InLog(s, t), th.prog.instr);
    }
  }

  // ---- one lemma per kind of step ---------------------------------------------

  lemma LockStepKeepsThreads(cfg: Config, s: State, t: nat, c: Choice)
    requires Inv(s) && Enabled(s, t, c)
    requires s.threads[t].prog.Do? && (s.threads[t].prog.instr.Acquire? || s.threads[t].prog.instr.Release?)
    ensures ThreadsOk(Next(cfg, s, t, c))
  {
    var s' := Next(cfg, s, t, c);
    assert ThreadOk(s, t);
    forall u <- s.threads | u != t ensures HeldBy(s', u) == HeldBy(s, u) {}
    assert HeldBy(s', t) == HeldAfter(HeldBy(s, t), s.threads[t].prog.instr);
    assert InLog(s', t) <==> InLog(s, t);
    if s.threads[t].status.None? { ReadyThread(s', t); }
    OthersUnaffected(s, t, s');
  }

  lemma AccessKeepsThreads(cfg: Config, s: State, t: nat, c: Choice)
    requires Inv(s) && Enabled(s, t, c)
    requires s.threads[t].prog.Do? && s.threads[t].prog.instr.Access?
    ensures ThreadsOk(Next(cfg, s, t, c))
  {
    var s' := Next(cfg, s, t, c);
    assert ThreadOk(s, t);
    assert forall u :: HeldBy(s', u) == HeldBy(s, u);
    assert InLog(s', t) <==> InLog(s, t);
    ReadyThread(s', t);
    OthersUnaffected(s, t, s');
  }

  lemma MailStepKeepsThreads(cfg: Config, s: State, t: nat, c: Choice)
    requires Inv(s) && Enabled(s, t, c)
    requires s.threads[t].prog.Do?
    requires var i := s.threads[t].prog.instr; i.Enqueue? || i.Append? || i.Clear?
    ensures ThreadsOk(Next(cfg, s, t, c))
  {
    var s' := Next(cfg, s, t, c);
    assert ThreadOk(s, t);
    assert forall u :: HeldBy(s', u) == HeldBy(s, u);
    if s.threads[t].prog.instr.Append? {
      InLogAppend(s, s', s'.log[|s.log|]);
      ReadyThread(s', t);
    } else {
      assert InLog(s', t) <==> InLog(s, t);
      if s.threads[t].prog.instr.Clear? { ReadyThread(s', t); }
    }
    OthersUnaffected(s, t, s');
  }

  /** The mailbox has been evicted: the poll answers, then gives up the lock. */
  lemma GoneBoxKeepsThreads(cfg: Config, s: State, t: nat, c: Choice)
    requires Inv(s) && Enabled(s, t, c)
    requires s.threads[t].prog.Do? && s.threads[t].prog.instr.PollBox?
    requires s.threads[t].prog.instr.a !in s.maps.mailboxes
    ensures ThreadsOk(Next(cfg, s, t, c))
  {
    var s' := Next(cfg, s, t, c);
    var p := s.threads[t].prog;
    var job := s.threads[t].job;
    assert ThreadOk(s, t);
    assert forall u :: InLog(s', u) <==> InLog(s, u);
    OnlySendersAreLogged(s, t);
    assert HeldBy(s, t) == {MailboxCond};
    assert forall u :: HeldBy(s', u) == HeldBy(s, u);
    var leave := Do(Release(MailboxCond), Done);
    assert {MailboxCond} - {MailboxCond} == {};
    assert WellLocked({}, Done) && WellLocked({MailboxCond}, leave);
    assert Accountable(job, false, Do(Respond(200), leave));
    ReadyThread(s', t);
    OthersUnaffected(s, t, s');
  }

  /** The queue is empty and time is left: the poll gives up the lock and sleeps. */
  lemma SleepKeepsThreads(cfg: Config, s: State, t: nat, c: Choice)
    requires Inv(s) && Enabled(s, t, c)
    requires s.threads[t].prog.Do? && s.threads[t].prog.instr.PollBox?
    requires s.threads[t].prog.instr.a in s.maps.mailboxes && s.maps.mailboxes[s.threads[t].prog.instr.a] == [] && c.yes
    ensures ThreadsOk(Next(cfg, s, t, c))
  {
    var s' := Next(cfg, s, t, c);
    var p := s.threads[t].prog;
    var job := s.threads[t].job;
    assert ThreadOk(s, t);
    assert forall u :: InLog(s', u) <==> InLog(s, u);
    OnlySendersAreLogged(s, t);
    assert HeldBy(s, t) == {MailboxCond};
    forall u <- s.threads | u != t ensures HeldBy(s', u) == HeldBy(s, u) {}
    assert HeldBy(s', t) == {};
    assert {} + {MailboxCond} == {MailboxCond};
    var back := Do(Acquire(MailboxCond), p);
    assert WellLocked({}, back) && Accountable(job, false, back);
    OthersUnaffected(s, t, s');
  }

  /** The poll copies the queue. */
  lemma CopyKeepsThreads(cfg: Config, s: State, t: nat, c: Choice)
    requires Inv(s) && Enabled(s, t, c)
    requires s.threads[t].prog.Do? && s.threads[t].prog.instr.PollBox?
    requires s.threads[t].prog.instr.a in s.maps.mailboxes
    requires !(s.maps.mailboxes[s.threads[t].prog.instr.a] == [] && c.yes)
    ensures ThreadsOk(Next(cfg, s, t, c))
  {
    var s' := Next(cfg, s, t, c);
    var p := s.threads[t].prog;
    var job := s.threads[t].job;
    assert ThreadOk(s, t);
    assert forall u :: InLog(s', u) <==> InLog(s, u);
    OnlySendersAreLogged(s, t);
    assert HeldBy(s, t) == {MailboxCond};
    assert forall u :: HeldBy(s', u) == HeldBy(s, u);
    OthersUnaffected(s, t, s');
  }

  lemma PollBoxKeepsThreads(cfg: Config, s: State, t: nat, c: Choice)
    requires Inv(s) && Enabled(s, t, c)
    requires s.threads[t].prog.Do? && s.threads[t].prog.instr.PollBox?
    ensures ThreadsOk(Next(cfg, s, t, c))
  {
    var a := s.threads[t].prog.instr.a;
    if a !in s.maps.mailboxes {
      GoneBoxKeepsThreads(cfg, s, t, c);
    } else if s.maps.mailboxes[a] == [] && c.yes {
      SleepKeepsThreads(cfg, s, t, c);
    } else {
      CopyKeepsThreads(cfg, s, t, c);
    }
  }

  lemma WakeKeepsThreads(cfg: Config, s: State, t: nat, c: Choice)
    requires Inv(s) && Enabled(s, t, c)
    requires s.threads[t].prog.Do? && s.threads[t].prog.instr.Asleep?
    ensures ThreadsOk(Next(cfg, s, t, c))
  {
    var s' := Next(cfg, s, t, c);
    assert ThreadOk(s, t);
    assert forall u :: HeldBy(s', u) == HeldBy(s, u);
    assert forall u :: InLog(s', u) <==> InLog(s, u);
    ReadyThread(s', t);
    OthersUnaffected(s, t, s');
  }

  lemma AgentLoopKeepsThreads(cfg: Config, s: State, t: nat, c: Choice)
    requires Inv(s) && Enabled(s, t, c) && s.threads[t].prog.Do? && s.threads[t].prog.instr.ForEachAgent?
    ensures ThreadsOk(Next(cfg, s, t, c))
  {
    var s' := Next(cfg, s, t, c);
    var p := s.threads[t].prog;
    assert ThreadOk(s, t);
    assert forall u :: HeldBy(s', u) == HeldBy(s, u);
    assert forall u :: InLog(s', u) <==> InLog(s, u);
    assert HeldBy(s, t) == {CapabilitiesLock};
    LookupChecked(c.pick, p, s.threads[t].job, InLog(s, t));
    ReadyThread(s', t);
    OthersUnaffected(s, t, s');
  }

  /** The one nested section: a registry lookup under the capabilities lock. */
  lemma LookupChecked(a: AgentId, k: Prog, job: Job, queued: bool)
    requires WellLocked({CapabilitiesLock}, k) && Accountable(job, queued, k)
    ensures WellLocked({CapabilitiesLock}, Section(RegistryLookup(a), k))
    ensures Accountable(job, queued, Section(RegistryLookup(a), k))
  {
    var both := {CapabilitiesLock, RegistryLock};
    assert {CapabilitiesLock} + {RegistryLock} == both && both - {RegistryLock} == {CapabilitiesLock};
    var look := Do(Release(RegistryLock), k);
    assert WellLocked(both, look) && Accountable(job, queued, look);
    assert WellLocked(both, Do(Access(RegistryLookup(a)), look));
    assert Accountable(job, queued, Do(Access(RegistryLookup(a)), look));
  }

  lemma SweepLoopKeepsThreads(cfg: Config, s: State, t: nat, c: Choice)
    requires Inv(s) && Enabled(s, t, c) && s.threads[t].prog.Do? && s.threads[t].prog.instr.ForEachEndpoint?
    ensures ThreadsOk(Next(cfg, s, t, c))
  {
    var s' := Next(cfg, s, t, c);
    var p := s.threads[t].prog;
    assert ThreadOk(s, t);
    assert forall u :: HeldBy(s', u) == HeldBy(s, u);
    assert forall u :: InLog(s', u) <==> InLog(s, u);
    if c.pick in s.threads[t].vars.endpoints {
      assert HeldBy(s, t) == {};
      SweepOneChecked(s.threads[t].vars.endpoints[c.pick], p, s.threads[t].job, InLog(s, t));
    }
    ReadyThread(s', t);
    OthersUnaffected(s, t, s');
  }

  lemma PlainStepKeepsThreads(cfg: Config, s: State, t: nat, c: Choice)
    requires Inv(s) && Enabled(s, t, c)
    requires var p := s.threads[t].prog; p.If? || (p.Do? && (p.instr.PeekMailbox? || p.instr.Respond?))
    ensures ThreadsOk(Next(cfg, s, t, c))
  {
    var s' := Next(cfg, s, t, c);
    assert ThreadOk(s, t);
    assert forall u :: HeldBy(s', u) == HeldBy(s, u);
    assert forall u :: InLog(s', u) <==> InLog(s, u);
    if !(s.threads[t].prog.Do? && s.threads[t].prog.instr.Respond?) { ReadyThread(s', t); }
    OthersUnaffected(s, t, s');
  }

  // ---- histories ----------------------------------------------------------------

  lemma QueuedForAppend(log: seq<Entry>, e: Entry, a: AgentId)
    ensures QueuedFor(log + [e], a) == QueuedFor(log, a) + if e.recipient == a then [e.sender] else []
  {
    assert (log + [e])[..|log|] == log;
  }

  lemma TakenFromAppend(removals: seq<Removal>, r: Removal, a: AgentId)
    ensures TakenFrom(removals + [r], a) == TakenFrom(removals, a) + if r.a == a then r.messages else []
  {
    assert (removals + [r])[..|removals|] == removals;
  }

  /** A step's effect on the histories and the queues, by what the thread executes. */
  ghost predicate HistoryStep(s: State, t: nat, s': State)
    requires t in s.threads
  {
    var p := s.threads[t].prog;
    if p.Do? && p.instr.Append? then
      && s'.log == s.log + [Entry(p.instr.a, t)] && s'.removals == s.removals
      && forall a :: Queue(s'.maps, a) == Queue(s.maps, a) + if a == p.instr.a then [t] else []
    else if p.Do? && p.instr.Clear? then
      && s'.log == s.log && s'.removals == s.removals + [Delivered(p.instr.a, t, p.instr.copied)]
      && forall a :: Queue(s'.maps, a) == if a == p.instr.a then [] else Queue(s.maps, a)
    else if p.Do? && p.instr.Access? && p.instr.op.MailboxDrop? && p.instr.op.a in s.maps.mailboxes then
      var b := p.instr.op.a;
      && s'.log == s.log && s'.removals == s.removals + [Dropped(b, s.maps.mailboxes[b])]
      && forall a :: Queue(s'.maps, a) == if a == b then [] else Queue(s.maps, a)
    else
      s'.log == s.log && s'.removals == s.removals && forall a :: Queue(s'.maps, a) == Queue(s.maps, a)
  }

  lemma AccessHistory(cfg: Config, s: State, t: nat, c: Choice)
    requires t in s.threads && s.threads[t].prog.Do? && s.threads[t].prog.instr.Access?
    ensures HistoryStep(s, t, Next(cfg, s, t, c))
  {
    assert s.removals + [] == s.removals;
  }

  lemma NextHistory(cfg: Config, s: State, t: nat, c: Choice)
    requires Enabled(s, t, c)
    ensures HistoryStep(s, t, Next(cfg, s, t, c))
  {
    if s.threads[t].prog.Do? && s.threads[t].prog.instr.Access? { AccessHistory(cfg, s, t, c); }
  }

  lemma NextKeepsJobs(cfg: Config, s: State, t: nat, c: Choice)
    requires Enabled(s, t, c)
    ensures Next(cfg, s, t, c).threads.Keys == s.threads.Keys
    ensures forall u <- s.threads :: Next(cfg, s, t, c).threads[u].job == s.threads[u].job
  {
  }

  lemma Appended(queued: seq<nat>, taken: seq<nat>, queue: seq<nat>, more: seq<nat>)
    requires queued == taken + queue
    ensures queued + more == taken + (queue + more)
  {
  }

  lemma StepConserves(s: State, t: nat, s': State, a: AgentId)
    requires QueuedFor(s.log, a) == TakenFrom(s.removals, a) + Queue(s.maps, a)
    requires t in s.threads && HistoryStep(s, t, s')
    requires var p := s.threads[t].prog; p.Do? && p.instr.Clear? ==> p.instr.copied == Queue(s.maps, p.instr.a)
    ensures QueuedFor(s'.log, a) == TakenFrom(s'.removals, a) + Queue(s'.maps, a)
  {
    var p := s.threads[t].prog;
    var taken := TakenFrom(s.removals, a);
    if p.Do? && p.instr.Append? {
      QueuedForAppend(s.log, Entry(p.instr.a, t), a);
      Appended(QueuedFor(s.log, a), taken, Queue(s.maps, a), if a == p.instr.a then [t] else []);
    } else if s'.removals != s.removals {
      var r := s'.removals[|s.removals|];
      TakenFromAppend(s.removals, r, a);
      assert s'.removals == s.removals + [r] && r.messages == Queue(s.maps, r.a);
      assert TakenFrom(s'.removals, a) + Queue(s'.maps, a) == taken + Queue(s.maps, a);
    }
  }

  lemma StepKeepsHistory(s: State, t: nat, s': State)
    requires Inv(s) && t in s.threads && HistoryStep(s, t, s')
    requires s'.threads.Keys == s.threads.Keys
    requires forall u <- s.threads :: s'.threads[u].job == s.threads[u].job
    ensures HistoryOk(s')
  {
    assert ThreadOk(s, t);
  }

  lemma SpawnKeepsThreads(cfg: Config, s: State, t: nat, who: string, job: Job)
    requires ThreadsOk(s) && HistoryOk(s) && Possible(s, Spawn(t, who, job))
    ensures ThreadsOk(Step(cfg, s, Spawn(t, who, job)))
  {
    var s' := Step(cfg, s, Spawn(t, who, job));
    HandlerChecked(cfg.limited, who, job);
    assert HeldBy(s', t) == {};
    assert forall u :: HeldBy(s', u) == HeldBy(s, u);
    assert forall u :: InLog(s', u) <==> InLog(s, u);
    ReadyThread(s', t);
    forall u <- s'.threads ensures ThreadOk(s', u) {
      if u != t { assert ThreadOk(s, u); }
    }
  }

  lemma SpawnKeepsRecords(cfg: Config, s: State, t: nat, who: string, job: Job)
    requires HistoryOk(s) && Conserved(s) && Possible(s, Spawn(t, who, job))
    ensures HistoryOk(Step(cfg, s, Spawn(t, who, job))) && Conserved(Step(cfg, s, Spawn(t, who, job)))
  {
  }

  lemma StepKeepsThreads(cfg: Config, s: State, t: nat, c: Choice)
    requires Inv(s) && Enabled(s, t, c)
    ensures ThreadsOk(Next(cfg, s, t, c))
  {
    match s.threads[t].prog
    case If(_, _, _) => PlainStepKeepsThreads(cfg, s, t, c);
    case Do(i, _) =>
      match i {
        case Acquire(_) | Release(_) => LockStepKeepsThreads(cfg, s, t, c);
        case Access(_) => AccessKeepsThreads(cfg, s, t, c);
        case Enqueue(_) | Append(_) | Clear(_, _) => MailStepKeepsThreads(cfg, s, t, c);
        case PollBox(_) => PollBoxKeepsThreads(cfg, s, t, c);
        case Asleep => WakeKeepsThreads(cfg, s, t, c);
        case ForEachEndpoint => SweepLoopKeepsThreads(cfg, s, t, c);
        case ForEachAgent => AgentLoopKeepsThreads(cfg, s, t, c);
        case PeekMailbox(_) | Respond(_) => PlainStepKeepsThreads(cfg, s, t, c);
      }
  }

  lemma StepKeepsRecords(cfg: Config, s: State, t: nat, c: Choice)
    requires Inv(s) && Enabled(s, t, c)
    ensures HistoryOk(Next(cfg, s, t, c)) && Conserved(Next(cfg, s, t, c))
  {
    var s' := Next(cfg, s, t, c);
    NextHistory(cfg, s, t, c);
    NextKeepsJobs(cfg, s, t, c);
    assert ThreadOk(s, t);
    forall a ensures QueuedFor(s'.log, a) == TakenFrom(s'.removals, a) + Queue(s'.maps, a) {
      StepConserves(s, t, s', a);
    }
    StepKeepsHistory(s, t, s');
  }

  lemma StepKeepsInv(cfg: Config, s: State, act: Action)
    requires Inv(s) && Possible(s, act)
    ensures Inv(Step(cfg, s, act))
  {
    match act
    case Spawn(t, who, job) =>
      SpawnKeepsThreads(cfg, s, t, who, job);
      SpawnKeepsRecords(cfg, s, t, who, job);
    case Run(t, c) =>
      StepKeepsThreads(cfg, s, t, c);
      StepKeepsRecords(cfg, s, t, c);
  }

  lemma {:induction false} RunKeepsInv(cfg: Config, s: State, actions: seq<Action>, s': State)
    requires Inv(s) && Leads(cfg, s, actions, s')
    ensures Inv(s')
    decreases |actions|
  {
    if actions != [] {
      var n := |actions| - 1;
      var mid :| Leads(cfg, s, actions[..n], mid) && Possible(mid, actions[n]) && s' == Step(cfg, mid, actions[n]);
      RunKeepsInv(cfg, s, actions[..n], mid);
      StepKeepsInv(cfg, mid, actions[n]);
    }
  }

  lemma ReachableInv(cfg: Config, s: State)
    requires Reachable(cfg, s)
    ensures Inv(s)
  {
    var actions :| Leads(cfg, START, actions, s);
    RunKeepsInv(cfg, START, actions, s);
  }

  // ---- main results ---------------------------------------------------------------

  /**
   * In every reachable state and for every agent, the messages ever queued for it, in
   * order, are the batches taken out of its mailbox, in order, followed by the queue.
   */
  lemma MailboxConservation(cfg: Config, s: State, a: AgentId)
    requires Reachable(cfg, s)
    ensures QueuedFor(s.log, a) == TakenFrom(s.removals, a) + Queue(s.maps, a)
  {
    ReachableInv(cfg, s);
  }

  lemma {:induction false} QueuedOnce(log: seq<Entry>, a: AgentId)
    requires forall i, j :: 0 <= i < j < |log| ==> log[i].sender != log[j].sender
    ensures forall m <- QueuedFor(log, a) :: exists i :: 0 <= i < |log| && log[i] == Entry(a, m)
    ensures forall i, j :: 0 <= i < j < |QueuedFor(log, a)| ==> QueuedFor(log, a)[i] != QueuedFor(log, a)[j]
    decreases |log|
  {
    if log != [] {
      var n := |log| - 1;
      QueuedOnce(log[..n], a);
      forall m <- QueuedFor(log, a) ensures exists i :: 0 <= i < |log| && log[i] == Entry(a, m) {
        if m in QueuedFor(log[..n], a) {
          var i :| 0 <= i < n && log[..n][i] == Entry(a, m);
          assert log[i] == Entry(a, m);
        } else {
          assert log[n] == Entry(a, m);
        }
      }
    }
  }

  /** A batch of `removals` occupies its own stretch of what was taken from its agent. */
  lemma {:induction false} BatchWithin(removals: seq<Removal>, i: nat) returns (at: nat)
    requires i < |removals|
    ensures at == |TakenFrom(removals[..i], removals[i].a)|
    ensures at + |removals[i].messages| <= |TakenFrom(removals, removals[i].a)|
    ensures TakenFrom(removals, removals[i].a)[at..at + |removals[i].messages|] == removals[i].messages
    decreases |removals|
  {
    var n := |removals| - 1;
    at := |TakenFrom(removals[..i], removals[i].a)|;
    if i < n {
      var inner := BatchWithin(removals[..n], i);
      assert removals[..n][..i] == removals[..i];
    }
  }

  lemma {:induction false} TakenGrows(removals: seq<Removal>, i: nat, a: AgentId)
    requires i <= |removals|
    ensures |TakenFrom(removals[..i], a)| <= |TakenFrom(removals, a)|
    decreases |removals|
  {
    if i == |removals| {
      assert removals[..i] == removals;
    } else {
      var n := |removals| - 1;
      TakenGrows(removals[..n], i, a);
      assert removals[..n][..i] == removals[..i];
    }
  }

  /** Message `x` of batch `i` sits at its own position of what was queued for its agent. */
  lemma SpotOf(s: State, i: nat, x: nat) returns (p: nat, e: nat)
    requires HistoryOk(s) && Conserved(s) && i < |s.removals| && x < |s.removals[i].messages|
    ensures var a := s.removals[i].a;
            && p == |TakenFrom(s.removals[..i], a)| + x < |TakenFrom(s.removals, a)|
            && QueuedFor(s.log, a) == TakenFrom(s.removals, a) + Queue(s.maps, a)
            && QueuedFor(s.log, a)[p] == s.removals[i].messages[x]
            && e < |s.log| && s.log[e] == Entry(a, s.removals[i].messages[x])
  {
    var r, m := s.removals[i], s.removals[i].messages[x];
    QueuedOnce(s.log, r.a);
    var at := BatchWithin(s.removals, i);
    p := at + x;
    assert m == TakenFrom(s.removals, r.a)[at..at + |r.messages|][x];
    assert QueuedFor(s.log, r.a)[p] == m;
    e :| 0 <= e < |s.log| && s.log[e] == Entry(r.a, m);
  }

  lemma OtherBatch(s: State, i: nat, x: nat, j: nat, y: nat)
    requires HistoryOk(s) && Conserved(s)
    requires i <= j < |s.removals| && x < |s.removals[i].messages| && y < |s.removals[j].messages|
    requires j != i || y != x
    ensures s.removals[i].messages[x] != s.removals[j].messages[y]
  {
    var a := s.removals[i].a;
    var p, e := SpotOf(s, i, x);
    var q, f := SpotOf(s, j, y);
    if s.removals[i].messages[x] == s.removals[j].messages[y] {
      assert s.log[e].sender == s.log[f].sender;
      assert e == f && a == s.removals[j].a;
      if i < j {
        TakenFromAppend(s.removals[..i], s.removals[i], a);
        assert s.removals[..i + 1] == s.removals[..i] + [s.removals[i]];
        TakenGrows(s.removals[..j], i + 1, a);
        assert s.removals[..j][..i + 1] == s.removals[..i + 1];
      }
      assert p != q;
      QueuedOnce(s.log, a);
      assert false;
    }
  }

  lemma NotQueuedAnyMore(s: State, i: nat, x: nat, b: AgentId)
    requires HistoryOk(s) && Conserved(s) && i < |s.removals| && x < |s.removals[i].messages|
    ensures s.removals[i].messages[x] !in Queue(s.maps, b)
  {
    var m := s.removals[i].messages[x];
    var p, e := SpotOf(s, i, x);
    QueuedOnce(s.log, b);
    var a := s.removals[i].a;
    var taken := |TakenFrom(s.removals, b)|;
    forall z | 0 <= z < |Queue(s.maps, b)| ensures Queue(s.maps, b)[z] != m {
      var n := QueuedFor(s.log, b)[taken + z];
      assert n in QueuedFor(s.log, b) && n == Queue(s.maps, b)[z];
      var f :| 0 <= f < |s.log| && s.log[f] == Entry(b, n);
      assert e != f || (b == a && p < taken + z);
    }
  }

  /**
   * However many polls run at once, no message leaves a mailbox twice: a message of one
   * batch occurs nowhere else in that batch, in no other batch, and in no queue any more.
   * Whatever a poll delivers was sent to the agent that polled.
   */
  lemma AtMostOnceToItsRecipient(cfg: Config, s: State, i: nat, x: nat)
    requires Reachable(cfg, s) && i < |s.removals| && x < |s.removals[i].messages|
    ensures var r, m := s.removals[i], s.removals[i].messages[x];
            && m in s.threads && s.threads[m].job == SendJob(r.a)
            && (r.Delivered? ==> r.to in s.threads && s.threads[r.to].job == PollJob(r.a))
            && (forall j, y :: 0 <= j < |s.removals| && 0 <= y < |s.removals[j].messages| && (j != i || y != x) ==>
                  s.removals[j].messages[y] != m)
            && (forall b :: m !in Queue(s.maps, b))
  {
    ReachableInv(cfg, s);
    var p, e := SpotOf(s, i, x);
    forall j, y | 0 <= j < |s.removals| && 0 <= y < |s.removals[j].messages| && (j != i || y != x)
      ensures s.removals[j].messages[y] != s.removals[i].messages[x]
    {
      if i <= j { OtherBatch(s, i, x, j, y); } else { OtherBatch(s, j, y, i, x); }
    }
    forall b ensures s.removals[i].messages[x] !in Queue(s.maps, b) {
      NotQueuedAnyMore(s, i, x, b);
    }
  }

  lemma {:induction false} LoggedIsQueued(log: seq<Entry>, i: nat)
    requires i < |log|
    ensures log[i].sender in QueuedFor(log, log[i].recipient)
    decreases |log|
  {
    if i < |log| - 1 { LoggedIsQueued(log[..|log| - 1], i); }
  }

  /** A send that has been answered was queued exactly when the answer is 202. */
  lemma AcceptedMeansQueued(cfg: Config, s: State, t: nat)
    requires Reachable(cfg, s) && t in s.threads && s.threads[t].job.SendJob? && s.threads[t].prog == Done
    ensures s.threads[t].status.Some?
    ensures s.threads[t].status.value == 202 <==> t in QueuedFor(s.log, s.threads[t].job.recipient)
  {
    ReachableInv(cfg, s);
    assert ThreadOk(s, t);
    QueuedOnce(s.log, s.threads[t].job.recipient);
    if InLog(s, t) {
      var i :| 0 <= i < |s.log| && s.log[i].sender == t;
      LoggedIsQueued(s.log, i);
    }
  }
}
