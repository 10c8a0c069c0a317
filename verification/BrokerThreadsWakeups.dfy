/** No wake-up is lost: `notify_all` reaches every poll whose mailbox has something for it. */
module BrokerThreadsWakeups {
  import opened Wrappers
  import opened LockPrograms
  import opened LockChecks
  import opened BrokerThreads
  import opened BrokerThreadsSafety

  /** The agent whose mailbox a sleeping program waits on. */
  function WaitsOn(p: Prog): Option<AgentId> {
    match p
    case Do(Asleep, Do(Acquire(MailboxCond), Do(PollBox(a), _))) => Some(a)
    case _ => None
  }

  ghost predicate SleepOk(s: State, t: nat)
    requires t in s.threads
  {
    s.threads[t].prog.Do? && s.threads[t].prog.instr.Asleep? ==>
      var a := WaitsOn(s.threads[t].prog);
      && a.Some? && s.threads[t].job == PollJob(a.value)
      && (t !in s.notified ==> a.value in s.maps.mailboxes && s.maps.mailboxes[a.value] == [])
  }

  ghost predicate SleepersOk(s: State) {
    forall t <- s.threads :: SleepOk(s, t)
  }

  /** A queue that stays empty and in place, unless every sleeper is told. */
  ghost predicate QuietOrNotified(s: State, s': State) {
    || Sleepers(s) <= s'.notified
    || forall a <- s.maps.mailboxes ::
         s.maps.mailboxes[a] == [] ==> a in s'.maps.mailboxes && s'.maps.mailboxes[a] == []
  }

  lemma AccessQuietOrNotified(cfg: Config, s: State, t: nat, c: Choice)
    requires t in s.threads && s.threads[t].prog.Do? && s.threads[t].prog.instr.Access?
    ensures QuietOrNotified(s, Next(cfg, s, t, c))
  {
  }

  lemma StepQuietOrNotified(cfg: Config, s: State, t: nat, c: Choice)
    requires Enabled(s, t, c)
    ensures QuietOrNotified(s, Next(cfg, s, t, c))
  {
    var p := s.threads[t].prog;
    if p.Do? && p.instr.Access? {
      AccessQuietOrNotified(cfg, s, t, c);
    } else if p.Do? && p.instr.Append? {
      assert Sleepers(s) <= Next(cfg, s, t, c).notified;
    }
  }

  lemma OtherSleeps(cfg: Config, s: State, t: nat, c: Choice, u: nat)
    requires Enabled(s, t, c) && u in s.threads && u != t && SleepOk(s, u)
    ensures u in Next(cfg, s, t, c).threads && SleepOk(Next(cfg, s, t, c), u)
  {
    var s' := Next(cfg, s, t, c);
    StepQuietOrNotified(cfg, s, t, c);
    assert s'.threads[u] == s.threads[u] && (u in s.notified ==> u in s'.notified);
    assert u in Sleepers(s) <==> s.threads[u].prog.Do? && s.threads[u].prog.instr.Asleep?;
  }

  /** Only the wait loop of a poll goes to sleep. */
  lemma NeverAsleepLater(job: Job, queued: bool, p: Prog)
    requires Accountable(job, queued, p)
    ensures !(p.Do? && p.instr.Asleep?)
  {
  }

  lemma AwakeAfter(cfg: Config, s: State, t: nat, c: Choice)
    requires Enabled(s, t, c) && ThreadOk(s, t) && !(s.threads[t].prog.Do? && s.threads[t].prog.instr.PollBox?)
    ensures var p := Next(cfg, s, t, c).threads[t].prog; !(p.Do? && p.instr.Asleep?)
  {
    var job, queued, p := s.threads[t].job, InLog(s, t), s.threads[t].prog;
    if p.If? {
      NeverAsleepLater(job, queued, if Holds(s.threads[t].vars, p.test, c) then p.yes else p.no);
    } else if p.Do? && s.threads[t].status.None? && !p.instr.Respond? {
      NeverAsleepLater(job, queued || p.instr.Enqueue? || p.instr.Append?, p.next);
    }
  }

  lemma FallsAsleep(cfg: Config, s: State, t: nat, c: Choice)
    requires Enabled(s, t, c) && ThreadOk(s, t) && s.threads[t].prog.Do? && s.threads[t].prog.instr.PollBox?
    ensures SleepOk(Next(cfg, s, t, c), t)
  {
    assert Accountable(s.threads[t].job, InLog(s, t), s.threads[t].prog);
  }

  lemma StepKeepsSleepers(cfg: Config, s: State, t: nat, c: Choice)
    requires Inv(s) && SleepersOk(s) && Enabled(s, t, c)
    ensures SleepersOk(Next(cfg, s, t, c))
  {
    var s' := Next(cfg, s, t, c);
    assert ThreadOk(s, t);
    NextKeepsJobs(cfg, s, t, c);
    forall u <- s'.threads ensures SleepOk(s', u) {
      if u != t {
        assert SleepOk(s, u);
        OtherSleeps(cfg, s, t, c, u);
      } else if s.threads[t].prog.Do? && s.threads[t].prog.instr.PollBox? {
        FallsAsleep(cfg, s, t, c);
      } else {
        AwakeAfter(cfg, s, t, c);
      }
    }
  }

  lemma SpawnKeepsSleepers(cfg: Config, s: State, t: nat, who: string, job: Job)
    requires SleepersOk(s) && Possible(s, Spawn(t, who, job))
    ensures SleepersOk(Step(cfg, s, Spawn(t, who, job)))
  {
    var s' := Step(cfg, s, Spawn(t, who, job));
    HandlerChecked(cfg.limited, who, job);
    assert Accountable(job, false, s'.threads[t].prog);
    forall u <- s'.threads ensures SleepOk(s', u) {
      if u != t { assert SleepOk(s, u); }
    }
  }

  lemma {:induction false} RunKeepsSleepers(cfg: Config, actions: seq<Action>, s: State)
    requires Leads(cfg, START, actions, s)
    ensures SleepersOk(s)
    decreases |actions|
  {
    if actions != [] {
      var n := |actions| - 1;
      var mid :| Leads(cfg, START, actions[..n], mid) && Possible(mid, actions[n]) && s == Step(cfg, mid, actions[n]);
      RunKeepsSleepers(cfg, actions[..n], mid);
      assert Reachable(cfg, mid);
      ReachableInv(cfg, mid);
      match actions[n]
      case Spawn(t, who, job) => SpawnKeepsSleepers(cfg, mid, t, who, job);
      case Run(t, c) => StepKeepsSleepers(cfg, mid, t, c);
    }
  }

  /**
   * In every interleaving a poll that sleeps although its mailbox holds a message, or has been
   * evicted, has been notified: it does not sleep until its wait is over.
   */
  lemma NoLostWakeup(cfg: Config, s: State, t: nat)
    requires Reachable(cfg, s) && t in Sleepers(s)
    ensures s.threads[t].job.PollJob?
    ensures var a := s.threads[t].job.a;
            a !in s.maps.mailboxes || s.maps.mailboxes[a] != [] ==> t in s.notified
  {
    var actions :| Leads(cfg, START, actions, s);
    RunKeepsSleepers(cfg, actions, s);
    assert SleepOk(s, t);
  }
}
