/** Lock discipline of the interleaved broker: where threads race, and that they never deadlock. */
module BrokerThreadsProgress {
  import opened Wrappers
  import opened LockPrograms
  import opened BrokerThreads
  import opened BrokerThreadsSafety
  import opened BrokerThreadsSerial

  /** The lock whose data an instruction touches, whether or not the thread holds it. */
  function Guard(i: Instr): Option<Lock> {
    match i
    case Access(op) => Some(LockOf(op))
    case PeekMailbox(_) | Enqueue(_) | Append(_) | PollBox(_) | Clear(_, _) => Some(MailboxCond)
    case _ => None
  }

  /** The data that thread `t` is about to touch. */
  function AboutToTouch(s: State, t: nat): Option<Lock>
    requires t in s.threads
  {
    if s.threads[t].prog.Do? then Guard(s.threads[t].prog.instr) else None
  }

  predicate Peeks(s: State, t: nat)
    requires t in s.threads
  {
    s.threads[t].prog.Do? && s.threads[t].prog.instr.PeekMailbox?
  }

  lemma HoldsWhatItTouches(s: State, t: nat)
    requires Inv(s) && t in s.threads && AboutToTouch(s, t).Some? && !Peeks(s, t)
    ensures AboutToTouch(s, t).value in HeldBy(s, t)
  {
    assert ThreadOk(s, t);
  }

  /** Two threads are about to touch the same data only if one of them is a poll's unlocked look at the mailboxes. */
  lemma RacesOnlyWithPeek(cfg: Config, s: State, t: nat, u: nat)
    requires Reachable(cfg, s) && t in s.threads && u in s.threads && t != u
    requires AboutToTouch(s, t).Some? && AboutToTouch(s, t) == AboutToTouch(s, u)
    ensures Peeks(s, t) || Peeks(s, u)
    ensures AboutToTouch(s, t) == Some(MailboxCond)
  {
    ReachableInv(cfg, s);
    if !Peeks(s, t) { HoldsWhatItTouches(s, t); }
    if !Peeks(s, u) { HoldsWhatItTouches(s, u); }
  }

  /** A send has looked its recipient up, and a poll of the recipient is about to look for its mailbox. */
  lemma SendAndPollMeet(cfg: Config, a: AgentId) returns (s: State)
    ensures Runs(cfg, START, s) && s.holder == map[] && 1 in s.threads && 2 in s.threads
    ensures s.threads[1].prog == QueueFor(a) && s.threads[2].prog == Poll(a)
  {
    var s1 := RegisteredMailbox(cfg, a);
    var s2 := Launch(cfg, START, s1, 1, "", SendJob(a));
    var s3 := SendLooksUp(cfg, START, s2, 1, "", a);
    var s4 := Launch(cfg, START, s3, 2, "", PollJob(a));
    assert s4.threads == s4.threads[2 := s4.threads[2]];
    s := RunAdmit(cfg, START, s4, s4, 2, "", Poll(a));
  }

  /** That look does race: for every agent a send may be about to write the mailbox that a poll is about to look for. */
  lemma PeekRaces(cfg: Config, a: AgentId) returns (s: State)
    ensures Reachable(cfg, s) && 1 in s.threads && 2 in s.threads
    ensures s.threads[1].prog.Do? && s.threads[1].prog.instr == Enqueue(a)
    ensures s.threads[2].prog.Do? && s.threads[2].prog.instr == PeekMailbox(a)
    ensures AboutToTouch(s, 1) == AboutToTouch(s, 2) == Some(MailboxCond)
  {
    var before := SendAndPollMeet(cfg, a);
    s := Step(cfg, before, Run(1, Choice(0.0, false, "")));
    RunsStep(cfg, START, before, Run(1, Choice(0.0, false, "")));
  }

  ghost predicate IsAsleep(s: State, t: nat)
    requires t in s.threads
  {
    s.threads[t].prog.Do? && s.threads[t].prog.instr.Asleep?
  }

  ghost predicate CanStep(s: State, t: nat) {
    exists c :: Enabled(s, t, c)
  }

  lemma UnblockedCanStep(s: State, t: nat)
    requires t in s.threads && s.threads[t].prog != Done
    requires s.threads[t].prog.Do? && s.threads[t].prog.instr.Acquire? ==> s.threads[t].prog.instr.l !in s.holder
    ensures CanStep(s, t)
  {
    var th := s.threads[t];
    var pick := "";
    if th.prog.Do? && th.prog.instr.ForEachEndpoint? && th.vars.endpoints != map[] {
      pick :| pick in th.vars.endpoints;
    } else if th.prog.Do? && th.prog.instr.ForEachAgent? && th.vars.agents != {} {
      pick :| pick in th.vars.agents;
    }
    assert Enabled(s, t, Choice(0.0, true, pick));
  }

  /** Follow a blocked thread to the holder of the lock it wants; ranks rise, so this ends. */
  lemma {:induction false} SomeoneMoves(s: State, t: nat) returns (u: nat)
    requires Inv(s) && t in s.threads && s.threads[t].prog != Done && !IsAsleep(s, t)
    ensures u in s.threads && !IsAsleep(s, u) && CanStep(s, u)
    decreases var p := s.threads[t].prog; if p.Do? && p.instr.Acquire? then 1 - Rank(p.instr.l) else 2
  {
    var p := s.threads[t].prog;
    if p.Do? && p.instr.Acquire? && p.instr.l in s.holder {
      var owner := s.holder[p.instr.l];
      assert ThreadOk(s, owner);
      assert p.instr.l in HeldBy(s, owner);
      var q := s.threads[owner].prog;
      if q.Do? && q.instr.Acquire? {
        assert Rank(p.instr.l) < Rank(q.instr.l);
        u := SomeoneMoves(s, owner);
      } else {
        UnblockedCanStep(s, owner);
        u := owner;
      }
    } else {
      UnblockedCanStep(s, t);
      u := t;
    }
  }

  /**
   * No deadlock: whenever some thread is unfinished and not in a condition wait,
   * a thread that is not in a condition wait can take a step.
   */
  lemma NoDeadlock(cfg: Config, s: State, t: nat)
    requires Reachable(cfg, s) && t in s.threads && s.threads[t].prog != Done && !IsAsleep(s, t)
    ensures exists u <- s.threads :: !IsAsleep(s, u) && CanStep(s, u)
  {
    ReachableInv(cfg, s);
    var u := SomeoneMoves(s, t);
  }

  /** A thread that is done holds no lock, so nobody waits on a finished handler. */
  lemma FinishedHoldsNothing(cfg: Config, s: State, t: nat)
    requires Reachable(cfg, s) && t in s.threads
    requires s.threads[t].prog == Done || IsAsleep(s, t)
    ensures HeldBy(s, t) == {}
  {
    ReachableInv(cfg, s);
    assert ThreadOk(s, t);
  }
}
