/** Every send that gets past the rate limiter leaves exactly one record in the traffic log, and nothing else does. */
module BrokerThreadsTraffic {
  import opened Wrappers
  import opened Json
  import opened BrokerState
  import opened LockPrograms
  import opened BrokerThreads
  import opened BrokerThreadsSafety

  predicate Records(i: Instr) {
    i == Access(TrafficAppend)
  }

  /**
   * Every way through `p` to its answer leaves one record if one is `owed`, and none otherwise; a refusal by
   * the limiter comes before any. In a `send` none is owed once it has been left.
   */
  predicate Owes(p: Prog, send: bool, owed: bool)
    decreases p
  {
    match p
    case Done => !owed
    case If(_, yes, no) => Owes(yes, send, owed) && Owes(no, send, owed)
    case Do(i, k) =>
      if Records(i) then owed && Owes(k, send, false)
      else if i.Respond? then (if i.status == 429 then owed == send else !owed) && Owes(k, send, false)
      else if i.PollBox? || i.ForEachEndpoint? || i.ForEachAgent? then !owed && Owes(k, send, false)
      else Owes(k, send, owed)
  }

  // ---- the programs ------------------------------------------------------------------------

  lemma SectionOwes(op: Op, k: Prog, send: bool, owed: bool)
    requires !op.TrafficAppend? && Owes(k, send, owed)
    ensures Owes(Section(op, k), send, owed)
  {
    var q := Do(Release(LockOf(op)), k);
    assert Owes(q, send, owed) && Owes(Do(Access(op), q), send, owed);
  }

  lemma RecordOwes(k: Prog)
    requires Owes(k, true, false)
    ensures Owes(Section(TrafficAppend, k), true, true)
  {
    var q := Do(Release(TrafficLock), k);
    assert Owes(q, true, false) && Owes(Do(Access(TrafficAppend), q), true, true);
  }

  lemma AnswerOwes(status: int, send: bool)
    requires status != 429
    ensures Owes(Answer(status), send, false)
  {
    assert Owes(Done, send, false) && Owes(Do(Respond(status), Done), send, false);
    SectionOwes(AuditWrite, Do(Respond(status), Done), send, false);
  }

  lemma AdmitOwes(limited: bool, who: string, k: Prog, send: bool)
    requires Owes(k, send, send)
    ensures Owes(Admit(limited, who, k), send, send)
  {
    if limited {
      assert Owes(Done, send, false) && Owes(Do(Respond(429), Done), send, send);
      var fork := If(Oracle, Do(Respond(429), Done), k);
      assert Owes(fork, send, send);
      SectionOwes(BucketConsume(who), fork, send, send);
      SectionOwes(BucketFind, Section(BucketConsume(who), fork), send, send);
    }
  }

  lemma RegisterOwes(ep: Endpoint, caps: Object, given: Option<int>)
    ensures Owes(Register(ep, caps, given), false, false)
  {
    var a := ep.agentId;
    AnswerOwes(200, false);
    AnswerOwes(201, false);
    var fork := If(Found, Answer(200), Answer(201));
    SectionOwes(HeartbeatStamp(a, given), fork, false, false);
    SectionOwes(CapabilitiesPut(a, caps), Section(HeartbeatStamp(a, given), fork), false, false);
    var rest := RegisterRest(ep, caps, given);
    SectionOwes(MailboxDefault(a), rest, false, false);
    var box := if ep.mailbox then Section(MailboxDefault(a), rest) else rest;
    SectionOwes(RegistryPut(ep), box, false, false);
    SectionOwes(RegistryLookup(a), Section(RegistryPut(ep), box), false, false);
  }

  lemma RemoveAllOwes(a: AgentId, k: Prog)
    requires Owes(k, false, false)
    ensures Owes(RemoveAll(a, k), false, false)
  {
    var p4 := Section(MailboxDrop(a), k);
    var p3 := Section(HeartbeatDrop(a), p4);
    SectionOwes(MailboxDrop(a), k, false, false);
    SectionOwes(HeartbeatDrop(a), p4, false, false);
    SectionOwes(CapabilitiesDrop(a), p3, false, false);
    SectionOwes(RegistryDrop(a), Section(CapabilitiesDrop(a), p3), false, false);
  }

  lemma RecordedAnswers()
    ensures Owes(Section(TrafficAppend, Answer(202)), true, true)
    ensures Owes(Section(TrafficAppend, Answer(502)), true, true)
    ensures Owes(Refuse(), true, true) && Owes(Section(TrafficAppend, If(Oracle, Answer(200), Answer(204))), true, true)
  {
    AnswerOwes(200, true);
    AnswerOwes(202, true);
    AnswerOwes(204, true);
    AnswerOwes(404, true);
    AnswerOwes(502, true);
    RecordOwes(Answer(202));
    RecordOwes(Answer(404));
    RecordOwes(Answer(502));
    RecordOwes(If(Oracle, Answer(200), Answer(204)));
  }

  lemma SendOwes(b: AgentId)
    ensures Owes(Send(b), true, true)
  {
    RecordedAnswers();
    var answered := Section(TrafficAppend, If(Oracle, Answer(200), Answer(204)));
    var failed := Section(TrafficAppend, Answer(502));
    SectionOwes(RegistryLookup(b), If(Found, If(Oracle, answered, failed), Refuse()), true, true);
    var rest := Do(Release(MailboxCond), Section(TrafficAppend, Answer(202)));
    assert Owes(rest, true, true) && Owes(Do(Enqueue(b), rest), true, true) && Owes(QueueFor(b), true, true);
    var choose := If(FoundMailbox, QueueFor(b), Route(b));
    SectionOwes(RegistryLookup(b), If(Found, choose, Refuse()), true, true);
  }

  lemma PollOwes(a: AgentId)
    ensures Owes(Poll(a), false, false)
  {
    AnswerOwes(200, false);
    var k := Do(Release(MailboxCond), Answer(200));
    assert Owes(k, false, false) && Owes(Do(PollBox(a), k), false, false) && Owes(Listen(a), false, false);
    SectionOwes(HeartbeatTouch(a), Listen(a), false, false);
    SectionOwes(AuditWrite, Refresh(a), false, false);
    var p4 := Section(AuditWrite, Refresh(a));
    SectionOwes(HeartbeatDefault(a), p4, false, false);
    SectionOwes(CapabilitiesDefault(a), Section(HeartbeatDefault(a), p4), false, false);
    SectionOwes(MailboxDefault(a), HealRest(a), false, false);
    SectionOwes(RegistryPut(MailboxEndpoint(a)), Section(MailboxDefault(a), HealRest(a)), false, false);
    assert Owes(If(HasMailbox, Refresh(a), Heal(a)), false, false);
  }

  lemma AgentsOwes()
    ensures Owes(Agents(), false, false)
  {
    assert Owes(Done, false, false) && Owes(Do(Respond(200), Done), false, false);
    var finish := Do(Release(CapabilitiesLock), Do(Respond(200), Done));
    var body := Do(Access(CapabilitiesKeys), Do(ForEachAgent, finish));
    assert Owes(finish, false, false) && Owes(Do(ForEachAgent, finish), false, false) && Owes(body, false, false);
    SectionOwes(HeartbeatSnapshot, Do(Acquire(CapabilitiesLock), body), false, false);
  }

  /** Only a send owes a record. */
  lemma HandlerOwes(limited: bool, who: string, job: Job)
    ensures Owes(Handler(limited, who, job), job.SendJob?, job.SendJob?)
  {
    match job
    case RegisterJob(ep, caps, given) =>
      RegisterOwes(ep, caps, given);
      AdmitOwes(limited, who, Register(ep, caps, given), false);
    case DeregisterJob(a) =>
      AnswerOwes(204, job.SendJob?);
      RemoveAllOwes(a, Answer(204));
      AdmitOwes(limited, who, RemoveAll(a, Answer(204)), false);
    case SendJob(b) =>
      SendOwes(b);
      AdmitOwes(limited, who, Send(b), true);
    case PollJob(a) =>
      PollOwes(a);
      AdmitOwes(limited, who, Poll(a), false);
    case AgentsJob =>
      AgentsOwes();
      AdmitOwes(limited, who, Agents(), false);
    case TrafficJob =>
      AnswerOwes(200, job.SendJob?);
      SectionOwes(TrafficRead, Answer(200), job.SendJob?, false);
      AdmitOwes(limited, who, Section(TrafficRead, Answer(200)), false);
    case SweepJob =>
      assert Owes(Done, job.SendJob?, false) && Owes(Do(ForEachEndpoint, Done), job.SendJob?, false);
      SectionOwes(RegistryList, Do(ForEachEndpoint, Done), job.SendJob?, false);
  }

  // ---- every interleaving ------------------------------------------------------------------

  /** How often thread `t` has added to the log. */
  function Times(recorded: seq<nat>, t: nat): nat {
    if recorded == [] then 0
    else Times(recorded[..|recorded| - 1], t) + if recorded[|recorded| - 1] == t then 1 else 0
  }

  lemma TimesAppend(recorded: seq<nat>, u: nat, t: nat)
    ensures Times(recorded + [u], t) == Times(recorded, t) + if u == t then 1 else 0
  {
    assert (recorded + [u])[..|recorded|] == recorded;
  }

  /** How many records the job leaves in all. */
  function Due(job: Job): nat {
    if job.SendJob? then 1 else 0
  }

  /** What is recorded and what is still owed make up what is due; only a refusal by the limiter owes nothing. */
  ghost predicate Settled(s: State, t: nat)
    requires t in s.threads
  {
    var th := s.threads[t];
    var send, times := th.job.SendJob?, Times(s.recorded, t);
    match th.status
    case None => times <= Due(th.job) && Owes(th.prog, send, send && times == 0)
    case Some(status) => Closing(th.prog) && times == if status == 429 then 0 else Due(th.job)
  }

  ghost predicate AllSettled(s: State) {
    && (forall t <- s.threads :: Settled(s, t))
    && forall t :: t !in s.threads ==> Times(s.recorded, t) == 0
  }

  lemma SweepOneOwes(ep: Endpoint, k: Prog, send: bool)
    requires Owes(k, send, false)
    ensures Owes(SweepOne(ep, k), send, false)
  {
    var a := ep.agentId;
    var p4 := Section(MailboxDrop(a), k);
    var p3 := Section(HeartbeatDrop(a), p4);
    SectionOwes(MailboxDrop(a), k, send, false);
    SectionOwes(HeartbeatDrop(a), p4, send, false);
    SectionOwes(CapabilitiesDrop(a), p3, send, false);
    SectionOwes(RegistryDrop(a), Section(CapabilitiesDrop(a), p3), send, false);
    var fork := If(IsExpired, RemoveAll(a, k), k);
    assert Owes(fork, send, false);
    SectionOwes(HeartbeatRead(ep), fork, send, false);
  }

  lemma RespondSettles(cfg: Config, s: State, t: nat, c: Choice)
    requires Enabled(s, t, c) && ThreadOk(s, t) && s.threads[t].prog.Do? && s.threads[t].prog.instr.Respond?
    requires s.threads[t].status.None? && Settled(s, t)
    ensures Settled(Next(cfg, s, t, c), t)
  {
  }

  lemma PollSettles(cfg: Config, s: State, t: nat, c: Choice)
    requires Enabled(s, t, c) && s.threads[t].prog.Do? && s.threads[t].prog.instr.PollBox?
    requires s.threads[t].status.None? && Settled(s, t)
    ensures Settled(Next(cfg, s, t, c), t)
  {
    var p, send := s.threads[t].prog, s.threads[t].job.SendJob?;
    assert Owes(Done, send, false) && Owes(Do(Release(MailboxCond), Done), send, false);
    assert Owes(Do(Acquire(MailboxCond), p), send, false);
  }

  lemma LoopSettles(cfg: Config, s: State, t: nat, c: Choice)
    requires Enabled(s, t, c) && s.threads[t].prog.Do?
    requires s.threads[t].prog.instr.ForEachEndpoint? || s.threads[t].prog.instr.ForEachAgent?
    requires s.threads[t].status.None? && Settled(s, t)
    ensures Settled(Next(cfg, s, t, c), t)
  {
    var p, send := s.threads[t].prog, s.threads[t].job.SendJob?;
    if p.instr.ForEachAgent? {
      SectionOwes(RegistryLookup(c.pick), p, send, false);
    } else if c.pick in s.threads[t].vars.endpoints {
      SweepOneOwes(s.threads[t].vars.endpoints[c.pick], p, send);
    }
  }

  lemma PlainSettles(cfg: Config, s: State, t: nat, c: Choice)
    requires Enabled(s, t, c) && s.threads[t].status.None? && Settled(s, t)
    requires var p := s.threads[t].prog;
             p.Do? ==> !p.instr.Respond? && !p.instr.PollBox? && !p.instr.ForEachEndpoint? && !p.instr.ForEachAgent?
    ensures Settled(Next(cfg, s, t, c), t)
  {
    TimesAppend(s.recorded, t, t);
  }

  lemma OwnSettles(cfg: Config, s: State, t: nat, c: Choice)
    requires Enabled(s, t, c) && ThreadOk(s, t) && Settled(s, t)
    ensures t in Next(cfg, s, t, c).threads && Settled(Next(cfg, s, t, c), t)
  {
    var p := s.threads[t].prog;
    if s.threads[t].status.Some? {
      assert p == Do(Release(MailboxCond), Done);
    } else if p.Do? && p.instr.Respond? {
      RespondSettles(cfg, s, t, c);
    } else if p.Do? && p.instr.PollBox? {
      PollSettles(cfg, s, t, c);
    } else if p.Do? && (p.instr.ForEachEndpoint? || p.instr.ForEachAgent?) {
      LoopSettles(cfg, s, t, c);
    } else {
      PlainSettles(cfg, s, t, c);
    }
  }

  lemma OnlyOwnRecord(cfg: Config, s: State, t: nat, c: Choice, u: nat)
    requires Enabled(s, t, c) && u != t
    ensures Times(Next(cfg, s, t, c).recorded, u) == Times(s.recorded, u)
    ensures u in Next(cfg, s, t, c).threads <==> u in s.threads
    ensures u in s.threads ==> Next(cfg, s, t, c).threads[u] == s.threads[u]
  {
    TimesAppend(s.recorded, t, u);
  }

  lemma StepSettles(cfg: Config, s: State, t: nat, c: Choice)
    requires Inv(s) && AllSettled(s) && Enabled(s, t, c)
    ensures AllSettled(Next(cfg, s, t, c))
  {
    var s' := Next(cfg, s, t, c);
    assert ThreadOk(s, t) && Settled(s, t);
    OwnSettles(cfg, s, t, c);
    forall u | u != t && u !in s'.threads ensures Times(s'.recorded, u) == 0 { OnlyOwnRecord(cfg, s, t, c, u); }
    forall u <- s'.threads ensures Settled(s', u) {
      if u != t {
        OnlyOwnRecord(cfg, s, t, c, u);
        assert Settled(s, u);
      }
    }
  }

  lemma SpawnSettles(cfg: Config, s: State, t: nat, who: string, job: Job)
    requires AllSettled(s) && Possible(s, Spawn(t, who, job))
    ensures AllSettled(Step(cfg, s, Spawn(t, who, job)))
  {
    var s' := Step(cfg, s, Spawn(t, who, job));
    HandlerOwes(cfg.limited, who, job);
    forall u <- s'.threads ensures Settled(s', u) {
      if u != t { assert Settled(s, u) && s'.threads[u] == s.threads[u]; }
    }
  }

  lemma {:induction false} RunSettles(cfg: Config, actions: seq<Action>, s: State)
    requires Leads(cfg, START, actions, s)
    ensures AllSettled(s)
    decreases |actions|
  {
    if actions != [] {
      var n := |actions| - 1;
      var mid :| Leads(cfg, START, actions[..n], mid) && Possible(mid, actions[n]) && s == Step(cfg, mid, actions[n]);
      RunSettles(cfg, actions[..n], mid);
      assert Reachable(cfg, mid);
      ReachableInv(cfg, mid);
      match actions[n]
      case Spawn(t, who, job) => SpawnSettles(cfg, mid, t, who, job);
      case Run(t, c) => StepSettles(cfg, mid, t, c);
    }
  }

  /**
   * In every interleaving a send that has been answered has added exactly one record to the traffic log,
   * unless the rate limiter refused it; no other handler, and no refused one, ever adds any.
   */
  lemma OneRecordPerSend(cfg: Config, s: State, t: nat)
    requires Reachable(cfg, s) && t in s.threads
    ensures Times(s.recorded, t) <= (if s.threads[t].job.SendJob? then 1 else 0)
    ensures var th := s.threads[t];
            th.status.Some? ==> (Times(s.recorded, t) == 1 <==> th.job.SendJob? && th.status != Some(429))
  {
    var actions :| Leads(cfg, START, actions, s);
    RunSettles(cfg, actions, s);
    assert Settled(s, t);
  }
}
