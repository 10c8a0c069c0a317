/**
 * Handlers that can run without interruption, from any state in which no lock is taken, and a run in
 * which an interrupted one leaves the dictionaries disagreeing. That every uninterrupted run has the
 * serial meaning is shown in `BrokerThreadsAlone`.
 */
module BrokerThreadsSerial {
  import opened Wrappers
  import opened Json
  import opened BrokerState
  import opened LockPrograms
  import opened BrokerThreads

  ghost predicate Runs(cfg: Config, s: State, s': State) {
    exists actions :: Leads(cfg, s, actions, s')
  }

  lemma RunsStep(cfg: Config, s: State, mid: State, act: Action)
    requires Runs(cfg, s, mid) && Possible(mid, act)
    ensures Runs(cfg, s, Step(cfg, mid, act))
  {
    var actions :| Leads(cfg, s, actions, mid);
    assert (actions + [act])[..|actions|] == actions;
    assert Leads(cfg, s, actions + [act], Step(cfg, mid, act));
  }

  lemma RunsNowhere(cfg: Config, s: State)
    ensures Runs(cfg, s, s)
  {
    assert Leads(cfg, s, [], s);
  }

  /**
   * `s` is reached from `origin`, no lock is taken in it, `t` stands at program `p`, and
   * the other threads are as they are in `base`.
   */
  ghost predicate At(cfg: Config, origin: State, base: State, s: State, t: nat, p: Prog) {
    && Runs(cfg, origin, s)
    && s.holder == map[]
    && t in s.threads && t in base.threads
    && s.threads[t].prog == p && s.threads[t].job == base.threads[t].job
    && s.threads == base.threads[t := s.threads[t]]
  }

  /** One critical section, start to end. */
  lemma RunSection(cfg: Config, origin: State, base: State, s: State, t: nat, op: Op, k: Prog, now: real)
    returns (s': State)
    requires At(cfg, origin, base, s, t, Section(op, k))
    ensures At(cfg, origin, base, s', t, k)
    ensures s'.maps == Apply(cfg, op, s.maps, s.threads[t].vars, now)
    ensures s'.threads[t].vars == Read(cfg, op, s.maps, s.threads[t].vars, now)
    ensures s'.threads[t].status == s.threads[t].status
    ensures s'.log == s.log && s'.removals == s.removals + Removes(op, s.maps)
  {
    var c := Choice(now, false, "");
    var l := LockOf(op);
    var s1 := Next(cfg, s, t, c);
    RunsStep(cfg, origin, s, Run(t, c));
    var s2 := Next(cfg, s1, t, c);
    RunsStep(cfg, origin, s1, Run(t, c));
    s' := Next(cfg, s2, t, c);
    RunsStep(cfg, origin, s2, Run(t, c));
    assert s'.holder == map[];
  }

  lemma RunFork(cfg: Config, origin: State, base: State, s: State, t: nat, test: Test, yes: Prog, no: Prog,
                oracle: bool)
    returns (s': State)
    requires At(cfg, origin, base, s, t, If(test, yes, no))
    ensures At(cfg, origin, base, s', t, if Holds(s.threads[t].vars, test, Choice(0.0, oracle, "")) then yes else no)
    ensures s'.maps == s.maps && s'.log == s.log && s'.removals == s.removals
    ensures s'.threads[t].vars == s.threads[t].vars && s'.threads[t].status == s.threads[t].status
  {
    var c := Choice(0.0, oracle, "");
    s' := Next(cfg, s, t, c);
    RunsStep(cfg, origin, s, Run(t, c));
  }

  lemma RunAnswer(cfg: Config, origin: State, base: State, s: State, t: nat, status: int) returns (s': State)
    requires At(cfg, origin, base, s, t, Answer(status))
    ensures At(cfg, origin, base, s', t, Done) && s'.threads[t].status == Some(status)
    ensures s'.maps == s.maps && s'.log == s.log && s'.removals == s.removals
  {
    var s1 := RunSection(cfg, origin, base, s, t, AuditWrite, Do(Respond(status), Done), 0.0);
    var c := Choice(0.0, false, "");
    s' := Next(cfg, s1, t, c);
    RunsStep(cfg, origin, s1, Run(t, c));
  }

  lemma RunAdmit(cfg: Config, origin: State, base: State, s: State, t: nat, who: string, k: Prog) returns (s': State)
    requires At(cfg, origin, base, s, t, Admit(cfg.limited, who, k))
    ensures At(cfg, origin, base, s', t, k)
    ensures s'.maps == s.maps && s'.log == s.log && s'.removals == s.removals
    ensures s'.threads[t].vars == s.threads[t].vars && s'.threads[t].status == s.threads[t].status
  {
    if cfg.limited {
      var refuse := Do(Respond(429), Done);
      var fork := If(Oracle, refuse, k);
      var s1 := RunSection(cfg, origin, base, s, t, BucketFind, Section(BucketConsume(who), fork), 0.0);
      var s2 := RunSection(cfg, origin, base, s1, t, BucketConsume(who), fork, 0.0);
      s' := RunFork(cfg, origin, base, s2, t, Oracle, refuse, k, false);
    } else {
      s' := s;
    }
  }

  /** Nobody is inside a critical section, and `t` is a freshly started handler for `job`. */
  ghost predicate Starting(cfg: Config, s: State, t: nat, who: string, job: Job) {
    s.holder == map[] && t in s.threads && s.threads[t] == Thread(job, Handler(cfg.limited, who, job), FRESH, None)
  }

  // ---- each handler has an uninterrupted run ---------------------------------------------

  lemma RunRegister(cfg: Config, origin: State, s: State, t: nat, who: string, ep: Endpoint, caps: Object,
                    given: Option<int>, now: real) returns (s': State)
    requires Runs(cfg, origin, s) && Starting(cfg, s, t, who, RegisterJob(ep, caps, given))
    ensures At(cfg, origin, s, s', t, Done)
    ensures s'.maps == Registered(s.maps, ep, caps, given, now, cfg.defaultTtl)
    ensures s'.threads[t].status == Some(if ep.agentId in s.maps.registry then 200 else 201)
    ensures s'.log == s.log && s'.removals == s.removals
  {
    var a := ep.agentId;
    var s0 := RunAdmit(cfg, origin, s, s, t, who, Register(ep, caps, given));
    var rest := RegisterRest(ep, caps, given);
    var box := if ep.mailbox then Section(MailboxDefault(a), rest) else rest;
    var s1 := RunSection(cfg, origin, s, s0, t, RegistryLookup(a), Section(RegistryPut(ep), box), now);
    var s3 := RunPut(cfg, origin, s, s1, t, ep, rest);
    s' := RunRegisterRest(cfg, origin, s, s3, t, ep, caps, given, now);
  }

  lemma RunPut(cfg: Config, origin: State, base: State, s: State, t: nat, ep: Endpoint, rest: Prog)
    returns (s': State)
    requires At(cfg, origin, base, s, t,
                Section(RegistryPut(ep), if ep.mailbox then Section(MailboxDefault(ep.agentId), rest) else rest))
    ensures At(cfg, origin, base, s', t, rest)
    ensures s'.maps
         == if ep.mailbox then DefaultMailbox(PutEndpoint(s.maps, ep), ep.agentId) else PutEndpoint(s.maps, ep)
    ensures s'.log == s.log && s'.removals == s.removals && s'.threads[t].vars == s.threads[t].vars
  {
    var box := if ep.mailbox then Section(MailboxDefault(ep.agentId), rest) else rest;
    s' := RunSection(cfg, origin, base, s, t, RegistryPut(ep), box, 0.0);
    if ep.mailbox { s' := RunSection(cfg, origin, base, s', t, MailboxDefault(ep.agentId), rest, 0.0); }
  }

  lemma RunRegisterRest(cfg: Config, origin: State, base: State, s: State, t: nat, ep: Endpoint, caps: Object,
                        given: Option<int>, now: real) returns (s': State)
    requires At(cfg, origin, base, s, t, RegisterRest(ep, caps, given))
    ensures At(cfg, origin, base, s', t, Done)
    ensures var isNew := s.threads[t].vars.endpoint.None?;
            && s'.maps == StampRegistration(PutCapabilities(s.maps, ep.agentId, caps), ep.agentId, now, given, isNew,
                                            cfg.defaultTtl)
            && s'.threads[t].status == Some(if isNew then 201 else 200)
    ensures s'.log == s.log && s'.removals == s.removals
  {
    var answer := If(Found, Answer(200), Answer(201));
    var stamp := Section(HeartbeatStamp(ep.agentId, given), answer);
    var s4 := RunSection(cfg, origin, base, s, t, CapabilitiesPut(ep.agentId, caps), stamp, now);
    var s5 := RunSection(cfg, origin, base, s4, t, HeartbeatStamp(ep.agentId, given), answer, now);
    var s6 := RunFork(cfg, origin, base, s5, t, Found, Answer(200), Answer(201), false);
    s' := RunAnswer(cfg, origin, base, s6, t, if s.threads[t].vars.endpoint.Some? then 200 else 201);
  }

  lemma RunRemoveAll(cfg: Config, origin: State, base: State, s: State, t: nat, a: AgentId, k: Prog) returns (s': State)
    requires At(cfg, origin, base, s, t, RemoveAll(a, k))
    ensures At(cfg, origin, base, s', t, k)
    ensures s'.maps == Removed(s.maps, a)
    ensures s'.log == s.log
    ensures s'.removals == s.removals + if a in s.maps.mailboxes then [Dropped(a, s.maps.mailboxes[a])] else []
    ensures s'.threads[t].vars == s.threads[t].vars && s'.threads[t].status == s.threads[t].status
  {
    var p4 := Section(MailboxDrop(a), k);
    var p3 := Section(HeartbeatDrop(a), p4);
    var p2 := Section(CapabilitiesDrop(a), p3);
    var s1 := RunSection(cfg, origin, base, s, t, RegistryDrop(a), p2, 0.0);
    var s2 := RunSection(cfg, origin, base, s1, t, CapabilitiesDrop(a), p3, 0.0);
    var s3 := RunSection(cfg, origin, base, s2, t, HeartbeatDrop(a), p4, 0.0);
    s' := RunSection(cfg, origin, base, s3, t, MailboxDrop(a), k, 0.0);
  }

  lemma RunDeregister(cfg: Config, origin: State, s: State, t: nat, who: string, a: AgentId) returns (s': State)
    requires Runs(cfg, origin, s) && Starting(cfg, s, t, who, DeregisterJob(a))
    ensures At(cfg, origin, s, s', t, Done)
    ensures s'.maps == Removed(s.maps, a) && s'.threads[t].status == Some(204)
    ensures s'.log == s.log
    ensures s'.removals == s.removals + if a in s.maps.mailboxes then [Dropped(a, s.maps.mailboxes[a])] else []
  {
    var s0 := RunAdmit(cfg, origin, s, s, t, who, RemoveAll(a, Answer(204)));
    var s1 := RunRemoveAll(cfg, origin, s, s0, t, a, Answer(204));
    s' := RunAnswer(cfg, origin, s, s1, t, 204);
  }

  /** The send has looked its recipient up, found a mailbox, and is about to queue. */
  lemma SendLooksUp(cfg: Config, origin: State, s: State, t: nat, who: string, a: AgentId) returns (s': State)
    requires Runs(cfg, origin, s) && Starting(cfg, s, t, who, SendJob(a))
    requires a in s.maps.registry && s.maps.registry[a].mailbox
    ensures At(cfg, origin, s, s', t, QueueFor(a))
    ensures s'.maps == s.maps && s'.log == s.log && s'.removals == s.removals && s'.threads[t].status == None
  {
    var s0 := RunAdmit(cfg, origin, s, s, t, who, Send(a));
    var choose := If(FoundMailbox, QueueFor(a), Route(a));
    var s1 := RunSection(cfg, origin, s, s0, t, RegistryLookup(a), If(Found, choose, Refuse()), 0.0);
    var s2 := RunFork(cfg, origin, s, s1, t, Found, choose, Refuse(), false);
    s' := RunFork(cfg, origin, s, s2, t, FoundMailbox, QueueFor(a), Route(a), false);
  }

  lemma SendQueues(cfg: Config, origin: State, base: State, s: State, t: nat, a: AgentId) returns (s': State)
    requires At(cfg, origin, base, s, t, QueueFor(a))
    ensures At(cfg, origin, base, s', t, Done)
    ensures s'.maps == PutQueue(s.maps, a, Queue(s.maps, a) + [t])
    ensures s'.log == s.log + [Entry(a, t)] && s'.removals == s.removals && s'.threads[t].status == Some(202)
  {
    var s4 := RunQueueing(cfg, origin, base, s, t, a, Section(TrafficAppend, Answer(202)));
    var s5 := RunSection(cfg, origin, base, s4, t, TrafficAppend, Answer(202), 0.0);
    s' := RunAnswer(cfg, origin, base, s5, t, 202);
  }

  lemma RunQueueing(cfg: Config, origin: State, base: State, s: State, t: nat, a: AgentId, k: Prog) returns (s': State)
    requires At(cfg, origin, base, s, t, Do(Acquire(MailboxCond), Do(Enqueue(a), Do(Release(MailboxCond), k))))
    ensures At(cfg, origin, base, s', t, k)
    ensures s'.maps == PutQueue(s.maps, a, Queue(s.maps, a) + [t])
    ensures s'.log == s.log + [Entry(a, t)] && s'.removals == s.removals
  {
    var c := Choice(0.0, false, "");
    var s1 := Next(cfg, s, t, c);
    RunsStep(cfg, origin, s, Run(t, c));
    var s2 := Next(cfg, s1, t, c);
    RunsStep(cfg, origin, s1, Run(t, c));
    assert s2 == Goto(s, t, Do(Append(a), Do(Release(MailboxCond), k)))
                 .(maps := DefaultMailbox(s.maps, a), holder := map[MailboxCond := t]);
    s' := RunAppend(cfg, origin, base, s2, t, a, k);
  }

  lemma RunAppend(cfg: Config, origin: State, base: State, s: State, t: nat, a: AgentId, k: Prog) returns (s': State)
    requires s.holder == map[MailboxCond := t]
    requires Runs(cfg, origin, s)
    requires t in s.threads && s.threads[t].prog == Do(Append(a), Do(Release(MailboxCond), k))
    requires t in base.threads && s.threads[t].job == base.threads[t].job
    requires s.threads == base.threads[t := s.threads[t]]
    ensures At(cfg, origin, base, s', t, k)
    ensures s'.maps == PutQueue(s.maps, a, Queue(s.maps, a) + [t])
    ensures s'.log == s.log + [Entry(a, t)] && s'.removals == s.removals
  {
    var c := Choice(0.0, false, "");
    var s3 := Next(cfg, s, t, c);
    RunsStep(cfg, origin, s, Run(t, c));
    s' := Next(cfg, s3, t, c);
    RunsStep(cfg, origin, s3, Run(t, c));
    assert s'.holder == map[];
  }

  lemma RunSend(cfg: Config, origin: State, s: State, t: nat, who: string, a: AgentId) returns (s': State)
    requires Runs(cfg, origin, s) && Starting(cfg, s, t, who, SendJob(a))
    requires a in s.maps.registry && s.maps.registry[a].mailbox
    ensures At(cfg, origin, s, s', t, Done)
    ensures s'.maps == PutQueue(s.maps, a, Queue(s.maps, a) + [t])
    ensures s'.log == s.log + [Entry(a, t)] && s'.removals == s.removals && s'.threads[t].status == Some(202)
  {
    var s1 := SendLooksUp(cfg, origin, s, t, who, a);
    s' := SendQueues(cfg, origin, s, s1, t, a);
  }

  /** A poll can heal the registration and then hand over the whole queue, undisturbed. */
  lemma RunPoll(cfg: Config, origin: State, s: State, t: nat, who: string, a: AgentId, now: real) returns (s': State)
    requires Runs(cfg, origin, s) && Starting(cfg, s, t, who, PollJob(a))
    ensures At(cfg, origin, s, s', t, Done) && s'.threads[t].status == Some(200)
    ensures s'.maps == PutQueue(PollStarted(s.maps, a, now, cfg.defaultTtl), a, [])
    ensures s'.log == s.log && s'.removals == s.removals + [Delivered(a, t, Queue(s.maps, a))]
  {
    var s0 := RunAdmit(cfg, origin, s, s, t, who, Poll(a));
    var s2 := RunPeek(cfg, origin, s, s0, t, a, Refresh(a), Heal(a));
    var s3 := s2;
    if a !in s.maps.mailboxes { s3 := RunHeal(cfg, origin, s, s2, t, a, now); }
    s' := RunRefresh(cfg, origin, s, s3, t, a, now);
  }

  lemma RunRefresh(cfg: Config, origin: State, base: State, s: State, t: nat, a: AgentId, now: real)
    returns (s': State)
    requires At(cfg, origin, base, s, t, Refresh(a)) && a in s.maps.mailboxes
    ensures At(cfg, origin, base, s', t, Done) && s'.threads[t].status == Some(200)
    ensures s'.maps == PutQueue(Touch(s.maps, a, now), a, [])
    ensures s'.log == s.log && s'.removals == s.removals + [Delivered(a, t, Queue(s.maps, a))]
  {
    var s1 := RunSection(cfg, origin, base, s, t, HeartbeatTouch(a), Listen(a), now);
    s' := ListenDrains(cfg, origin, base, s1, t, a);
  }

  lemma RunPeek(cfg: Config, origin: State, base: State, s: State, t: nat, a: AgentId, yes: Prog, no: Prog)
    returns (s': State)
    requires At(cfg, origin, base, s, t, Do(PeekMailbox(a), If(HasMailbox, yes, no)))
    ensures At(cfg, origin, base, s', t, if a in s.maps.mailboxes then yes else no)
    ensures s'.maps == s.maps && s'.log == s.log && s'.removals == s.removals
  {
    var c := Choice(0.0, false, "");
    var s1 := Next(cfg, s, t, c);
    RunsStep(cfg, origin, s, Run(t, c));
    s' := RunFork(cfg, origin, base, s1, t, HasMailbox, yes, no, false);
  }

  lemma RunHeal(cfg: Config, origin: State, base: State, s: State, t: nat, a: AgentId, now: real) returns (s': State)
    requires At(cfg, origin, base, s, t, Heal(a))
    ensures At(cfg, origin, base, s', t, Refresh(a))
    ensures s'.maps == AutoRegistered(s.maps, a, now, cfg.defaultTtl)
    ensures s'.log == s.log && s'.removals == s.removals
  {
    var box := Section(MailboxDefault(a), HealRest(a));
    var s1 := RunSection(cfg, origin, base, s, t, RegistryPut(MailboxEndpoint(a)), box, now);
    var s2 := RunSection(cfg, origin, base, s1, t, MailboxDefault(a), HealRest(a), now);
    s' := RunHealRest(cfg, origin, base, s2, t, a, now);
  }

  lemma RunHealRest(cfg: Config, origin: State, base: State, s: State, t: nat, a: AgentId, now: real)
    returns (s': State)
    requires At(cfg, origin, base, s, t, HealRest(a))
    ensures At(cfg, origin, base, s', t, Refresh(a))
    ensures s'.maps == StampDefault(DefaultCapabilities(s.maps, a), a, now, cfg.defaultTtl)
    ensures s'.log == s.log && s'.removals == s.removals
  {
    var p4 := Section(AuditWrite, Refresh(a));
    var p3 := Section(HeartbeatDefault(a), p4);
    var s3 := RunSection(cfg, origin, base, s, t, CapabilitiesDefault(a), p3, now);
    var s4 := RunSection(cfg, origin, base, s3, t, HeartbeatDefault(a), p4, now);
    s' := RunSection(cfg, origin, base, s4, t, AuditWrite, Refresh(a), now);
  }

  lemma RunDrain(cfg: Config, origin: State, base: State, s: State, t: nat, a: AgentId, k: Prog) returns (s': State)
    requires At(cfg, origin, base, s, t, Do(Acquire(MailboxCond), Do(PollBox(a), Do(Release(MailboxCond), k))))
    requires a in s.maps.mailboxes
    ensures At(cfg, origin, base, s', t, k)
    ensures s'.maps == PutQueue(s.maps, a, []) && s'.threads[t].status == s.threads[t].status
    ensures s'.log == s.log && s'.removals == s.removals + [Delivered(a, t, Queue(s.maps, a))]
  {
    var c := Choice(0.0, false, "");
    var s1 := Next(cfg, s, t, c);
    RunsStep(cfg, origin, s, Run(t, c));
    var s2 := Next(cfg, s1, t, c);
    RunsStep(cfg, origin, s1, Run(t, c));
    var clear := Do(Clear(a, Queue(s.maps, a)), Do(Release(MailboxCond), k));
    assert s2 == Goto(s, t, clear).(holder := map[MailboxCond := t]);
    s' := RunClear(cfg, origin, base, s2, t, a, k);
  }

  lemma RunClear(cfg: Config, origin: State, base: State, s: State, t: nat, a: AgentId, k: Prog) returns (s': State)
    requires s.holder == map[MailboxCond := t] && Runs(cfg, origin, s)
    requires t in s.threads && s.threads[t].prog == Do(Clear(a, Queue(s.maps, a)), Do(Release(MailboxCond), k))
    requires t in base.threads && s.threads[t].job == base.threads[t].job
    requires s.threads == base.threads[t := s.threads[t]]
    ensures At(cfg, origin, base, s', t, k)
    ensures s'.maps == PutQueue(s.maps, a, []) && s'.threads[t].status == s.threads[t].status
    ensures s'.log == s.log && s'.removals == s.removals + [Delivered(a, t, Queue(s.maps, a))]
  {
    var c := Choice(0.0, false, "");
    var s1 := Next(cfg, s, t, c);
    RunsStep(cfg, origin, s, Run(t, c));
    s' := Next(cfg, s1, t, c);
    RunsStep(cfg, origin, s1, Run(t, c));
    assert s'.holder == map[];
  }

  lemma ListenDrains(cfg: Config, origin: State, base: State, s: State, t: nat, a: AgentId) returns (s': State)
    requires At(cfg, origin, base, s, t, Listen(a)) && a in s.maps.mailboxes
    ensures At(cfg, origin, base, s', t, Done) && s'.threads[t].status == Some(200)
    ensures s'.maps == PutQueue(s.maps, a, [])
    ensures s'.log == s.log && s'.removals == s.removals + [Delivered(a, t, Queue(s.maps, a))]
  {
    var s1 := RunDrain(cfg, origin, base, s, t, a, Answer(200));
    s' := RunAnswer(cfg, origin, base, s1, t, 200);
  }

  /** A sweep can evict exactly the agents whose time is up, undisturbed. */
  lemma RunSweep(cfg: Config, origin: State, s: State, t: nat, who: string, now: real) returns (s': State)
    requires Runs(cfg, origin, s) && Starting(cfg, s, t, who, SweepJob) && Keyed(s.maps)
    ensures At(cfg, origin, s, s', t, Done)
    ensures s'.maps == Swept(s.maps, now, cfg.mailboxGrace) && s'.log == s.log
  {
    var loop := Do(ForEachEndpoint, Done);
    var s1 := RunSection(cfg, origin, s, s, t, RegistryList, loop, now);
    assert SweptAmong(s.maps, now, cfg.mailboxGrace, {}) == s.maps by {
      assert EvictedAmong(s.maps, now, cfg.mailboxGrace, {}) == {};
    }
    assert s.maps.registry - {} == s.maps.registry;
    s' := RunSweepLoop(cfg, origin, s, s1, t, s.maps, now, {});
  }

  lemma {:induction false} RunSweepLoop(cfg: Config, origin: State, base: State, s: State, t: nat, before: Maps<nat>,
                                        now: real, done: set<AgentId>) returns (s': State)
    requires At(cfg, origin, base, s, t, Do(ForEachEndpoint, Done)) && Keyed(before)
    requires s.threads[t].vars.endpoints == before.registry - done && s.threads[t].vars.sweepTime == now
    requires s.maps == SweptAmong(before, now, cfg.mailboxGrace, done)
    ensures At(cfg, origin, base, s', t, Done)
    ensures s'.maps == Swept(before, now, cfg.mailboxGrace) && s'.log == s.log
    decreases s.threads[t].vars.endpoints.Keys
  {
    var left := s.threads[t].vars.endpoints;
    if left == map[] {
      var c := Choice(0.0, false, "");
      s' := Next(cfg, s, t, c);
      RunsStep(cfg, origin, s, Run(t, c));
      forall a <- before.registry ensures a in done {
        assert a in done || a in before.registry - done;
      }
      SweepAll(before, now, cfg.mailboxGrace, done);
    } else {
      var a :| a in left;
      var s1 := RunSweepRound(cfg, origin, base, s, t, a);
      SweepRound(before, now, cfg.mailboxGrace, done, a);
      assert left - {a} == before.registry - (done + {a});
      s' := RunSweepLoop(cfg, origin, base, s1, t, before, now, done + {a});
    }
  }

  lemma RunPick(cfg: Config, origin: State, base: State, s: State, t: nat, a: AgentId) returns (s': State)
    requires At(cfg, origin, base, s, t, Do(ForEachEndpoint, Done)) && a in s.threads[t].vars.endpoints
    ensures var v := s.threads[t].vars;
            && At(cfg, origin, base, s', t, SweepOne(v.endpoints[a], Do(ForEachEndpoint, Done)))
            && s'.threads[t].vars == v.(endpoints := v.endpoints - {a})
            && s'.maps == s.maps && s'.log == s.log
  {
    var c := Choice(0.0, false, a);
    s' := Next(cfg, s, t, c);
    RunsStep(cfg, origin, s, Run(t, c));
  }

  lemma RunJudgement(cfg: Config, origin: State, base: State, s: State, t: nat, ep: Endpoint, k: Prog)
    returns (s': State)
    requires At(cfg, origin, base, s, t, SweepOne(ep, k))
    ensures At(cfg, origin, base, s', t, k)
    ensures var v := s.threads[t].vars;
            && s'.maps == (if Expired(s.maps, ep, v.sweepTime, cfg.mailboxGrace) then Removed(s.maps, ep.agentId)
                           else s.maps)
            && s'.threads[t].vars.endpoints == v.endpoints && s'.threads[t].vars.sweepTime == v.sweepTime
            && s'.log == s.log
  {
    var remove := RemoveAll(ep.agentId, k);
    var s1 := RunSection(cfg, origin, base, s, t, HeartbeatRead(ep), If(IsExpired, remove, k), 0.0);
    s' := RunFork(cfg, origin, base, s1, t, IsExpired, remove, k, false);
    if s1.threads[t].vars.expired { s' := RunRemoveAll(cfg, origin, base, s', t, ep.agentId, k); }
  }

  lemma RunSweepRound(cfg: Config, origin: State, base: State, s: State, t: nat, a: AgentId) returns (s': State)
    requires At(cfg, origin, base, s, t, Do(ForEachEndpoint, Done))
    requires a in s.threads[t].vars.endpoints && s.threads[t].vars.endpoints[a].agentId == a
    ensures At(cfg, origin, base, s', t, Do(ForEachEndpoint, Done))
    ensures var v := s.threads[t].vars;
            && s'.maps == (if Expired(s.maps, v.endpoints[a], v.sweepTime, cfg.mailboxGrace) then Removed(s.maps, a)
                           else s.maps)
            && s'.threads[t].vars.endpoints == v.endpoints - {a} && s'.threads[t].vars.sweepTime == v.sweepTime
            && s'.log == s.log
  {
    var s1 := RunPick(cfg, origin, base, s, t, a);
    s' := RunJudgement(cfg, origin, base, s1, t, s.threads[t].vars.endpoints[a], Do(ForEachEndpoint, Done));
  }

  // ---- and interrupted -----------------------------------------------------------

  lemma Launch(cfg: Config, origin: State, s: State, t: nat, who: string, job: Job) returns (s': State)
    requires Runs(cfg, origin, s) && t !in s.threads && s.holder == map[]
    ensures Runs(cfg, origin, s') && Starting(cfg, s', t, who, job)
    ensures s'.maps == s.maps && s'.log == s.log && s'.removals == s.removals
    ensures s'.threads == s.threads[t := s'.threads[t]]
  {
    s' := Step(cfg, s, Spawn(t, who, job));
    RunsStep(cfg, origin, s, Spawn(t, who, job));
  }

  lemma RegisteredMailbox(cfg: Config, a: AgentId) returns (s: State)
    ensures Runs(cfg, START, s) && s.holder == map[] && s.threads.Keys == {0}
    ensures s.maps == Registered(Empty(), MailboxEndpoint(a), map[], None, 0.0, cfg.defaultTtl)
  {
    RunsNowhere(cfg, START);
    var s0 := Launch(cfg, START, START, 0, "", RegisterJob(MailboxEndpoint(a), map[], None));
    s := RunRegister(cfg, START, s0, 0, "", MailboxEndpoint(a), map[], None, 0.0);
  }

  /**
   * The dictionaries can disagree for good. A send looks up a mailbox agent, the agent
   * deregisters, and only then does the send queue its message: the sender is told 202,
   * yet the recipient is unregistered, and because it owns a mailbox again, the
   * re-registration that polls perform is skipped.
   */
  lemma InterleavingOrphansMailbox(cfg: Config, a: AgentId) returns (s: State)
    ensures Reachable(cfg, s)
    ensures a in s.maps.mailboxes && a !in s.maps.registry && a !in s.maps.ttl
    ensures s.maps.mailboxes[a] == [1] && 1 in s.threads && s.threads[1].status == Some(202)
    ensures forall now :: PollStarted(s.maps, a, now, cfg.defaultTtl) == s.maps
  {
    var s1 := RegisteredMailbox(cfg, a);
    var s2 := Launch(cfg, START, s1, 1, "", SendJob(a));
    var s3 := SendLooksUp(cfg, START, s2, 1, "", a);
    var s4 := Launch(cfg, START, s3, 2, "", DeregisterJob(a));
    var s5 := RunDeregister(cfg, START, s4, 2, "", a);
    assert s5.threads == s5.threads[1 := s5.threads[1]];
    s := SendQueues(cfg, START, s5, s5, 1, a);
  }
}
