/**
 * Whatever the scheduler, the clock and the loop orders do: a handler that runs without
 * interruption has exactly its serial meaning.
 */
module BrokerThreadsAlone {
  import opened Wrappers
  import opened BrokerState
  import opened LockPrograms
  import opened BrokerThreads

  /** Only `t` steps on the way from `s` to `s'`. */
  ghost predicate Solo(cfg: Config, s: State, t: nat, choices: seq<Choice>, s': State)
    decreases |choices|
  {
    if choices == [] then s == s'
    else Enabled(s, t, choices[0]) && Solo(cfg, Next(cfg, s, t, choices[0]), t, choices[1..], s')
  }

  /** The clock readings of a run. */
  function Clocks(choices: seq<Choice>): set<real> {
    set c | c in choices :: c.now
  }

  /** What `job`, started on `m0` and taken as one step, may leave and answer. */
  ghost predicate Serial(cfg: Config, t: nat, job: Job, m0: Maps<nat>, clocks: set<real>, m: Maps<nat>,
                         status: Option<int>) {
    if status == Some(429) then cfg.limited && m == m0
    else
      match job
      case RegisterJob(ep, caps, given) =>
        && status == Some(if ep.agentId in m0.registry then 200 else 201)
        && exists now <- clocks :: m == Registered(m0, ep, caps, given, now, cfg.defaultTtl)
      case DeregisterJob(a) => status == Some(204) && m == Removed(m0, a)
      case SendJob(b) =>
        if b !in m0.registry then status == Some(404) && m == m0
        else if m0.registry[b].mailbox then status == Some(202) && m == PutQueue(m0, b, Queue(m0, b) + [t])
        else status in {Some(200), Some(204), Some(502)} && m == m0
      case PollJob(a) =>
        && status == Some(200)
        && exists now <- clocks :: m == PutQueue(PollStarted(m0, a, now, cfg.defaultTtl), a, [])
      case AgentsJob => status == Some(200) && m == m0
      case TrafficJob => status == Some(200) && m == m0
      case SweepJob => status == None && exists now <- clocks :: m == Swept(m0, now, cfg.mailboxGrace)
  }

  /** However `p` is run to its end from here without interruption, the result is a serial one. */
  ghost predicate Ends(cfg: Config, t: nat, job: Job, m0: Maps<nat>, clocks: set<real>, p: Prog, v: Vars, m: Maps<nat>,
                       status: Option<int>)
    decreases p
  {
    match p
    case Done => Serial(cfg, t, job, m0, clocks, m, status)
    case If(test, yes, no) =>
      && (MayHold(v, test) ==> Ends(cfg, t, job, m0, clocks, yes, v, m, status))
      && (MayFail(v, test) ==> Ends(cfg, t, job, m0, clocks, no, v, m, status))
    case Do(i, k) =>
      match i
      case Access(op) =>
        forall now <- clocks ::
          Ends(cfg, t, job, m0, clocks, k, Read(cfg, op, m, v, now), Apply(cfg, op, m, v, now), status)
      case PeekMailbox(a) => Ends(cfg, t, job, m0, clocks, k, v.(hasMailbox := a in m.mailboxes), m, status)
      case Enqueue(a) => Ends(cfg, t, job, m0, clocks, k, v, PutQueue(m, a, Queue(m, a) + [t]), status)
      case Append(a) => Ends(cfg, t, job, m0, clocks, k, v, PutQueue(m, a, Queue(m, a) + [t]), status)
      case PollBox(a) =>
        if a in m.mailboxes then Ends(cfg, t, job, m0, clocks, k, v, PutQueue(m, a, []), status)
        else Serial(cfg, t, job, m0, clocks, m, Some(200))
      case Clear(a, _) => Ends(cfg, t, job, m0, clocks, k, v, PutQueue(m, a, []), status)
      case ForEachEndpoint =>
        && job.SweepJob? && k == Done && status == None && v.sweepTime in clocks
        && v.endpoints == m0.registry - Judged(m0, v)
        && m == SweptAmong(m0, v.sweepTime, cfg.mailboxGrace, Judged(m0, v))
      case ForEachAgent => forall v' :: Ends(cfg, t, job, m0, clocks, k, v', m, status)
      case Respond(code) => Ends(cfg, t, job, m0, clocks, k, v, m, Some(code))
      case Acquire(_) => Ends(cfg, t, job, m0, clocks, k, v, m, status)
      case Release(_) => Ends(cfg, t, job, m0, clocks, k, v, m, status)
      case Asleep => Ends(cfg, t, job, m0, clocks, k, v, m, status)
  }

  predicate MayHold(v: Vars, test: Test) {
    test.Oracle? || Holds(v, test, Choice(0.0, true, ""))
  }

  predicate MayFail(v: Vars, test: Test) {
    test.Oracle? || !Holds(v, test, Choice(0.0, true, ""))
  }

  /** The agents that the sweep loop has dealt with. */
  ghost function Judged(m0: Maps<nat>, v: Vars): set<AgentId> {
    m0.registry.Keys - v.endpoints.Keys
  }

  // ---- a step goes on towards the same end -------------------------------------------

  ghost predicate EndsFrom(cfg: Config, s: State, t: nat, m0: Maps<nat>, clocks: set<real>)
    requires t in s.threads
  {
    var th := s.threads[t];
    Ends(cfg, t, th.job, m0, clocks, th.prog, th.vars, s.maps, th.status)
  }

  lemma SectionEnds(cfg: Config, t: nat, job: Job, m0: Maps<nat>, clocks: set<real>, op: Op, k: Prog, v: Vars,
                    m: Maps<nat>, status: Option<int>)
    requires forall now <- clocks ::
               Ends(cfg, t, job, m0, clocks, k, Read(cfg, op, m, v, now), Apply(cfg, op, m, v, now), status)
    ensures Ends(cfg, t, job, m0, clocks, Section(op, k), v, m, status)
  {
    var q := Do(Release(LockOf(op)), k);
    forall now <- clocks
      ensures Ends(cfg, t, job, m0, clocks, q, Read(cfg, op, m, v, now), Apply(cfg, op, m, v, now), status)
    {
    }
    assert Ends(cfg, t, job, m0, clocks, Do(Access(op), q), v, m, status);
  }

  lemma DropSectionEnds(cfg: Config, t: nat, job: Job, m0: Maps<nat>, clocks: set<real>, op: Op, k: Prog, v: Vars,
                        m: Maps<nat>, status: Option<int>)
    requires op.RegistryDrop? || op.CapabilitiesDrop? || op.HeartbeatDrop? || op.MailboxDrop?
    requires Ends(cfg, t, job, m0, clocks, k, v, Apply(cfg, op, m, v, 0.0), status)
    ensures Ends(cfg, t, job, m0, clocks, Section(op, k), v, m, status)
  {
    forall now <- clocks
      ensures Ends(cfg, t, job, m0, clocks, k, Read(cfg, op, m, v, now), Apply(cfg, op, m, v, now), status)
    {
      assert Read(cfg, op, m, v, now) == v && Apply(cfg, op, m, v, now) == Apply(cfg, op, m, v, 0.0);
    }
    SectionEnds(cfg, t, job, m0, clocks, op, k, v, m, status);
  }

  /** The second half of a removal. */
  lemma ForgetEnds(cfg: Config, t: nat, job: Job, m0: Maps<nat>, clocks: set<real>, a: AgentId, k: Prog, v: Vars,
                   m: Maps<nat>, status: Option<int>)
    requires Ends(cfg, t, job, m0, clocks, k, v, DropMailbox(DropHeartbeat(m, a), a), status)
    ensures Ends(cfg, t, job, m0, clocks, Section(HeartbeatDrop(a), Section(MailboxDrop(a), k)), v, m, status)
  {
    DropSectionEnds(cfg, t, job, m0, clocks, MailboxDrop(a), k, v, DropHeartbeat(m, a), status);
    DropSectionEnds(cfg, t, job, m0, clocks, HeartbeatDrop(a), Section(MailboxDrop(a), k), v, m, status);
  }

  lemma UnregisterEnds(cfg: Config, t: nat, job: Job, m0: Maps<nat>, clocks: set<real>, a: AgentId, k: Prog, v: Vars,
                       m: Maps<nat>, status: Option<int>)
    requires Ends(cfg, t, job, m0, clocks, k, v, DropCapabilities(DropEndpoint(m, a), a), status)
    ensures Ends(cfg, t, job, m0, clocks, Section(RegistryDrop(a), Section(CapabilitiesDrop(a), k)), v, m, status)
  {
    DropSectionEnds(cfg, t, job, m0, clocks, CapabilitiesDrop(a), k, v, DropEndpoint(m, a), status);
    DropSectionEnds(cfg, t, job, m0, clocks, RegistryDrop(a), Section(CapabilitiesDrop(a), k), v, m, status);
  }

  lemma RemoveAllEnds(cfg: Config, t: nat, job: Job, m0: Maps<nat>, clocks: set<real>, a: AgentId, k: Prog, v: Vars,
                      m: Maps<nat>, status: Option<int>)
    requires Ends(cfg, t, job, m0, clocks, k, v, Removed(m, a), status)
    ensures Ends(cfg, t, job, m0, clocks, RemoveAll(a, k), v, m, status)
  {
    var rest := Section(HeartbeatDrop(a), Section(MailboxDrop(a), k));
    ForgetEnds(cfg, t, job, m0, clocks, a, k, v, DropCapabilities(DropEndpoint(m, a), a), status);
    UnregisterEnds(cfg, t, job, m0, clocks, a, rest, v, m, status);
  }

  /** The loop's invariant after one more agent, evicted or not. */
  lemma JudgedOneMore(cfg: Config, t: nat, job: Job, m0: Maps<nat>, clocks: set<real>, loop: Prog, v: Vars,
                      m: Maps<nat>, a: AgentId, expired: bool)
    requires loop.Do? && loop.instr.ForEachEndpoint? && Ends(cfg, t, job, m0, clocks, loop, v, m, None)
    requires Keyed(m0) && a in v.endpoints && expired == Expired(m, m0.registry[a], v.sweepTime, cfg.mailboxGrace)
    ensures var v' := v.(endpoints := v.endpoints - {a}, expired := expired);
            Ends(cfg, t, job, m0, clocks, loop, v', if expired then Removed(m, a) else m, None)
  {
    var done := Judged(m0, v);
    var v' := v.(endpoints := v.endpoints - {a}, expired := expired);
    assert Judged(m0, v') == done + {a};
    assert m0.registry - (done + {a}) == v'.endpoints;
    SweepRound(m0, v.sweepTime, cfg.mailboxGrace, done, a);
  }

  /** Another endpoint of the sweep's snapshot, whichever it is. */
  lemma PickEnds(cfg: Config, s: State, t: nat, c: Choice, m0: Maps<nat>, clocks: set<real>)
    requires Enabled(s, t, c) && s.threads[t].prog.Do? && s.threads[t].prog.instr.ForEachEndpoint?
    requires EndsFrom(cfg, s, t, m0, clocks) && c.pick in s.threads[t].vars.endpoints && Keyed(m0)
    ensures EndsFrom(cfg, Next(cfg, s, t, c), t, m0, clocks)
  {
    var th := s.threads[t];
    var a, ep, loop := c.pick, th.vars.endpoints[c.pick], th.prog;
    assert ep == m0.registry[a] && ep.agentId == a && th.status == None;
    var v' := th.vars.(endpoints := th.vars.endpoints - {a});
    var expired := Expired(s.maps, ep, v'.sweepTime, cfg.mailboxGrace);
    JudgedOneMore(cfg, t, th.job, m0, clocks, loop, th.vars, s.maps, a, expired);
    RoundEnds(cfg, t, th.job, m0, clocks, ep, loop, v', s.maps);
  }

  lemma RoundEnds(cfg: Config, t: nat, job: Job, m0: Maps<nat>, clocks: set<real>, ep: Endpoint, loop: Prog, v: Vars,
                  m: Maps<nat>)
    requires var expired := Expired(m, ep, v.sweepTime, cfg.mailboxGrace);
             Ends(cfg, t, job, m0, clocks, loop, v.(expired := expired),
                  if expired then Removed(m, ep.agentId) else m, None)
    ensures Ends(cfg, t, job, m0, clocks, SweepOne(ep, loop), v, m, None)
  {
    var expired := Expired(m, ep, v.sweepTime, cfg.mailboxGrace);
    var v' := v.(expired := expired);
    var fork := If(IsExpired, RemoveAll(ep.agentId, loop), loop);
    if expired { RemoveAllEnds(cfg, t, job, m0, clocks, ep.agentId, loop, v', m, None); }
    assert Ends(cfg, t, job, m0, clocks, fork, v', m, None);
    SectionEnds(cfg, t, job, m0, clocks, HeartbeatRead(ep), fork, v, m, None);
  }

  lemma LoopEnds(cfg: Config, s: State, t: nat, c: Choice, m0: Maps<nat>, clocks: set<real>)
    requires Enabled(s, t, c) && s.threads[t].prog.Do? && s.threads[t].prog.instr.ForEachEndpoint?
    requires EndsFrom(cfg, s, t, m0, clocks) && c.pick !in s.threads[t].vars.endpoints
    ensures EndsFrom(cfg, Next(cfg, s, t, c), t, m0, clocks)
  {
    var v := s.threads[t].vars;
    assert v.endpoints == map[];
    assert m0.registry.Keys <= Judged(m0, v);
    SweepAll(m0, v.sweepTime, cfg.mailboxGrace, Judged(m0, v));
    assert s.maps == Swept(m0, v.sweepTime, cfg.mailboxGrace);
  }

  lemma AgentsEnds(cfg: Config, s: State, t: nat, c: Choice, m0: Maps<nat>, clocks: set<real>)
    requires Enabled(s, t, c) && s.threads[t].prog.Do? && s.threads[t].prog.instr.ForEachAgent?
    requires EndsFrom(cfg, s, t, m0, clocks)
    ensures EndsFrom(cfg, Next(cfg, s, t, c), t, m0, clocks)
  {
    var th := s.threads[t];
    var loop := th.prog;
    forall v ensures Ends(cfg, t, th.job, m0, clocks, loop, v, s.maps, th.status) {}
    if c.pick in th.vars.agents {
      var v := Next(cfg, s, t, c).threads[t].vars;
      SectionEnds(cfg, t, th.job, m0, clocks, RegistryLookup(c.pick), loop, v, s.maps, th.status);
    }
  }

  lemma AccessEnds(cfg: Config, s: State, t: nat, c: Choice, m0: Maps<nat>, clocks: set<real>)
    requires Enabled(s, t, c) && s.threads[t].prog.Do? && s.threads[t].prog.instr.Access? && c.now in clocks
    requires EndsFrom(cfg, s, t, m0, clocks)
    ensures EndsFrom(cfg, Next(cfg, s, t, c), t, m0, clocks)
  {
  }

  lemma PollEnds(cfg: Config, s: State, t: nat, c: Choice, m0: Maps<nat>, clocks: set<real>)
    requires Enabled(s, t, c) && s.threads[t].prog.Do? && s.threads[t].prog.instr.PollBox?
    requires EndsFrom(cfg, s, t, m0, clocks)
    ensures EndsFrom(cfg, Next(cfg, s, t, c), t, m0, clocks)
  {
    var th := s.threads[t];
    var a := th.prog.instr.a;
    if a !in s.maps.mailboxes {
      var leave := Do(Release(MailboxCond), Done);
      assert Ends(cfg, t, th.job, m0, clocks, leave, th.vars, s.maps, Some(200));
    } else if s.maps.mailboxes[a] == [] && c.yes {
      var back := Do(Acquire(MailboxCond), th.prog);
      assert Ends(cfg, t, th.job, m0, clocks, back, th.vars, s.maps, th.status);
    }
  }

  lemma StepEnds(cfg: Config, s: State, t: nat, c: Choice, m0: Maps<nat>, clocks: set<real>)
    requires Enabled(s, t, c) && c.now in clocks && EndsFrom(cfg, s, t, m0, clocks) && Keyed(m0)
    ensures EndsFrom(cfg, Next(cfg, s, t, c), t, m0, clocks)
  {
    var th := s.threads[t];
    if th.prog.Do? {
      match th.prog.instr
      case Access(_) => AccessEnds(cfg, s, t, c, m0, clocks);
      case PollBox(_) => PollEnds(cfg, s, t, c, m0, clocks);
      case ForEachAgent => AgentsEnds(cfg, s, t, c, m0, clocks);
      case ForEachEndpoint =>
        if c.pick in th.vars.endpoints {
          PickEnds(cfg, s, t, c, m0, clocks);
        } else {
          LoopEnds(cfg, s, t, c, m0, clocks);
        }
      case Enqueue(a) => EnqueueEnds(cfg, s, t, c, m0, clocks);
      case _ =>
    }
  }

  lemma EnqueueEnds(cfg: Config, s: State, t: nat, c: Choice, m0: Maps<nat>, clocks: set<real>)
    requires Enabled(s, t, c) && s.threads[t].prog.Do? && s.threads[t].prog.instr.Enqueue?
    requires EndsFrom(cfg, s, t, m0, clocks)
    ensures EndsFrom(cfg, Next(cfg, s, t, c), t, m0, clocks)
  {
    var a := s.threads[t].prog.instr.a;
    var m := DefaultMailbox(s.maps, a);
    assert PutQueue(m, a, Queue(m, a) + [t]) == PutQueue(s.maps, a, Queue(s.maps, a) + [t]);
  }

  lemma {:induction false} SoloEnds(cfg: Config, s: State, t: nat, choices: seq<Choice>, s': State, m0: Maps<nat>,
                                    clocks: set<real>)
    requires Solo(cfg, s, t, choices, s') && t in s.threads && EndsFrom(cfg, s, t, m0, clocks) && Keyed(m0)
    requires Clocks(choices) <= clocks
    ensures t in s'.threads && EndsFrom(cfg, s', t, m0, clocks) && s'.threads[t].job == s.threads[t].job
    decreases |choices|
  {
    if choices != [] {
      assert choices[0].now in Clocks(choices);
      StepEnds(cfg, s, t, choices[0], m0, clocks);
      assert Next(cfg, s, t, choices[0]).threads[t].job == s.threads[t].job;
      SoloEnds(cfg, Next(cfg, s, t, choices[0]), t, choices[1..], s', m0, clocks);
    }
  }

  // ---- every handler ends serially ----------------------------------------------------

  /** A job and the state it started on. */
  datatype Start = Start(cfg: Config, t: nat, job: Job, m0: Maps<nat>, clocks: set<real>)

  /** `p` ends serially with these variables and dictionaries; it has not answered yet. */
  ghost predicate Good(x: Start, p: Prog, v: Vars, m: Maps<nat>) {
    Ends(x.cfg, x.t, x.job, x.m0, x.clocks, p, v, m, None)
  }

  ghost predicate GoodAnswer(x: Start, m: Maps<nat>, status: int) {
    Serial(x.cfg, x.t, x.job, x.m0, x.clocks, m, Some(status))
  }

  lemma SectionGood(x: Start, op: Op, k: Prog, v: Vars, m: Maps<nat>)
    requires forall now <- x.clocks :: Good(x, k, Read(x.cfg, op, m, v, now), Apply(x.cfg, op, m, v, now))
    ensures Good(x, Section(op, k), v, m)
  {
    SectionEnds(x.cfg, x.t, x.job, x.m0, x.clocks, op, k, v, m, None);
  }

  lemma AnswerGood(x: Start, status: int, v: Vars, m: Maps<nat>)
    requires GoodAnswer(x, m, status)
    ensures Good(x, Answer(status), v, m)
  {
    var k := Do(Respond(status), Done);
    assert Good(x, k, v, m) by {
      assert Ends(x.cfg, x.t, x.job, x.m0, x.clocks, Done, v, m, Some(status));
    }
    SectionGood(x, AuditWrite, k, v, m);
  }

  lemma RefusalGood(x: Start, v: Vars)
    requires x.cfg.limited
    ensures Good(x, Do(Respond(429), Done), v, x.m0)
  {
    assert Ends(x.cfg, x.t, x.job, x.m0, x.clocks, Done, v, x.m0, Some(429));
  }

  lemma AdmitGood(x: Start, who: string, k: Prog)
    requires Good(x, k, FRESH, x.m0)
    ensures Good(x, Admit(x.cfg.limited, who, k), FRESH, x.m0)
  {
    if x.cfg.limited {
      RefusalGood(x, FRESH);
      var fork := If(Oracle, Do(Respond(429), Done), k);
      assert Good(x, fork, FRESH, x.m0);
      UnchangedSectionGood(x, BucketConsume(who), fork, FRESH, x.m0);
      UnchangedSectionGood(x, BucketFind, Section(BucketConsume(who), fork), FRESH, x.m0);
    }
  }

  lemma UnchangedSectionGood(x: Start, op: Op, k: Prog, v: Vars, m: Maps<nat>)
    requires op.BucketFind? || op.BucketConsume? || op.AuditWrite? || op.TrafficAppend?
    requires Good(x, k, v, m)
    ensures Good(x, Section(op, k), v, m)
  {
    SectionGood(x, op, k, v, m);
  }

  /** The end of a registration, from what its first lookup found. */
  lemma RegisterRestGood(x: Start, v: Vars, m: Maps<nat>)
    requires x.job.RegisterJob?
    requires v.endpoint.Some? <==> x.job.ep.agentId in x.m0.registry
    requires var ep := x.job.ep; var m1 := PutEndpoint(x.m0, ep);
             m == if ep.mailbox then DefaultMailbox(m1, ep.agentId) else m1
    ensures Good(x, RegisterRest(x.job.ep, x.job.caps, x.job.given), v, m)
  {
    var ep, caps, given := x.job.ep, x.job.caps, x.job.given;
    var a := ep.agentId;
    var m3 := PutCapabilities(m, a, caps);
    var fork := If(Found, Answer(200), Answer(201));
    var stamp := HeartbeatStamp(a, given);
    forall now <- x.clocks ensures Good(x, fork, v, Apply(x.cfg, stamp, m3, v, now)) {
      var m4 := Apply(x.cfg, stamp, m3, v, now);
      assert m4 == Registered(x.m0, ep, caps, given, now, x.cfg.defaultTtl);
      if v.endpoint.Some? { AnswerGood(x, 200, v, m4); } else { AnswerGood(x, 201, v, m4); }
    }
    SectionGood(x, stamp, fork, v, m3);
    SectionGood(x, CapabilitiesPut(a, caps), Section(stamp, fork), v, m);
  }

  lemma RegisterGood(x: Start)
    requires x.job.RegisterJob?
    ensures Good(x, Register(x.job.ep, x.job.caps, x.job.given), FRESH, x.m0)
  {
    var ep := x.job.ep;
    var a := ep.agentId;
    var v := Read(x.cfg, RegistryLookup(a), x.m0, FRESH, 0.0);
    var m1 := PutEndpoint(x.m0, ep);
    var rest := RegisterRest(ep, x.job.caps, x.job.given);
    RegisterRestGood(x, v, if ep.mailbox then DefaultMailbox(m1, a) else m1);
    if ep.mailbox { SectionGood(x, MailboxDefault(a), rest, v, m1); }
    var box := if ep.mailbox then Section(MailboxDefault(a), rest) else rest;
    SectionGood(x, RegistryPut(ep), box, v, x.m0);
    SectionGood(x, RegistryLookup(a), Section(RegistryPut(ep), box), FRESH, x.m0);
  }

  lemma DeregisterGood(x: Start)
    requires x.job.DeregisterJob?
    ensures Good(x, RemoveAll(x.job.a, Answer(204)), FRESH, x.m0)
  {
    AnswerGood(x, 204, FRESH, Removed(x.m0, x.job.a));
    RemoveAllEnds(x.cfg, x.t, x.job, x.m0, x.clocks, x.job.a, Answer(204), FRESH, x.m0, None);
  }

  lemma RefuseGood(x: Start, v: Vars)
    requires x.job.SendJob? && x.job.recipient !in x.m0.registry
    ensures Good(x, Refuse(), v, x.m0)
  {
    AnswerGood(x, 404, v, x.m0);
    SectionGood(x, TrafficAppend, Answer(404), v, x.m0);
  }

  lemma RouteGood(x: Start, v: Vars)
    requires x.job.SendJob? && x.job.recipient in x.m0.registry && !x.m0.registry[x.job.recipient].mailbox
    ensures Good(x, Route(x.job.recipient), v, x.m0)
  {
    var v' := Read(x.cfg, RegistryLookup(x.job.recipient), x.m0, v, 0.0);
    AnswerGood(x, 200, v', x.m0);
    AnswerGood(x, 204, v', x.m0);
    AnswerGood(x, 502, v', x.m0);
    var success := If(Oracle, Answer(200), Answer(204));
    assert Good(x, success, v', x.m0);
    SectionGood(x, TrafficAppend, success, v', x.m0);
    SectionGood(x, TrafficAppend, Answer(502), v', x.m0);
    var fork := If(Oracle, Section(TrafficAppend, success), Section(TrafficAppend, Answer(502)));
    assert Good(x, fork, v', x.m0);
    assert Good(x, If(Found, fork, Refuse()), v', x.m0);
    SectionGood(x, RegistryLookup(x.job.recipient), If(Found, fork, Refuse()), v, x.m0);
  }

  lemma QueueGood(x: Start, v: Vars)
    requires x.job.SendJob? && x.job.recipient in x.m0.registry && x.m0.registry[x.job.recipient].mailbox
    ensures Good(x, QueueFor(x.job.recipient), v, x.m0)
  {
    var b := x.job.recipient;
    var m := PutQueue(x.m0, b, Queue(x.m0, b) + [x.t]);
    AnswerGood(x, 202, v, m);
    SectionGood(x, TrafficAppend, Answer(202), v, m);
    var rest := Do(Release(MailboxCond), Section(TrafficAppend, Answer(202)));
    assert Good(x, rest, v, m);
    assert Good(x, Do(Enqueue(b), rest), v, x.m0);
  }

  lemma SendGood(x: Start)
    requires x.job.SendJob?
    ensures Good(x, Send(x.job.recipient), FRESH, x.m0)
  {
    var b := x.job.recipient;
    var v := Read(x.cfg, RegistryLookup(b), x.m0, FRESH, 0.0);
    var choose := If(FoundMailbox, QueueFor(b), Route(b));
    if b !in x.m0.registry {
      RefuseGood(x, v);
    } else if x.m0.registry[b].mailbox {
      QueueGood(x, v);
      assert Good(x, choose, v, x.m0);
    } else {
      RouteGood(x, v);
      assert Good(x, choose, v, x.m0);
    }
    assert Good(x, If(Found, choose, Refuse()), v, x.m0);
    SectionGood(x, RegistryLookup(b), If(Found, choose, Refuse()), FRESH, x.m0);
  }

  /** Refreshing and listening, once there is a mailbox; `healed` is any state whose refreshed form is a poll's. */
  lemma RefreshGood(x: Start, v: Vars, m: Maps<nat>)
    requires x.job.PollJob? && x.job.a in m.mailboxes
    requires forall now :: Touch(m, x.job.a, now) == PollStarted(x.m0, x.job.a, now, x.cfg.defaultTtl)
    ensures Good(x, Refresh(x.job.a), v, m)
  {
    var a := x.job.a;
    forall now <- x.clocks ensures Good(x, Listen(a), v, Touch(m, a, now)) {
      var m1 := Touch(m, a, now);
      AnswerGood(x, 200, v, PutQueue(m1, a, []));
      var rest := Do(Release(MailboxCond), Answer(200));
      assert Good(x, rest, v, PutQueue(m1, a, []));
      assert Good(x, Do(PollBox(a), rest), v, m1);
    }
    SectionGood(x, HeartbeatTouch(a), Listen(a), v, m);
  }

  lemma HealedTouched(m: Maps<nat>, a: AgentId, now: real, later: real, ttl: int)
    ensures Touch(AutoRegistered(m, a, now, ttl), a, later) == Touch(AutoRegistered(m, a, later, ttl), a, later)
  {
    var m3 := DefaultCapabilities(DefaultMailbox(PutEndpoint(m, MailboxEndpoint(a)), a), a);
    StampTouched(m3, a, now, later, ttl);
    StampTouched(m3, a, later, later, ttl);
  }

  lemma StampTouched(m: Maps<nat>, a: AgentId, now: real, later: real, ttl: int)
    ensures Touch(StampDefault(m, a, now, ttl), a, later)
         == m.(lastHeartbeat := m.lastHeartbeat[a := later], ttl := if a in m.ttl then m.ttl else m.ttl[a := ttl])
  {
    assert m.lastHeartbeat[a := now][a := later] == m.lastHeartbeat[a := later];
  }

  lemma HealedGood(x: Start, v: Vars, now: real)
    requires x.job.PollJob? && x.job.a !in x.m0.mailboxes
    ensures Good(x, Section(AuditWrite, Refresh(x.job.a)), v, AutoRegistered(x.m0, x.job.a, now, x.cfg.defaultTtl))
  {
    var a, m := x.job.a, AutoRegistered(x.m0, x.job.a, now, x.cfg.defaultTtl);
    forall later ensures Touch(m, a, later) == PollStarted(x.m0, a, later, x.cfg.defaultTtl) {
      HealedTouched(x.m0, a, now, later, x.cfg.defaultTtl);
    }
    RefreshGood(x, v, m);
    UnchangedSectionGood(x, AuditWrite, Refresh(a), v, m);
  }

  lemma HealGood(x: Start, v: Vars)
    requires x.job.PollJob? && x.job.a !in x.m0.mailboxes
    ensures Good(x, Heal(x.job.a), v, x.m0)
  {
    var a := x.job.a;
    var m1 := PutEndpoint(x.m0, MailboxEndpoint(a));
    var m2 := DefaultMailbox(m1, a);
    var m3 := DefaultCapabilities(m2, a);
    var p4 := Section(AuditWrite, Refresh(a));
    forall now <- x.clocks ensures Good(x, p4, v, StampDefault(m3, a, now, x.cfg.defaultTtl)) {
      HealedGood(x, v, now);
      assert StampDefault(m3, a, now, x.cfg.defaultTtl) == AutoRegistered(x.m0, a, now, x.cfg.defaultTtl);
    }
    SectionGood(x, HeartbeatDefault(a), p4, v, m3);
    SectionGood(x, CapabilitiesDefault(a), Section(HeartbeatDefault(a), p4), v, m2);
    SectionGood(x, MailboxDefault(a), HealRest(a), v, m1);
    SectionGood(x, RegistryPut(MailboxEndpoint(a)), Section(MailboxDefault(a), HealRest(a)), v, x.m0);
  }

  lemma PollGood(x: Start)
    requires x.job.PollJob?
    ensures Good(x, Poll(x.job.a), FRESH, x.m0)
  {
    var a := x.job.a;
    var v := FRESH.(hasMailbox := a in x.m0.mailboxes);
    if a in x.m0.mailboxes { RefreshGood(x, v, x.m0); } else { HealGood(x, v); }
    assert Good(x, If(HasMailbox, Refresh(a), Heal(a)), v, x.m0);
  }

  lemma AgentsGood(x: Start)
    requires x.job.AgentsJob?
    ensures Good(x, Agents(), FRESH, x.m0)
  {
    var finish := Do(Release(CapabilitiesLock), Do(Respond(200), Done));
    forall v ensures Good(x, finish, v, x.m0) {
      assert Ends(x.cfg, x.t, x.job, x.m0, x.clocks, Done, v, x.m0, Some(200));
      assert Good(x, Do(Respond(200), Done), v, x.m0);
    }
    var loop := Do(ForEachAgent, finish);
    forall v ensures Good(x, loop, v, x.m0) {}
    var body := Do(Access(CapabilitiesKeys), loop);
    assert Good(x, body, FRESH, x.m0);
    assert Good(x, Do(Acquire(CapabilitiesLock), body), FRESH, x.m0);
    SectionGood(x, HeartbeatSnapshot, Do(Acquire(CapabilitiesLock), body), FRESH, x.m0);
  }

  lemma SweepGood(x: Start)
    requires x.job.SweepJob?
    ensures Good(x, Sweep(), FRESH, x.m0)
  {
    var loop := Do(ForEachEndpoint, Done);
    forall now <- x.clocks ensures Good(x, loop, Read(x.cfg, RegistryList, x.m0, FRESH, now), x.m0) {
      var v := Read(x.cfg, RegistryList, x.m0, FRESH, now);
      assert Judged(x.m0, v) == {};
      assert EvictedAmong(x.m0, now, x.cfg.mailboxGrace, {}) == {};
      assert SweptAmong(x.m0, now, x.cfg.mailboxGrace, {}) == x.m0;
      assert x.m0.registry - {} == x.m0.registry;
    }
    SectionGood(x, RegistryList, loop, FRESH, x.m0);
  }

  lemma HandlerGood(x: Start, who: string)
    ensures Good(x, Handler(x.cfg.limited, who, x.job), FRESH, x.m0)
  {
    match x.job
    case RegisterJob(ep, caps, given) =>
      RegisterGood(x);
      AdmitGood(x, who, Register(ep, caps, given));
    case DeregisterJob(a) =>
      DeregisterGood(x);
      AdmitGood(x, who, RemoveAll(a, Answer(204)));
    case SendJob(b) =>
      SendGood(x);
      AdmitGood(x, who, Send(b));
    case PollJob(a) =>
      PollGood(x);
      AdmitGood(x, who, Poll(a));
    case AgentsJob =>
      AgentsGood(x);
      AdmitGood(x, who, Agents());
    case TrafficJob =>
      AnswerGood(x, 200, FRESH, x.m0);
      SectionGood(x, TrafficRead, Answer(200), FRESH, x.m0);
      AdmitGood(x, who, Section(TrafficRead, Answer(200)));
    case SweepJob => SweepGood(x);
  }

  // ---- endpoints stay filed under their own id -----------------------------------------

  lemma ApplyKeyed(cfg: Config, op: Op, m: Maps<nat>, v: Vars, now: real)
    requires Keyed(m)
    ensures Keyed(Apply(cfg, op, m, v, now))
  {
    assert op.RegistryPut? || Apply(cfg, op, m, v, now).registry == m.registry
        || (op.RegistryDrop? && Apply(cfg, op, m, v, now).registry == m.registry - {op.a});
  }

  lemma StepKeyed(cfg: Config, s: State, act: Action)
    requires Keyed(s.maps) && Possible(s, act)
    ensures Keyed(Step(cfg, s, act).maps)
  {
    if act.Run? {
      var th := s.threads[act.t];
      if th.prog.Do? && th.prog.instr.Access? {
        ApplyKeyed(cfg, th.prog.instr.op, s.maps, th.vars, act.choice.now);
      } else {
        assert Step(cfg, s, act).maps.registry == s.maps.registry;
      }
    }
  }

  lemma {:induction false} RunKeyed(cfg: Config, actions: seq<Action>, s: State)
    requires Leads(cfg, START, actions, s)
    ensures Keyed(s.maps)
    decreases |actions|
  {
    if actions != [] {
      var n := |actions| - 1;
      var mid :| Leads(cfg, START, actions[..n], mid) && Possible(mid, actions[n]) && s == Step(cfg, mid, actions[n]);
      RunKeyed(cfg, actions[..n], mid);
      StepKeyed(cfg, mid, actions[n]);
    }
  }

  /**
   * From every reachable state, every uninterrupted run of every handler to its end, whatever the clock,
   * the limiter, the network and the order of its loops, leaves the dictionaries and the answer of its
   * serial meaning: for registrations, polls and sweeps, that at one reading of the clock in the run.
   */
  lemma HandlerAlone(cfg: Config, s: State, t: nat, who: string, job: Job, choices: seq<Choice>, s': State)
    requires Reachable(cfg, s) && t in s.threads
    requires s.threads[t] == Thread(job, Handler(cfg.limited, who, job), FRESH, None)
    requires Solo(cfg, s, t, choices, s') && t in s'.threads && s'.threads[t].prog == Done
    ensures Serial(cfg, t, job, s.maps, Clocks(choices), s'.maps, s'.threads[t].status)
  {
    var actions :| Leads(cfg, START, actions, s);
    RunKeyed(cfg, actions, s);
    var x := Start(cfg, t, job, s.maps, Clocks(choices));
    HandlerGood(x, who);
    SoloEnds(cfg, s, t, choices, s', s.maps, Clocks(choices));
  }
}
