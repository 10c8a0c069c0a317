/**
 * When the dictionaries agree on an agent although handlers interleave: removals of the agent must not
 * overlap with its registrations, healing polls and sends; everything else may overlap freely.
 */
module BrokerThreadsAgreement {
  import opened Wrappers
  import opened BrokerState
  import opened LockPrograms
  import opened AgreementPrograms
  import opened BrokerThreads
  import opened BrokerThreadsSafety

  /** The dictionaries agree on `a`. */
  ghost predicate AgreeOn<M>(m: Maps<M>, a: AgentId) {
    && (a in m.capabilities <==> a in m.registry)
    && (a in m.lastHeartbeat <==> a in m.registry)
    && (a in m.ttl <==> a in m.registry)
    && (a in m.mailboxes ==> a in m.registry)
    && (a in m.registry && m.registry[a].mailbox ==> a in m.mailboxes)
  }

  /** No removal of `a` overlaps with another job that may add or remove `a`. */
  ghost predicate Separate(s: State, a: AgentId) {
    forall t <- s.threads, u <- s.threads | t != u && MayDrop(s.threads[t].prog, a) ::
      !MayAdd(s.threads[u].prog, a) && !MayDrop(s.threads[u].prog, a)
  }

  /** A run from the start to `s` in which removals of `a` never overlap with other jobs on `a`. */
  ghost predicate Tidy(cfg: Config, actions: seq<Action>, s: State, a: AgentId)
    decreases |actions|
  {
    && Separate(s, a)
    && if actions == [] then s == START
       else
         var n := |actions| - 1;
         exists mid :: Tidy(cfg, actions[..n], mid, a) && Possible(mid, actions[n]) && s == Step(cfg, mid, actions[n])
  }

  function BitsOf<M>(m: Maps<M>, a: AgentId): Bits {
    Bits(a in m.registry, a in m.registry && m.registry[a].mailbox, a in m.capabilities, a in m.lastHeartbeat,
         a in m.ttl, a in m.mailboxes)
  }

  /** Whether the thread's last lookup succeeded. */
  function Known(s: State, t: nat): bool
    requires t in s.threads
  {
    s.threads[t].vars.endpoint.Some?
  }

  lemma RegistryBits(cfg: Config, op: Op, m: Maps<nat>, v: Vars, now: real, a: AgentId)
    requires op.RegistryPut? || op.RegistryDrop?
    requires a in m.ttl ==> a in m.lastHeartbeat
    ensures BitsOf(Apply(cfg, op, m, v, now), a) == OpBits(op, v.endpoint.None?, BitsOf(m, a), a)
  {
  }

  lemma MailboxDefaultBits(cfg: Config, op: Op, m: Maps<nat>, v: Vars, now: real, a: AgentId)
    requires op.MailboxDefault?
    requires a in m.ttl ==> a in m.lastHeartbeat
    ensures BitsOf(Apply(cfg, op, m, v, now), a) == OpBits(op, v.endpoint.None?, BitsOf(m, a), a)
  {
  }

  lemma MailboxDropBits(cfg: Config, op: Op, m: Maps<nat>, v: Vars, now: real, a: AgentId)
    requires op.MailboxDrop?
    requires a in m.ttl ==> a in m.lastHeartbeat
    ensures BitsOf(Apply(cfg, op, m, v, now), a) == OpBits(op, v.endpoint.None?, BitsOf(m, a), a)
  {
  }

  lemma CapabilitiesBits(cfg: Config, op: Op, m: Maps<nat>, v: Vars, now: real, a: AgentId)
    requires op.CapabilitiesPut? || op.CapabilitiesDefault? || op.CapabilitiesDrop?
    requires a in m.ttl ==> a in m.lastHeartbeat
    ensures BitsOf(Apply(cfg, op, m, v, now), a) == OpBits(op, v.endpoint.None?, BitsOf(m, a), a)
  {
  }

  lemma HeartbeatStampBits(cfg: Config, op: Op, m: Maps<nat>, v: Vars, now: real, a: AgentId)
    requires op.HeartbeatStamp?
    requires a in m.ttl ==> a in m.lastHeartbeat
    ensures BitsOf(Apply(cfg, op, m, v, now), a) == OpBits(op, v.endpoint.None?, BitsOf(m, a), a)
  {
  }

  lemma HeartbeatDefaultBits(cfg: Config, op: Op, m: Maps<nat>, v: Vars, now: real, a: AgentId)
    requires op.HeartbeatDefault?
    requires a in m.ttl ==> a in m.lastHeartbeat
    ensures BitsOf(Apply(cfg, op, m, v, now), a) == OpBits(op, v.endpoint.None?, BitsOf(m, a), a)
  {
  }

  lemma HeartbeatTouchBits(cfg: Config, op: Op, m: Maps<nat>, v: Vars, now: real, a: AgentId)
    requires op.HeartbeatTouch? || op.HeartbeatDrop?
    requires a in m.ttl ==> a in m.lastHeartbeat
    ensures BitsOf(Apply(cfg, op, m, v, now), a) == OpBits(op, v.endpoint.None?, BitsOf(m, a), a)
  {
  }

  lemma ApplyBits(cfg: Config, op: Op, m: Maps<nat>, v: Vars, now: real, a: AgentId)
    requires a in m.ttl ==> a in m.lastHeartbeat
    ensures BitsOf(Apply(cfg, op, m, v, now), a) == OpBits(op, v.endpoint.None?, BitsOf(m, a), a)
  {
    match op {
      case RegistryPut(_) | RegistryDrop(_) => RegistryBits(cfg, op, m, v, now, a);
      case MailboxDefault(_) => MailboxDefaultBits(cfg, op, m, v, now, a);
      case MailboxDrop(_) => MailboxDropBits(cfg, op, m, v, now, a);
      case CapabilitiesPut(_, _) | CapabilitiesDefault(_) | CapabilitiesDrop(_) =>
        CapabilitiesBits(cfg, op, m, v, now, a);
      case HeartbeatStamp(_, _) => HeartbeatStampBits(cfg, op, m, v, now, a);
      case HeartbeatDefault(_) => HeartbeatDefaultBits(cfg, op, m, v, now, a);
      case HeartbeatTouch(_) | HeartbeatDrop(_) => HeartbeatTouchBits(cfg, op, m, v, now, a);
      case _ => assert Apply(cfg, op, m, v, now) == m;
    }
  }

  /** A step that is no access changes presence only by putting an agent's mailbox in place. */
  lemma PlainBits(cfg: Config, s: State, t: nat, c: Choice, a: AgentId)
    requires Enabled(s, t, c) && !(s.threads[t].prog.Do? && s.threads[t].prog.instr.Access?)
    requires var p := s.threads[t].prog; p.Do? && (p.instr.Append? || p.instr.Clear?) ==> p.instr.a in s.maps.mailboxes
    ensures var p := s.threads[t].prog; var b := BitsOf(s.maps, a);
            BitsOf(Next(cfg, s, t, c).maps, a) == if p.Do? then InstrBits(p.instr, !Known(s, t), b, a) else b
  {
  }

  lemma NextBits(cfg: Config, s: State, t: nat, c: Choice, a: AgentId)
    requires Enabled(s, t, c) && ThreadOk(s, t)
    requires a in s.maps.ttl ==> a in s.maps.lastHeartbeat
    ensures var p := s.threads[t].prog; var b := BitsOf(s.maps, a);
            BitsOf(Next(cfg, s, t, c).maps, a) == if p.Do? then InstrBits(p.instr, !Known(s, t), b, a) else b
  {
    var p := s.threads[t].prog;
    if p.Do? && p.instr.Access? {
      ApplyBits(cfg, p.instr.op, s.maps, s.threads[t].vars, c.now, a);
    } else {
      PlainBits(cfg, s, t, c, a);
    }
  }

  lemma NextHop(cfg: Config, s: State, t: nat, c: Choice, a: AgentId)
    requires Enabled(s, t, c) && ThreadOk(s, t)
    requires a in s.maps.ttl ==> a in s.maps.lastHeartbeat
    ensures var s' := Next(cfg, s, t, c);
            && t in s'.threads
            && Hop(s.threads[t].prog, Known(s, t), BitsOf(s.maps, a), s'.threads[t].prog, Known(s', t),
                   BitsOf(s'.maps, a), a)
  {
    NextBits(cfg, s, t, c, a);
  }

  // ---- all threads together -------------------------------------------------------------

  ghost predicate Provided(s: State, a: AgentId, part: Part) {
    exists t :: t in s.threads && Gives(s.threads[t].prog, !Known(s, t), a, part)
  }

  ghost predicate BeingRemoved(s: State, a: AgentId) {
    exists t :: t in s.threads && MayDrop(s.threads[t].prog, a)
  }

  /** While nobody removes `a`: what is missing is on its way. */
  ghost predicate Growing(s: State, a: AgentId) {
    var b := BitsOf(s.maps, a);
    if !b.reg then !b.caps && !b.beat && !b.ttl && !b.box
    else
      && (b.caps || Provided(s, a, Caps)) && (b.beat || Provided(s, a, Beat)) && (b.ttl || Provided(s, a, Ttl))
      && (b.flag ==> b.box || Provided(s, a, Box))
  }

  ghost predicate ProgramOk(s: State, t: nat, a: AgentId)
    requires t in s.threads
  {
    var p := s.threads[t].prog;
    && Sound(p, Known(s, t), a, a in s.maps.registry)
    && !(MayAdd(p, a) && MayDrop(p, a))
    && (MayDrop(p, a) ==> StageOk(p, BitsOf(s.maps, a), a))
  }

  ghost predicate Orderly(s: State, a: AgentId) {
    && (a in s.maps.ttl ==> a in s.maps.lastHeartbeat)
    && (forall t <- s.threads :: ProgramOk(s, t, a))
    && (BeingRemoved(s, a) || Growing(s, a))
  }

  lemma BeatBits(op: Op, isNew: bool, b: Bits, a: AgentId)
    requires b.ttl ==> b.beat
    ensures OpBits(op, isNew, b, a).ttl ==> OpBits(op, isNew, b, a).beat
  {
    if op.HeartbeatStamp? || op.HeartbeatDefault? || op.HeartbeatDrop? {
      assert OpBits(op, isNew, b, a).ttl ==> OpBits(op, isNew, b, a).beat;
    } else {
      assert OpBits(op, isNew, b, a).(reg := b.reg, flag := b.flag, caps := b.caps, box := b.box) == b;
    }
  }

  lemma BeatsStay(cfg: Config, s: State, t: nat, c: Choice, a: AgentId)
    requires Enabled(s, t, c) && ThreadOk(s, t) && (a in s.maps.ttl ==> a in s.maps.lastHeartbeat)
    ensures BitsOf(Next(cfg, s, t, c).maps, a).ttl ==> BitsOf(Next(cfg, s, t, c).maps, a).beat
  {
    NextBits(cfg, s, t, c, a);
    var p := s.threads[t].prog;
    if p.Do? && p.instr.Access? { BeatBits(p.instr.op, !Known(s, t), BitsOf(s.maps, a), a); }
  }

  /** The step of thread `t`, as it looks from agent `a`. */
  ghost predicate StepFor(s: State, t: nat, s': State, a: AgentId) {
    && t in s.threads && s'.threads.Keys == s.threads.Keys
    && (forall u <- s.threads :: u != t ==> s'.threads[u] == s.threads[u])
    && Hop(s.threads[t].prog, Known(s, t), BitsOf(s.maps, a), s'.threads[t].prog, Known(s', t), BitsOf(s'.maps, a), a)
  }

  /** A step while `a` is being removed: by the remover, or none of its business. */
  lemma RemovalStep(s: State, t: nat, s': State, a: AgentId, r: nat)
    requires Orderly(s, a) && Separate(s, a) && Separate(s', a) && StepFor(s, t, s', a)
    requires r in s.threads && MayDrop(s.threads[r].prog, a)
    ensures forall u <- s'.threads :: ProgramOk(s', u, a)
    ensures BeingRemoved(s', a) || Growing(s', a)
  {
    var p, b, p', b' := s.threads[t].prog, BitsOf(s.maps, a), s'.threads[t].prog, BitsOf(s'.maps, a);
    assert ProgramOk(s, t, a) && ProgramOk(s, r, a);
    HopOnward(p, Known(s, t), b, p', Known(s', t), b', a);
    if t != r {
      assert Idle(p, a) && s'.threads[r].prog == s.threads[r].prog;
      assert b' == b && !MayDrop(p', a);
    }
    forall u <- s'.threads ensures ProgramOk(s', u, a) {
      assert ProgramOk(s, u, a);
      if u != t && u != r { IdleSound(s.threads[u].prog, Known(s, u), a, b'.reg); }
    }
    if t == r && !MayDrop(p', a) { assert Agreed(b'); }
  }

  /** A step while nobody removes `a`. */
  lemma GrowthStep(s: State, t: nat, s': State, a: AgentId)
    requires Orderly(s, a) && Separate(s', a) && StepFor(s, t, s', a) && !BeingRemoved(s, a)
    ensures forall u <- s'.threads :: ProgramOk(s', u, a)
    ensures BeingRemoved(s', a) || Growing(s', a)
  {
    var p, b, p', b' := s.threads[t].prog, BitsOf(s.maps, a), s'.threads[t].prog, BitsOf(s'.maps, a);
    assert ProgramOk(s, t, a) && !MayDrop(p, a);
    HopOnward(p, Known(s, t), b, p', Known(s', t), b', a);
    HopGrows(p, Known(s, t), b, p', Known(s', t), b', a);
    if MayDrop(p', a) { NobodyProvides(s, t, s', a); }
    forall u <- s'.threads ensures ProgramOk(s', u, a) {
      assert ProgramOk(s, u, a);
      if u != t {
        assert !MayDrop(s.threads[u].prog, a);
        if !b.reg && b'.reg { SoundGrows(s.threads[u].prog, Known(s, u), a); }
      }
    }
    ProvidersStay(s, t, s', a);
  }

  /** A removal begins: nobody else has business with `a`, so nothing is missing. */
  lemma NobodyProvides(s: State, t: nat, s': State, a: AgentId)
    requires Separate(s', a) && StepFor(s, t, s', a) && Growing(s, a)
    requires MayDrop(s'.threads[t].prog, a) && BitsOf(s'.maps, a) == BitsOf(s.maps, a) && !MayAdd(s.threads[t].prog, a)
    ensures Agreed(BitsOf(s.maps, a))
  {
    forall part ensures !Provided(s, a, part) {
      forall u <- s.threads ensures !Gives(s.threads[u].prog, !Known(s, u), a, part) {
        if Gives(s.threads[u].prog, !Known(s, u), a, part) { GivesAdds(s.threads[u].prog, !Known(s, u), a, part); }
      }
    }
    assert !Provided(s, a, Caps) && !Provided(s, a, Beat) && !Provided(s, a, Ttl) && !Provided(s, a, Box);
  }

  /** The part is there or on its way. */
  ghost predicate Covered(s: State, a: AgentId, part: Part) {
    Present(BitsOf(s.maps, a), part) || Provided(s, a, part)
  }

  lemma StaysCovered(s: State, t: nat, s': State, a: AgentId, part: Part)
    requires StepFor(s, t, s', a) && Covered(s, a, part)
    requires Grows(s.threads[t].prog, Known(s, t), BitsOf(s.maps, a), s'.threads[t].prog, Known(s', t),
                   BitsOf(s'.maps, a), a)
    ensures Covered(s', a, part)
  {
    if !Present(BitsOf(s.maps, a), part) {
      var u :| u in s.threads && Gives(s.threads[u].prog, !Known(s, u), a, part);
      assert u != t ==> Gives(s'.threads[u].prog, !Known(s', u), a, part);
    }
  }

  lemma ProvidersStay(s: State, t: nat, s': State, a: AgentId)
    requires StepFor(s, t, s', a) && Growing(s, a)
    requires Grows(s.threads[t].prog, Known(s, t), BitsOf(s.maps, a), s'.threads[t].prog, Known(s', t),
                   BitsOf(s'.maps, a), a)
    ensures Growing(s', a)
  {
    var b, b' := BitsOf(s.maps, a), BitsOf(s'.maps, a);
    GrowingCovers(s, a);
    if b.reg {
      StaysCovered(s, t, s', a, Caps);
      StaysCovered(s, t, s', a, Beat);
      StaysCovered(s, t, s', a, Ttl);
    }
    if b.flag { StaysCovered(s, t, s', a, Box); }
    GrowingCovers(s', a);
  }

  lemma GrowingCovers(s: State, a: AgentId)
    ensures var b := BitsOf(s.maps, a);
            Growing(s, a) <==>
              if !b.reg then !b.caps && !b.beat && !b.ttl && !b.box
              else Covered(s, a, Caps) && Covered(s, a, Beat) && Covered(s, a, Ttl) && (b.flag ==> Covered(s, a, Box))
  {
  }

  // ---- every tidy run ----------------------------------------------------------------------

  lemma SpawnKeepsGrowing(cfg: Config, s: State, t: nat, who: string, job: Job, a: AgentId)
    requires Growing(s, a) && Possible(s, Spawn(t, who, job))
    ensures Growing(Step(cfg, s, Spawn(t, who, job)), a)
  {
    var s' := Step(cfg, s, Spawn(t, who, job));
    forall part | Provided(s, a, part) ensures Provided(s', a, part) {
      var u :| u in s.threads && Gives(s.threads[u].prog, !Known(s, u), a, part);
      assert s'.threads[u] == s.threads[u];
    }
  }

  lemma SpawnedOk(cfg: Config, s: State, t: nat, who: string, job: Job, a: AgentId)
    requires Possible(s, Spawn(t, who, job))
    requires var s' := Step(cfg, s, Spawn(t, who, job)); MayDrop(s'.threads[t].prog, a) ==> Agreed(BitsOf(s.maps, a))
    ensures ProgramOk(Step(cfg, s, Spawn(t, who, job)), t, a)
  {
    HandlerStartable(cfg.limited, who, job, a);
    if a in s.maps.registry { SoundGrows(Handler(cfg.limited, who, job), false, a); }
  }

  lemma SpawnOrderly(cfg: Config, s: State, t: nat, who: string, job: Job, a: AgentId)
    requires Orderly(s, a) && Possible(s, Spawn(t, who, job)) && Separate(Step(cfg, s, Spawn(t, who, job)), a)
    ensures Orderly(Step(cfg, s, Spawn(t, who, job)), a)
  {
    var s' := Step(cfg, s, Spawn(t, who, job));
    if BeingRemoved(s, a) {
      var r :| r in s.threads && MayDrop(s.threads[r].prog, a);
      assert s'.threads[r] == s.threads[r];
    } else {
      SpawnKeepsGrowing(cfg, s, t, who, job, a);
      if MayDrop(s'.threads[t].prog, a) { NobodyElseProvides(s, s', t, a); }
    }
    SpawnedOk(cfg, s, t, who, job, a);
    forall u <- s'.threads ensures ProgramOk(s', u, a) {
      if u != t { assert ProgramOk(s, u, a); }
    }
  }

  lemma NobodyElseProvides(s: State, s': State, t: nat, a: AgentId)
    requires Separate(s', a) && t !in s.threads && s'.threads.Keys == s.threads.Keys + {t} && Growing(s, a)
    requires forall u <- s.threads :: s'.threads[u] == s.threads[u]
    requires MayDrop(s'.threads[t].prog, a)
    ensures Agreed(BitsOf(s.maps, a))
  {
    forall part ensures !Provided(s, a, part) {
      forall u <- s.threads ensures !Gives(s.threads[u].prog, !Known(s, u), a, part) {
        assert !MayAdd(s'.threads[u].prog, a);
        if Gives(s.threads[u].prog, !Known(s, u), a, part) { GivesAdds(s.threads[u].prog, !Known(s, u), a, part); }
      }
    }
    assert !Provided(s, a, Caps) && !Provided(s, a, Beat) && !Provided(s, a, Ttl) && !Provided(s, a, Box);
  }

  lemma RunOrderly(cfg: Config, s: State, t: nat, c: Choice, a: AgentId)
    requires Inv(s) && Orderly(s, a) && Enabled(s, t, c) && Separate(s, a) && Separate(Next(cfg, s, t, c), a)
    ensures Orderly(Next(cfg, s, t, c), a)
  {
    var s' := Next(cfg, s, t, c);
    assert ThreadOk(s, t);
    NextHop(cfg, s, t, c, a);
    NextKeepsJobs(cfg, s, t, c);
    assert StepFor(s, t, s', a);
    BeatsStay(cfg, s, t, c, a);
    assert a in s'.maps.ttl ==> a in s'.maps.lastHeartbeat by {
      assert BitsOf(s'.maps, a).ttl ==> BitsOf(s'.maps, a).beat;
    }
    if BeingRemoved(s, a) {
      var r :| r in s.threads && MayDrop(s.threads[r].prog, a);
      RemovalStep(s, t, s', a, r);
    } else {
      GrowthStep(s, t, s', a);
    }
  }

  lemma {:induction false} TidyLeads(cfg: Config, actions: seq<Action>, s: State, a: AgentId)
    requires Tidy(cfg, actions, s, a)
    ensures Leads(cfg, START, actions, s)
    decreases |actions|
  {
    if actions != [] {
      var n := |actions| - 1;
      var mid :| Tidy(cfg, actions[..n], mid, a) && Possible(mid, actions[n]) && s == Step(cfg, mid, actions[n]);
      TidyLeads(cfg, actions[..n], mid, a);
    }
  }

  lemma {:induction false} TidyOrderly(cfg: Config, actions: seq<Action>, s: State, a: AgentId)
    requires Tidy(cfg, actions, s, a)
    ensures Orderly(s, a)
    decreases |actions|
  {
    if actions != [] {
      var n := |actions| - 1;
      var mid :| Tidy(cfg, actions[..n], mid, a) && Possible(mid, actions[n]) && s == Step(cfg, mid, actions[n]);
      TidyOrderly(cfg, actions[..n], mid, a);
      TidyLeads(cfg, actions[..n], mid, a);
      assert Reachable(cfg, mid);
      ReachableInv(cfg, mid);
      match actions[n]
      case Spawn(t, who, job) => SpawnOrderly(cfg, mid, t, who, job, a);
      case Run(t, c) => RunOrderly(cfg, mid, t, c, a);
    }
  }

  /**
   * In every interleaving in which no removal of `a` (a deregistration, or a round of the sweep on `a`)
   * overlaps with another job that may add or remove `a`, the dictionaries agree on `a` whenever no such job
   * is under way. Registrations, healing polls, sends and listening polls may overlap with each other.
   */
  lemma AgreementAtRest(cfg: Config, actions: seq<Action>, s: State, a: AgentId)
    requires Tidy(cfg, actions, s, a)
    requires forall t <- s.threads :: Idle(s.threads[t].prog, a)
    ensures AgreeOn(s.maps, a)
  {
    TidyOrderly(cfg, actions, s, a);
    forall part ensures !Provided(s, a, part) {
      forall t <- s.threads ensures !Gives(s.threads[t].prog, !Known(s, t), a, part) {
        if Gives(s.threads[t].prog, !Known(s, t), a, part) { GivesAdds(s.threads[t].prog, !Known(s, t), a, part); }
      }
    }
    assert !Provided(s, a, Caps) && !Provided(s, a, Beat) && !Provided(s, a, Ttl) && !Provided(s, a, Box);
    assert Agreed(BitsOf(s.maps, a));
  }

  // ---- where self-healing fails --------------------------------------------------------------

  /** In every state whatever: a poll leaves its agent registered exactly if it was, or owned no mailbox. */
  lemma PollHealsExactly<M>(m: Maps<M>, a: AgentId, now: real, defaultTtl: int)
    ensures a in PollStarted(m, a, now, defaultTtl).registry <==> a in m.registry || a !in m.mailboxes
  {
  }
}
