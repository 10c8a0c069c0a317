/** What holds over every run of the broker when its handlers do not overlap. */
module BrokerRuns {
  import opened Wrappers
  import opened Json
  import opened BrokerState
  import opened Messages
  import opened Broker
  import Registration

  datatype Config = Config(defaultTtl: int, mailboxGrace: real)

  datatype Event =
    | Register(p: Registration.Accepted)
    | Deregister(a: AgentId)
    | Send(m: Message, caller: AgentId, dial: Dial, stamp: Stamp)
    | PollStart(a: AgentId, hold: real)
    | PollEnd(a: AgentId)
    | Sweep
    | Restart

  datatype Timed = Timed(at: real, event: Event)

  type State = Maps<Message>

  function Apply(cfg: Config, s: State, t: Timed): State {
    match t.event
    case Register(p) => Registered(s, p.ep, p.caps, p.given, t.at, cfg.defaultTtl)
    case Deregister(a) => Removed(s, a)
    case Send(m, caller, dial, stamp) => Sent(s, m, caller, dial, stamp, t.at).maps
    case PollStart(a, _) => PollStarted(s, a, t.at, cfg.defaultTtl)
    case PollEnd(a) => if a in s.mailboxes then PutQueue(s, a, []) else s
    case Sweep => Swept(s, t.at, cfg.mailboxGrace)
    case Restart => Empty()
  }

  function Run(cfg: Config, s: State, events: seq<Timed>): State
    decreases |events|
  {
    if events == [] then s else Run(cfg, Apply(cfg, s, events[0]), events[1..])
  }

  // ---- what each event does ------------------------------------------------------

  /** A removal forgets the agent everywhere, and nobody else anywhere. */
  lemma RemovedEntries(s: State, a: AgentId)
    ensures var s' := Removed(s, a);
            && s'.registry == (map b | b in s.registry && b != a :: s.registry[b])
            && s'.capabilities == (map b | b in s.capabilities && b != a :: s.capabilities[b])
            && s'.lastHeartbeat == (map b | b in s.lastHeartbeat && b != a :: s.lastHeartbeat[b])
            && s'.ttl == (map b | b in s.ttl && b != a :: s.ttl[b])
            && s'.mailboxes == (map b | b in s.mailboxes && b != a :: s.mailboxes[b])
  {
  }

  /** An agent with a mailbox is refreshed by its poll, if it has a TTL; nothing else changes. */
  lemma KnownPollEntries(cfg: Config, s: State, a: AgentId, at: real)
    requires a in s.mailboxes
    ensures PollStarted(s, a, at, cfg.defaultTtl)
         == if a in s.ttl then s.(lastHeartbeat := s.lastHeartbeat[a := at]) else s
  {
  }

  /** The end of a poll empties the agent's mailbox, if there still is one, and changes nothing else. */
  lemma PollEndEntries(cfg: Config, s: State, a: AgentId, at: real)
    ensures Apply(cfg, s, Timed(at, PollEnd(a)))
         == if a in s.mailboxes then s.(mailboxes := s.mailboxes[a := []]) else s
  {
  }

  /** A restarted broker knows nobody. */
  lemma RestartForgets(cfg: Config, s: State, at: real)
    ensures Apply(cfg, s, Timed(at, Restart)) == Maps(map[], map[], map[], map[], map[])
  {
  }

  /** Any other agent is registered as a pull agent; capabilities and a TTL that are there stay. */
  lemma NewPollEntries(cfg: Config, s: State, a: AgentId, at: real)
    requires a !in s.mailboxes
    ensures var s' := PollStarted(s, a, at, cfg.defaultTtl);
            && s'.registry == s.registry[a := Endpoint(a, "mailbox", 0, "http", "/messages", true)]
            && s'.mailboxes == s.mailboxes[a := []]
            && s'.capabilities == (if a in s.capabilities then s.capabilities else s.capabilities[a := map[]])
            && s'.lastHeartbeat == s.lastHeartbeat[a := at]
            && s'.ttl == if a in s.ttl then s.ttl else s.ttl[a := cfg.defaultTtl]
  {
    AutoRegisteredEntries(cfg, s, a, at);
  }

  // ---- the dictionaries agree -------------------------------------------------

  /** Registry, capabilities, heartbeats and TTLs name the same agents; mailboxes belong to some of them. */
  ghost predicate SameNames(s: State) {
    && s.capabilities.Keys == s.registry.Keys
    && s.lastHeartbeat.Keys == s.registry.Keys && s.ttl.Keys == s.registry.Keys
    && s.mailboxes.Keys <= s.registry.Keys
  }

  ghost predicate Agree(s: State) {
    SameNames(s) && Keyed(s) && forall a <- s.registry :: s.registry[a].mailbox ==> a in s.mailboxes
  }

  lemma StampedEntries(s: State, a: AgentId, at: real, given: Option<int>, isNew: bool, defaultTtl: int)
    ensures var s' := StampRegistration(s, a, at, given, isNew, defaultTtl);
            && s'.registry == s.registry && s'.capabilities == s.capabilities && s'.mailboxes == s.mailboxes
            && s'.lastHeartbeat == s.lastHeartbeat[a := at]
            && s'.ttl == if given.Some? then s.ttl[a := given.value]
                         else if isNew then s.ttl[a := defaultTtl] else s.ttl
  {
  }

  lemma RegisteredEntries(cfg: Config, s: State, p: Registration.Accepted, at: real)
    ensures var s' := Registered(s, p.ep, p.caps, p.given, at, cfg.defaultTtl);
            var a := p.ep.agentId;
            && s'.registry == s.registry[a := p.ep] && s'.capabilities == s.capabilities[a := p.caps]
            && s'.lastHeartbeat == s.lastHeartbeat[a := at]
            && s'.ttl == (if p.given.Some? then s.ttl[a := p.given.value]
                          else if a in s.registry then s.ttl else s.ttl[a := cfg.defaultTtl])
            && s'.mailboxes == if p.ep.mailbox && a !in s.mailboxes then s.mailboxes[a := []] else s.mailboxes
  {
    var a := p.ep.agentId;
    var s1 := PutEndpoint(s, p.ep);
    var s3 := PutCapabilities(if p.ep.mailbox then DefaultMailbox(s1, a) else s1, a, p.caps);
    StampedEntries(s3, a, at, p.given, a !in s.registry, cfg.defaultTtl);
  }

  lemma RegisterKeepsNames(cfg: Config, s: State, p: Registration.Accepted, at: real)
    requires SameNames(s)
    ensures SameNames(Registered(s, p.ep, p.caps, p.given, at, cfg.defaultTtl))
  {
    RegisteredEntries(cfg, s, p, at);
    var a := p.ep.agentId;
    assert s.ttl[a := 0].Keys == s.registry.Keys + {a};
  }

  lemma RegisterAgrees(cfg: Config, s: State, p: Registration.Accepted, at: real)
    requires Agree(s)
    ensures Agree(Registered(s, p.ep, p.caps, p.given, at, cfg.defaultTtl))
  {
    RegisteredEntries(cfg, s, p, at);
    RegisterKeepsNames(cfg, s, p, at);
  }

  lemma RemoveAgrees(s: State, a: AgentId)
    requires Agree(s)
    ensures Agree(Removed(s, a))
  {
    var s' := Removed(s, a);
    assert s'.registry.Keys == s.registry.Keys - {a} && s'.capabilities.Keys == s.capabilities.Keys - {a};
    assert s'.lastHeartbeat.Keys == s.lastHeartbeat.Keys - {a} && s'.ttl.Keys == s.ttl.Keys - {a};
  }

  lemma SweepAgrees(cfg: Config, s: State, at: real)
    requires Agree(s)
    ensures Agree(Swept(s, at, cfg.mailboxGrace))
  {
    var s' := Swept(s, at, cfg.mailboxGrace);
    var evicted := set a | a in s.registry && Expired(s, s.registry[a], at, cfg.mailboxGrace);
    assert s'.registry.Keys == s.registry.Keys - evicted && s'.capabilities.Keys == s.capabilities.Keys - evicted;
    assert s'.lastHeartbeat.Keys == s.lastHeartbeat.Keys - evicted && s'.ttl.Keys == s.ttl.Keys - evicted;
  }

  lemma SendAgrees(s: State, m: Message, caller: AgentId, dial: Dial, stamp: Stamp, at: real)
    requires Agree(s)
    ensures Agree(Sent(s, m, caller, dial, stamp, at).maps)
  {
    var s' := Sent(s, m, caller, dial, stamp, at).maps;
    assert s'.(mailboxes := s.mailboxes) == s;
    assert s'.mailboxes.Keys == s.mailboxes.Keys;
  }

  lemma AutoRegisteredEntries(cfg: Config, s: State, a: AgentId, at: real)
    ensures var s' := AutoRegistered(s, a, at, cfg.defaultTtl);
            && s'.registry == s.registry[a := MailboxEndpoint(a)]
            && s'.capabilities == (if a in s.capabilities then s.capabilities else s.capabilities[a := map[]])
            && s'.lastHeartbeat == s.lastHeartbeat[a := at]
            && s'.ttl == (if a in s.ttl then s.ttl else s.ttl[a := cfg.defaultTtl])
            && s'.mailboxes == if a in s.mailboxes then s.mailboxes else s.mailboxes[a := []]
  {
  }

  lemma AutoRegisterAgrees(cfg: Config, s: State, a: AgentId, at: real)
    requires Agree(s) && a !in s.mailboxes
    ensures Agree(AutoRegistered(s, a, at, cfg.defaultTtl))
  {
    AutoRegisteredEntries(cfg, s, a, at);
    AutoRegisterKeepsNames(cfg, s, a, at);
  }

  lemma AutoRegisterKeepsNames(cfg: Config, s: State, a: AgentId, at: real)
    requires SameNames(s)
    ensures SameNames(AutoRegistered(s, a, at, cfg.defaultTtl))
  {
    AutoRegisteredEntries(cfg, s, a, at);
    var s' := AutoRegistered(s, a, at, cfg.defaultTtl);
    var names := s.registry.Keys + {a};
    assert s'.registry.Keys == names && s'.capabilities.Keys == names;
    assert s'.lastHeartbeat.Keys == names && s'.ttl.Keys == names;
  }

  lemma TouchAgrees(s: State, a: AgentId, at: real)
    requires Agree(s)
    ensures Agree(Touch(s, a, at))
  {
    assert Touch(s, a, at).lastHeartbeat.Keys == s.lastHeartbeat.Keys;
  }

  lemma PollAgrees(cfg: Config, s: State, a: AgentId, at: real)
    requires Agree(s)
    ensures Agree(PollStarted(s, a, at, cfg.defaultTtl))
  {
    if a !in s.mailboxes {
      AutoRegisterAgrees(cfg, s, a, at);
      TouchAgrees(AutoRegistered(s, a, at, cfg.defaultTtl), a, at);
    } else {
      TouchAgrees(s, a, at);
    }
  }

  lemma StepAgrees(cfg: Config, s: State, t: Timed)
    requires Agree(s)
    ensures Agree(Apply(cfg, s, t))
  {
    match t.event
    case Register(p) => RegisterAgrees(cfg, s, p, t.at);
    case Deregister(a) => RemoveAgrees(s, a);
    case Send(m, caller, dial, stamp) => SendAgrees(s, m, caller, dial, stamp, t.at);
    case PollStart(a, _) => PollAgrees(cfg, s, a, t.at);
    case PollEnd(_) =>
    case Sweep => SweepAgrees(cfg, s, t.at);
    case Restart =>
  }

  /** In every serial run, restarts included, the five dictionaries name the same agents. */
  lemma {:induction false} MapsAgree(cfg: Config, s: State, events: seq<Timed>)
    requires Agree(s)
    ensures Agree(Run(cfg, s, events))
    decreases |events|
  {
    if events != [] {
      StepAgrees(cfg, s, events[0]);
      MapsAgree(cfg, Apply(cfg, s, events[0]), events[1..]);
    }
  }

  // ---- self-healing -----------------------------------------------------------------

  /** The events that may take agent `a` out of the registry in state `s`. */
  predicate Evicts(cfg: Config, s: State, t: Timed, a: AgentId) {
    match t.event
    case Deregister(b) => a == b
    case Sweep => a in s.registry && Expired(s, s.registry[a], t.at, cfg.mailboxGrace)
    case Restart => true
    case _ => false
  }

  predicate Undisturbed(cfg: Config, s: State, events: seq<Timed>, a: AgentId)
    decreases |events|
  {
    events == [] || (!Evicts(cfg, s, events[0], a) && Undisturbed(cfg, Apply(cfg, s, events[0]), events[1..], a))
  }

  lemma StepKeepsRegistered(cfg: Config, s: State, t: Timed, a: AgentId)
    requires a in s.registry && !Evicts(cfg, s, t, a)
    ensures a in Apply(cfg, s, t).registry
  {
    match t.event
    case Send(m, caller, dial, stamp) => assert Sent(s, m, caller, dial, stamp, t.at).maps.registry == s.registry;
    case Sweep => assert a in Swept(s, t.at, cfg.mailboxGrace).registry;
    case Register(p) => assert a in Registered(s, p.ep, p.caps, p.given, t.at, cfg.defaultTtl).registry;
    case PollStart(b, _) => assert a in PollStarted(s, b, t.at, cfg.defaultTtl).registry;
    case Deregister(b) =>
    case PollEnd(_) =>
    case Restart =>
  }

  lemma {:induction false} StaysRegistered(cfg: Config, s: State, events: seq<Timed>, a: AgentId)
    requires a in s.registry && Undisturbed(cfg, s, events, a)
    ensures a in Run(cfg, s, events).registry
    decreases |events|
  {
    if events != [] {
      StepKeepsRegistered(cfg, s, events[0], a);
      StaysRegistered(cfg, Apply(cfg, s, events[0]), events[1..], a);
    }
  }

  /**
   * Whatever happened before, restarts included, starting a poll leaves the poller registered
   * with a mailbox, and a send to it is not refused as unknown until an event that evicts it.
   */
  lemma PollHeals(cfg: Config, before: seq<Timed>, a: AgentId, hold: real, at: real, after: seq<Timed>,
                  m: Message, dial: Dial, stamp: Stamp, now: real)
    requires a != "" && m.metadata.recipient == Str(a)
    requires var s := Apply(cfg, Run(cfg, Empty(), before), Timed(at, PollStart(a, hold)));
             Undisturbed(cfg, s, after, a)
    ensures var s := Apply(cfg, Run(cfg, Empty(), before), Timed(at, PollStart(a, hold)));
            && a in s.registry && a in s.mailboxes && a in s.lastHeartbeat && s.lastHeartbeat[a] == at
            && Routes(Run(cfg, s, after), m, dial, stamp, now)
  {
    var s0 := Run(cfg, Empty(), before);
    MapsAgree(cfg, Empty(), before);
    var s := PollStarted(s0, a, at, cfg.defaultTtl);
    PollRegisters(cfg, s0, a, at);
    StaysRegistered(cfg, s, after, a);
    RegisteredRoutes(Run(cfg, s, after), a, m, dial, stamp, now);
  }

  /** A send is queued or dialled: it is not refused, and fails only if dialling does. */
  predicate Routes(s: State, m: Message, dial: Dial, stamp: Stamp, now: real) {
    match Sent(s, m, "", dial, stamp, now).answer
    case Crash => dial.Broke?
    case Answer(status, _) => status == 202 || status == 200 || status == 204 || (status == 502 && dial.Failed?)
  }

  lemma RegisteredRoutes(s: State, a: AgentId, m: Message, dial: Dial, stamp: Stamp, now: real)
    requires a in s.registry && a != "" && m.metadata.recipient == Str(a)
    ensures Routes(s, m, dial, stamp, now)
  {
  }

  lemma PollRegisters(cfg: Config, s: State, a: AgentId, at: real)
    requires Agree(s)
    ensures var s' := PollStarted(s, a, at, cfg.defaultTtl);
            a in s'.registry && a in s'.mailboxes && a in s'.lastHeartbeat && s'.lastHeartbeat[a] == at
  {
  }

  // ---- sweep and status ---------------------------------------------------------------

  datatype Status = Active | Stale | Unknown

  /** The liveness that `GET /agents` shows. */
  function StatusAt(s: State, a: AgentId, now: real): Status {
    if a in s.ttl && s.ttl[a] <= 0 then Active
    else if a in s.lastHeartbeat && a in s.ttl then
      if now - s.lastHeartbeat[a] <= s.ttl[a] as real then Active else Stale
    else Unknown
  }

  /**
   * In every reachable state a registered agent is never shown as unknown: it is active when its TTL is not
   * positive or no longer ago than its last heartbeat, and else stale.
   */
  lemma StatusExactly(cfg: Config, events: seq<Timed>, a: AgentId, now: real)
    requires a in Run(cfg, Empty(), events).registry
    ensures var s := Run(cfg, Empty(), events);
            && a in s.ttl && a in s.lastHeartbeat
            && (StatusAt(s, a, now) == Active <==> s.ttl[a] <= 0 || now - s.lastHeartbeat[a] <= s.ttl[a] as real)
            && (StatusAt(s, a, now) == Stale <==> s.ttl[a] > 0 && now - s.lastHeartbeat[a] > s.ttl[a] as real)
  {
    MapsAgree(cfg, Empty(), events);
  }

  /** In any state: an agent is unknown exactly when it has no TTL, or a positive one but no heartbeat. */
  lemma UnknownExactly(s: State, a: AgentId, now: real)
    ensures StatusAt(s, a, now) == Unknown <==>
              (a !in s.ttl || (s.ttl[a] > 0 && a !in s.lastHeartbeat))
  {
  }

  /** Either all entries of `a` and its queue are as before, or none is left. */
  ghost predicate KeptWhole(s: State, s': State, a: AgentId) {
    if a in s'.registry then
      SameEntries(s, s', a) && Queue(s', a) == Queue(s, a) && a in s.capabilities && a in s'.capabilities
      && s'.capabilities[a] == s.capabilities[a]
    else a !in s'.capabilities && a !in s'.lastHeartbeat && a !in s'.ttl && a !in s'.mailboxes
  }

  /** The heartbeat is older than the TTL, if there is one, plus the grace that the kind of endpoint is given. */
  predicate Overdue(cfg: Config, s: State, a: AgentId, now: real)
    requires a in s.registry && a in s.lastHeartbeat && a in s.ttl
  {
    var grace := if s.registry[a].mailbox then cfg.mailboxGrace else 0.0;
    s.ttl[a] > 0 && now - s.lastHeartbeat[a] > s.ttl[a] as real + grace
  }

  /**
   * In every reachable state, whatever the grace: a sweep evicts exactly the agents that are overdue, and
   * what survives keeps its entries and its queue. A dialable agent is overdue exactly when it is shown as
   * stale, a mailbox agent with a grace of at least zero only then.
   */
  lemma SweepEvictsTheStale(cfg: Config, events: seq<Timed>, a: AgentId, now: real)
    requires a in Run(cfg, Empty(), events).registry
    ensures var s := Run(cfg, Empty(), events);
            var s' := Apply(cfg, s, Timed(now, Sweep));
            && a in s.lastHeartbeat && a in s.ttl
            && (a !in s'.registry <==> Overdue(cfg, s, a, now))
            && (!s.registry[a].mailbox ==> (a !in s'.registry <==> StatusAt(s, a, now).Stale?))
            && (cfg.mailboxGrace >= 0.0 && a !in s'.registry ==> StatusAt(s, a, now).Stale?)
            && KeptWhole(s, s', a)
  {
    MapsAgree(cfg, Empty(), events);
    SweepJudges(cfg, Run(cfg, Empty(), events), a, now);
  }

  lemma SweepJudges(cfg: Config, s: State, a: AgentId, now: real)
    requires Agree(s) && a in s.registry
    ensures var s' := Swept(s, now, cfg.mailboxGrace);
            && a in s.lastHeartbeat && a in s.ttl
            && (a !in s'.registry <==> Overdue(cfg, s, a, now))
            && KeptWhole(s, s', a)
  {
    assert a in s.lastHeartbeat && a in s.ttl;
  }

  // ---- polling keeps a mailbox alive ----------------------------------------------------

  /** What a pull agent is doing: between two polls since some time, or inside one. */
  datatype Phase = Idle(since: real) | Polling(start: real, hold: real)

  /** At time `at` the agent has neither idled past its TTL nor been held past its wait. */
  predicate OnTime(phase: Phase, at: real, ttl: int) {
    match phase
    case Idle(since) => at - since <= ttl as real
    case Polling(start, hold) => at <= start + hold
  }

  predicate Move(phase: Phase, t: Timed, a: AgentId) {
    match t.event
    case PollStart(b, hold) => b == a ==> phase.Idle? && 0.0 <= hold <= MAX_POLL_WAIT
    case PollEnd(b) => b == a ==> phase.Polling?
    case Register(p) => p.ep.agentId == a ==> p.ep.mailbox && p.given.None?
    case Deregister(b) => b != a
    case Restart => false
    case _ => true
  }

  function After(phase: Phase, t: Timed, a: AgentId): Phase {
    match t.event
    case PollStart(b, hold) => if b == a then Polling(t.at, hold) else phase
    case PollEnd(b) => if b == a then Idle(t.at) else phase
    case _ => phase
  }

  /**
   * The run is one in which `a` keeps polling: it never idles longer than its TTL between two
   * polls, every hold respects its bound, and `a` itself is not removed, reset or turned into
   * a dialable endpoint. Everything else may happen at any time.
   */
  predicate Attentive(a: AgentId, ttl: int, phase: Phase, now: real, events: seq<Timed>)
    decreases |events|
  {
    events == [] ||
    (&& now <= events[0].at
     && OnTime(phase, events[0].at, ttl)
     && Move(phase, events[0], a)
     && Attentive(a, ttl, After(phase, events[0], a), events[0].at, events[1..]))
  }

  /** `a` is registered with a mailbox and a heartbeat no older than its phase allows. */
  ghost predicate Alive(s: State, a: AgentId, ttl: int, phase: Phase, now: real) {
    && a in s.registry && s.registry[a].agentId == a && s.registry[a].mailbox
    && a in s.mailboxes && a in s.ttl && s.ttl[a] == ttl
    && a in s.lastHeartbeat
    && match phase
       case Idle(since) => s.lastHeartbeat[a] >= since - MAX_POLL_WAIT
       case Polling(start, hold) => s.lastHeartbeat[a] >= start && 0.0 <= hold <= MAX_POLL_WAIT
  }

  /** The entries of agent `a` that decide about its eviction. */
  ghost predicate SameEntries(s: State, s': State, a: AgentId) {
    && a in s'.registry && a in s.registry && s'.registry[a] == s.registry[a]
    && (a in s.mailboxes ==> a in s'.mailboxes)
    && a in s'.ttl && a in s.ttl && s'.ttl[a] == s.ttl[a]
    && a in s'.lastHeartbeat && a in s.lastHeartbeat && s'.lastHeartbeat[a] == s.lastHeartbeat[a]
  }

  lemma OtherRegistration(cfg: Config, s: State, a: AgentId, p: Registration.Accepted, at: real)
    requires SameEntries(s, s, a) && p.ep.agentId != a
    ensures SameEntries(s, Registered(s, p.ep, p.caps, p.given, at, cfg.defaultTtl), a)
  {
  }

  lemma OtherPoll(cfg: Config, s: State, a: AgentId, b: AgentId, at: real)
    requires SameEntries(s, s, a) && b != a
    ensures SameEntries(s, PollStarted(s, b, at, cfg.defaultTtl), a)
  {
  }

  lemma OtherSend(s: State, a: AgentId, m: Message, caller: AgentId, dial: Dial, stamp: Stamp, at: real)
    requires SameEntries(s, s, a)
    ensures SameEntries(s, Sent(s, m, caller, dial, stamp, at).maps, a)
  {
  }

  lemma OthersDoNotMatter(cfg: Config, s: State, a: AgentId, t: Timed)
    requires SameEntries(s, s, a)
    requires match t.event
             case Register(p) => p.ep.agentId != a
             case Deregister(b) => b != a
             case PollStart(b, _) => b != a
             case Sweep => !Expired(s, s.registry[a], t.at, cfg.mailboxGrace)
             case Restart => false
             case _ => true
    ensures SameEntries(s, Apply(cfg, s, t), a)
  {
    match t.event
    case Send(m, caller, dial, stamp) => OtherSend(s, a, m, caller, dial, stamp, t.at);
    case Register(p) => OtherRegistration(cfg, s, a, p, t.at);
    case PollStart(b, _) => OtherPoll(cfg, s, a, b, t.at);
    case Sweep =>
    case Deregister(_) =>
    case PollEnd(_) =>
  }

  lemma StepKeepsAlive(cfg: Config, s: State, a: AgentId, ttl: int, phase: Phase, now: real, t: Timed)
    requires cfg.mailboxGrace >= MAX_POLL_WAIT
    requires Alive(s, a, ttl, phase, now) && now <= t.at && OnTime(phase, t.at, ttl) && Move(phase, t, a)
    requires phase.Idle? ==> phase.since <= now
    requires phase.Polling? ==> phase.start <= now
    ensures Alive(Apply(cfg, s, t), a, ttl, After(phase, t, a), t.at)
  {
    if t.event.Register? && t.event.p.ep.agentId == a {
      assert Apply(cfg, s, t) == Registered(s, t.event.p.ep, t.event.p.caps, None, t.at, cfg.defaultTtl);
    } else if t.event.PollStart? && t.event.a == a {
      assert Apply(cfg, s, t) == PollStarted(s, a, t.at, cfg.defaultTtl);
    } else {
      OthersDoNotMatter(cfg, s, a, t);
    }
  }

  lemma {:induction false} AttentiveAgentSurvives(cfg: Config, s: State, a: AgentId, ttl: int, phase: Phase, now: real,
                                                  events: seq<Timed>)
    requires cfg.mailboxGrace >= MAX_POLL_WAIT
    requires Alive(s, a, ttl, phase, now) && Attentive(a, ttl, phase, now, events)
    requires phase.Idle? ==> phase.since <= now
    requires phase.Polling? ==> phase.start <= now
    ensures a in Run(cfg, s, events).registry && a in Run(cfg, s, events).mailboxes
    decreases |events|
  {
    if events != [] {
      StepKeepsAlive(cfg, s, a, ttl, phase, now, events[0]);
      AttentiveAgentSurvives(cfg, Apply(cfg, s, events[0]), a, ttl, After(phase, events[0], a), events[0].at,
                             events[1..]);
    }
  }

  /** `a` has just been registered as a pull agent with the given TTL. */
  function JustRegistered(cfg: Config, a: AgentId, ttl: int, at: real): State {
    Registered(Empty(), MailboxEndpoint(a), map[], Some(ttl), at, cfg.defaultTtl)
  }

  ghost predicate PollingSuffices(cfg: Config, a: AgentId, ttl: int) {
    forall at, events ::
      Attentive(a, ttl, Idle(at), at, events) ==> a in Run(cfg, JustRegistered(cfg, a, ttl, at), events).registry
  }

  /**
   * An agent that idles at most its TTL between polls is never evicted if and only if the grace
   * is at least the longest hold of a poll, which is what the default grace is.
   */
  lemma PollingSufficesExactly(cfg: Config, a: AgentId, ttl: int)
    requires ttl > 0
    ensures PollingSuffices(cfg, a, ttl) <==> cfg.mailboxGrace >= MAX_POLL_WAIT
  {
    if cfg.mailboxGrace >= MAX_POLL_WAIT {
      forall at, events | Attentive(a, ttl, Idle(at), at, events)
        ensures a in Run(cfg, JustRegistered(cfg, a, ttl, at), events).registry
      {
        AttentiveAgentSurvives(cfg, JustRegistered(cfg, a, ttl, at), a, ttl, Idle(at), at, events);
      }
    } else {
      EvictedWhileAttentive(cfg, a, ttl);
    }
  }

  /** One full hold, then one full idle gap: the sweep sees a heartbeat of age hold plus TTL. */
  /** Polls at once and for as long as it can, idles for all of its TTL, and then comes the sweep. */
  function LateSweep(a: AgentId, ttl: int): seq<Timed> {
    [Timed(0.0, PollStart(a, MAX_POLL_WAIT)), Timed(MAX_POLL_WAIT, PollEnd(a)),
     Timed(MAX_POLL_WAIT + ttl as real, Sweep)]
  }

  lemma LateSweepAttentive(a: AgentId, ttl: int)
    requires ttl > 0
    ensures Attentive(a, ttl, Idle(0.0), 0.0, LateSweep(a, ttl))
  {
    var e := LateSweep(a, ttl);
    assert e[1..] == [e[1], e[2]] && [e[1], e[2]][1..] == [e[2]] && [e[2]][1..] == [];
    assert Attentive(a, ttl, Idle(MAX_POLL_WAIT), MAX_POLL_WAIT, [e[2]]);
    assert Attentive(a, ttl, Polling(0.0, MAX_POLL_WAIT), 0.0, [e[1], e[2]]);
  }

  lemma LateSweepEvicts(cfg: Config, a: AgentId, ttl: int)
    requires ttl > 0 && cfg.mailboxGrace < MAX_POLL_WAIT
    ensures a !in Run(cfg, JustRegistered(cfg, a, ttl, 0.0), LateSweep(a, ttl)).registry
  {
    var e := LateSweep(a, ttl);
    assert e[1..] == [e[1], e[2]] && [e[1], e[2]][1..] == [e[2]] && [e[2]][1..] == [];
    var s0 := JustRegistered(cfg, a, ttl, 0.0);
    var s1 := Apply(cfg, s0, e[0]);
    var s2 := Apply(cfg, s1, e[1]);
    assert s2.lastHeartbeat[a] == 0.0 && s2.ttl[a] == ttl && s2.registry[a].mailbox;
    assert Run(cfg, s2, [e[2]]) == Apply(cfg, s2, e[2]);
    assert Run(cfg, s1, [e[1], e[2]]) == Apply(cfg, s2, e[2]);
  }

  lemma EvictedWhileAttentive(cfg: Config, a: AgentId, ttl: int)
    requires ttl > 0 && cfg.mailboxGrace < MAX_POLL_WAIT
    ensures !PollingSuffices(cfg, a, ttl)
  {
    LateSweepAttentive(a, ttl);
    LateSweepEvicts(cfg, a, ttl);
  }
}
