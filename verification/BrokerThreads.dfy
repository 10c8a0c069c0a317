/**
 * Any number of handler threads and sweepers running the programs of
 * `LockPrograms` against one set of dictionaries, interleaved at every lock
 * operation and every access.
 */
module BrokerThreads {
  import opened Wrappers
  import opened BrokerState
  import opened LockPrograms

  datatype Config = Config(limited: bool, defaultTtl: int, mailboxGrace: real)

  /** Local variables of a running handler. */
  datatype Vars = Vars(endpoint: Option<Endpoint>, hasMailbox: bool, expired: bool, sweepTime: real,
                       endpoints: map<AgentId, Endpoint>, agents: set<AgentId>)

  datatype Thread = Thread(job: Job, prog: Prog, vars: Vars, status: Option<int>)

  /** `sender` is the thread that ran the send, and stands for its message. */
  datatype Entry = Entry(recipient: AgentId, sender: nat)

  datatype Removal =
    | Delivered(a: AgentId, to: nat, messages: seq<nat>)
    | Dropped(a: AgentId, messages: seq<nat>)

  /**
   * `log` records every append to a mailbox and `removals` every batch taken out of one; both are
   * histories that no program reads, and so is `recorded`, the threads that have added to the traffic log.
   * `notified` are the sleeping threads that a `notify_all` has woken.
   */
  datatype State = State(maps: Maps<nat>, holder: map<Lock, nat>, threads: map<nat, Thread>,
                         log: seq<Entry>, removals: seq<Removal>, notified: set<nat>, recorded: seq<nat>)

  const START := State(Empty(), map[], map[], [], [], {}, [])

  const FRESH := Vars(None, false, false, 0.0, map[], {})

  /** What a step may depend on besides the state: the clock, timeouts, loop order, the network. */
  datatype Choice = Choice(now: real, yes: bool, pick: AgentId)

  datatype Action = Spawn(t: nat, who: string, job: Job) | Run(t: nat, choice: Choice)

  // ---- one step -----------------------------------------------------------

  function Apply(cfg: Config, op: Op, m: Maps<nat>, v: Vars, now: real): Maps<nat> {
    match op
    case RegistryPut(ep) => PutEndpoint(m, ep)
    case RegistryDrop(a) => DropEndpoint(m, a)
    case CapabilitiesPut(a, caps) => PutCapabilities(m, a, caps)
    case CapabilitiesDefault(a) => DefaultCapabilities(m, a)
    case CapabilitiesDrop(a) => DropCapabilities(m, a)
    case HeartbeatStamp(a, given) => StampRegistration(m, a, now, given, v.endpoint.None?, cfg.defaultTtl)
    case HeartbeatDefault(a) => StampDefault(m, a, now, cfg.defaultTtl)
    case HeartbeatTouch(a) => Touch(m, a, now)
    case HeartbeatDrop(a) => DropHeartbeat(m, a)
    case MailboxDefault(a) => DefaultMailbox(m, a)
    case MailboxDrop(a) => DropMailbox(m, a)
    case _ => m
  }

  function Read(cfg: Config, op: Op, m: Maps<nat>, v: Vars, now: real): Vars {
    match op
    case RegistryLookup(a) => v.(endpoint := if a in m.registry then Some(m.registry[a]) else None)
    case RegistryList => v.(sweepTime := now, endpoints := m.registry)
    case HeartbeatRead(ep) => v.(expired := Expired(m, ep, v.sweepTime, cfg.mailboxGrace))
    case CapabilitiesKeys => v.(agents := m.capabilities.Keys)
    case _ => v
  }

  function Removes(op: Op, m: Maps<nat>): seq<Removal> {
    if op.MailboxDrop? && op.a in m.mailboxes then [Dropped(op.a, m.mailboxes[op.a])] else []
  }

  /** The threads inside the condition wait. */
  function Sleepers(s: State): set<nat> {
    set t | t in s.threads && s.threads[t].prog.Do? && s.threads[t].prog.instr.Asleep?
  }

  predicate Holds(v: Vars, test: Test, c: Choice) {
    match test
    case Found => v.endpoint.Some?
    case FoundMailbox => v.endpoint.Some? && v.endpoint.value.mailbox
    case HasMailbox => v.hasMailbox
    case IsExpired => v.expired
    case Oracle => c.yes
  }

  /** Thread `t` is neither finished, nor asleep, nor waiting for a lock that is taken. */
  predicate Enabled(s: State, t: nat, c: Choice) {
    && t in s.threads
    && match s.threads[t].prog
       case Done => false
       case If(_, _, _) => true
       case Do(Acquire(l), _) => l !in s.holder
       case Do(ForEachEndpoint, _) =>
         s.threads[t].vars.endpoints == map[] || c.pick in s.threads[t].vars.endpoints
       case Do(ForEachAgent, _) => s.threads[t].vars.agents == {} || c.pick in s.threads[t].vars.agents
       case Do(_, _) => true
  }

  function Goto(s: State, t: nat, p: Prog): State
    requires t in s.threads
  {
    s.(threads := s.threads[t := s.threads[t].(prog := p)])
  }

  /** What `Do(i, k)` does when thread `t` executes it. */
  function Execute(cfg: Config, s: State, t: nat, c: Choice, i: Instr, k: Prog): State
    requires t in s.threads
  {
    var th := s.threads[t];
    var m := s.maps;
    match i
    case Acquire(l) => Goto(s, t, k).(holder := s.holder[l := t])
    case Release(l) => Goto(s, t, k).(holder := s.holder - {l})
    case Access(op) =>
      s.(maps := Apply(cfg, op, m, th.vars, c.now),
         removals := s.removals + Removes(op, m),
         recorded := if op.TrafficAppend? then s.recorded + [t] else s.recorded,
         notified := if op.MailboxDrop? then s.notified + Sleepers(s) else s.notified,
         threads := s.threads[t := th.(prog := k, vars := Read(cfg, op, m, th.vars, c.now))])
    case PeekMailbox(a) =>
      s.(threads := s.threads[t := th.(prog := k, vars := th.vars.(hasMailbox := a in m.mailboxes))])
    case Enqueue(a) => Goto(s, t, Do(Append(a), k)).(maps := DefaultMailbox(m, a))
    case Append(a) =>
      Goto(s, t, k).(maps := PutQueue(m, a, Queue(m, a) + [t]), log := s.log + [Entry(a, t)],
                     notified := s.notified + Sleepers(s))
    case PollBox(a) =>
      if a !in m.mailboxes then Goto(s, t, Do(Respond(200), Do(Release(MailboxCond), Done)))
      else if m.mailboxes[a] == [] && c.yes then
        Goto(s, t, Do(Asleep, Do(Acquire(MailboxCond), Do(PollBox(a), k)))).(holder := s.holder - {MailboxCond})
      else Goto(s, t, Do(Clear(a, m.mailboxes[a]), k))
    case Clear(a, copied) =>
      Goto(s, t, k).(maps := PutQueue(m, a, []), removals := s.removals + [Delivered(a, t, copied)])
    case Asleep => Goto(s, t, k).(notified := s.notified - {t})
    case ForEachEndpoint =>
      if c.pick !in th.vars.endpoints then Goto(s, t, k)
      else
        var ep := th.vars.endpoints[c.pick];
        s.(threads := s.threads[t := th.(prog := SweepOne(ep, Do(ForEachEndpoint, k)),
                                         vars := th.vars.(endpoints := th.vars.endpoints - {c.pick}))])
    case ForEachAgent =>
      if c.pick !in th.vars.agents then Goto(s, t, k)
      else
        var look := Do(Acquire(RegistryLock), Do(Access(RegistryLookup(c.pick)), Do(Release(RegistryLock), Do(i, k))));
        s.(threads := s.threads[t := th.(prog := look, vars := th.vars.(agents := th.vars.agents - {c.pick}))])
    case Respond(status) => s.(threads := s.threads[t := th.(prog := k, status := Some(status))])
  }

  function Next(cfg: Config, s: State, t: nat, c: Choice): State
    requires t in s.threads
  {
    match s.threads[t].prog
    case Done => s
    case If(test, yes, no) => Goto(s, t, if Holds(s.threads[t].vars, test, c) then yes else no)
    case Do(i, k) => Execute(cfg, s, t, c, i, k)
  }

  predicate Possible(s: State, a: Action) {
    match a
    case Spawn(t, _, _) => t !in s.threads
    case Run(t, c) => Enabled(s, t, c)
  }

  function Step(cfg: Config, s: State, a: Action): State
    requires Possible(s, a)
  {
    match a
    case Spawn(t, who, job) =>
      s.(threads := s.threads[t := Thread(job, Handler(cfg.limited, who, job), FRESH, None)])
    case Run(t, c) => Next(cfg, s, t, c)
  }

  ghost predicate Leads(cfg: Config, s: State, actions: seq<Action>, s': State)
    decreases |actions|
  {
    if actions == [] then s == s'
    else
      var n := |actions| - 1;
      exists mid ::
        Leads(cfg, s, actions[..n], mid) && Possible(mid, actions[n]) && s' == Step(cfg, mid, actions[n])
  }

  ghost predicate Reachable(cfg: Config, s: State) {
    exists actions :: Leads(cfg, START, actions, s)
  }

  // ---- histories ------------------------------------------------------------

  /** The messages ever queued for `a`, in the order of their appends. */
  function QueuedFor(log: seq<Entry>, a: AgentId): seq<nat> {
    if log == [] then []
    else
      var n := |log| - 1;
      QueuedFor(log[..n], a) + if log[n].recipient == a then [log[n].sender] else []
  }

  /** The messages ever taken out of `a`'s mailbox, in order. */
  function TakenFrom(removals: seq<Removal>, a: AgentId): seq<nat> {
    if removals == [] then []
    else
      var n := |removals| - 1;
      TakenFrom(removals[..n], a) + if removals[n].a == a then removals[n].messages else []
  }

  ghost predicate InLog(s: State, t: nat) {
    exists i :: 0 <= i < |s.log| && s.log[i].sender == t
  }

  // ---- the invariant ----------------------------------------------------------

  function HeldBy(s: State, t: nat): set<Lock> {
    set l | l in s.holder && s.holder[l] == t
  }

  /** Where thread `t` stands with its program, given its message's fate so far. */
  ghost predicate ThreadOk(s: State, t: nat)
    requires t in s.threads
  {
    var th := s.threads[t];
    && WellLocked(HeldBy(s, t), th.prog)
    && if th.status.Some? then Closing(th.prog) && (th.status.value == 202 <==> InLog(s, t)) else Underway(s, t)
  }

  /** A thread that has not answered yet. */
  ghost predicate Underway(s: State, t: nat)
    requires t in s.threads
  {
    var th := s.threads[t];
    match th.prog
    case Done => th.job.SweepJob?
    case Do(Append(a), k) =>
      th.job == SendJob(a) && !InLog(s, t) && a in s.maps.mailboxes && Accountable(th.job, true, k)
    case Do(Clear(a, copied), k) =>
      && th.job == PollJob(a) && !InLog(s, t) && Accountable(th.job, false, k)
      && a in s.maps.mailboxes && s.maps.mailboxes[a] == copied
    case Do(Asleep, k) => Accountable(th.job, InLog(s, t), k)
    case _ => Accountable(th.job, InLog(s, t), th.prog)
  }

  ghost predicate ThreadsOk(s: State) {
    && (forall l <- s.holder :: s.holder[l] in s.threads)
    && forall t <- s.threads :: ThreadOk(s, t)
  }

  ghost predicate HistoryOk(s: State) {
    && (forall i :: 0 <= i < |s.log| ==>
          s.log[i].sender in s.threads && s.threads[s.log[i].sender].job == SendJob(s.log[i].recipient))
    && (forall i, j :: 0 <= i < j < |s.log| ==> s.log[i].sender != s.log[j].sender)
    && (forall i :: 0 <= i < |s.removals| && s.removals[i].Delivered? ==>
          s.removals[i].to in s.threads && s.threads[s.removals[i].to].job == PollJob(s.removals[i].a))
  }

  ghost predicate Conserved(s: State) {
    forall a :: QueuedFor(s.log, a) == TakenFrom(s.removals, a) + Queue(s.maps, a)
  }

  ghost predicate Inv(s: State) {
    ThreadsOk(s) && HistoryOk(s) && Conserved(s)
  }
}
