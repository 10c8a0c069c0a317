/**
 * The broker's request handlers and its sweeper as programs over individual lock
 * operations and dictionary accesses, with two static checks on such programs:
 * `WellLocked` (every access but a poll's first look at the mailboxes is made under
 * its lock, locks nest in rank order and are all given back) and `Accountable` (a
 * handler touches mailboxes only for its own agent and answers 202 exactly on the
 * paths that enqueue).
 */
module LockPrograms {
  import opened Wrappers
  import opened Json
  import opened BrokerState

  datatype Lock =
    | CapabilitiesLock
    | RegistryLock
    | HeartbeatLock
    | MailboxCond
    | TrafficLock
    | AuditLock
    | BucketsLock
    | BucketLock(principal: string)

  /** The one nesting in the broker is `GET /agents`: capabilities lock, then registry lock. */
  function Rank(l: Lock): nat {
    if l == CapabilitiesLock then 0 else 1
  }

  /** One dictionary access, made inside one critical section. */
  datatype Op =
    | RegistryPut(ep: Endpoint)
    | RegistryDrop(a: AgentId)
    | RegistryLookup(a: AgentId)
    | RegistryList
    | CapabilitiesPut(a: AgentId, caps: Object)
    | CapabilitiesDefault(a: AgentId)
    | CapabilitiesDrop(a: AgentId)
    | CapabilitiesKeys
    | HeartbeatStamp(a: AgentId, given: Option<int>)
    | HeartbeatDefault(a: AgentId)
    | HeartbeatTouch(a: AgentId)
    | HeartbeatRead(ep: Endpoint)
    | HeartbeatDrop(a: AgentId)
    | HeartbeatSnapshot
    | MailboxDefault(a: AgentId)
    | MailboxDrop(a: AgentId)
    | TrafficAppend
    | TrafficRead
    | AuditWrite
    | BucketFind
    | BucketConsume(principal: string)

  function LockOf(op: Op): Lock {
    match op
    case RegistryPut(_) | RegistryDrop(_) | RegistryLookup(_) | RegistryList => RegistryLock
    case CapabilitiesPut(_, _) | CapabilitiesDefault(_) | CapabilitiesDrop(_) | CapabilitiesKeys => CapabilitiesLock
    case HeartbeatStamp(_, _) | HeartbeatDefault(_) | HeartbeatTouch(_) | HeartbeatRead(_) | HeartbeatDrop(_)
       | HeartbeatSnapshot => HeartbeatLock
    case MailboxDefault(_) | MailboxDrop(_) => MailboxCond
    case TrafficAppend | TrafficRead => TrafficLock
    case AuditWrite => AuditLock
    case BucketFind => BucketsLock
    case BucketConsume(p) => BucketLock(p)
  }

  datatype Instr =
    | Acquire(l: Lock)
    | Release(l: Lock)
    | Access(op: Op)
    /** `poll_id in mailboxes`, read without a lock. */
    | PeekMailbox(a: AgentId)
    /** `mailboxes.setdefault(...)`; the queue's `append` is the separate step `Append`. */
    | Enqueue(a: AgentId)
    | Append(a: AgentId)
    /** Fetch the queue and copy it; emptying it is the separate step `Clear`. */
    | PollBox(a: AgentId)
    | Clear(a: AgentId, copied: seq<nat>)
    /** Blocked in the condition wait; the lock is not held. */
    | Asleep
    | ForEachEndpoint
    | ForEachAgent
    | Respond(status: int)

  datatype Test = Found | FoundMailbox | HasMailbox | IsExpired | Oracle

  datatype Prog = Done | Do(instr: Instr, next: Prog) | If(test: Test, yes: Prog, no: Prog)

  // ---- static checks ----------------------------------------------------

  /** May a thread holding `held` execute `i`? */
  predicate Permits(held: set<Lock>, i: Instr) {
    match i
    case Acquire(l) => forall h <- held :: Rank(h) < Rank(l)
    case Release(l) => l in held
    case Access(op) => LockOf(op) in held
    case Enqueue(_) | Append(_) | PollBox(_) | Clear(_, _) => held == {MailboxCond}
    case ForEachAgent => held == {CapabilitiesLock}
    case Asleep | ForEachEndpoint => held == {}
    case PeekMailbox(_) | Respond(_) => true
  }

  /** The locks held once `i` is through. */
  function HeldAfter(held: set<Lock>, i: Instr): set<Lock> {
    match i
    case Acquire(l) => held + {l}
    case Release(l) => held - {l}
    case _ => held
  }

  ghost predicate WellLocked(held: set<Lock>, p: Prog)
    decreases p
  {
    match p
    case Done => held == {}
    case If(_, yes, no) => WellLocked(held, yes) && WellLocked(held, no)
    case Do(i, k) => Permits(held, i) && WellLocked(HeldAfter(held, i), k)
  }

  datatype Job =
    | RegisterJob(ep: Endpoint, caps: Object, given: Option<int>)
    | DeregisterJob(a: AgentId)
    | SendJob(recipient: AgentId)
    | PollJob(a: AgentId)
    | AgentsJob
    | TrafficJob
    | SweepJob

  /** `queued`: the job's message has already been appended to a mailbox. */
  predicate Fits(job: Job, queued: bool, i: Instr) {
    match i
    case Enqueue(a) => job == SendJob(a) && !queued
    case PollBox(a) => job == PollJob(a) && !queued
    case Append(_) | Clear(_, _) | Asleep => false
    case Respond(status) => queued <==> status == 202
    case _ => true
  }

  /** What may follow the response: an evicted poll still holds the mailbox lock while it answers. */
  predicate Closing(k: Prog) {
    k == Done || k == Do(Release(MailboxCond), Done)
  }

  ghost predicate Accountable(job: Job, queued: bool, p: Prog)
    decreases p
  {
    match p
    case Done => job.SweepJob?
    case If(_, yes, no) => Accountable(job, queued, yes) && Accountable(job, queued, no)
    case Do(i, k) =>
      && Fits(job, queued, i)
      && if i.Respond? then Closing(k) else Accountable(job, queued || i.Enqueue?, k)
  }

  /** Both checks, for a program started without locks. */
  ghost predicate Checked(job: Job, queued: bool, p: Prog) {
    WellLocked({}, p) && Accountable(job, queued, p)
  }

  // ---- the handlers -----------------------------------------------------

  /** `with lock: op`. */
  function Section(op: Op, k: Prog): Prog {
    Do(Acquire(LockOf(op)), Do(Access(op), Do(Release(LockOf(op)), k)))
  }

  /** Write the audit record and answer. */
  function Answer(status: int): Prog {
    Section(AuditWrite, Do(Respond(status), Done))
  }

  /** The rate limiter in front of every authenticated request. */
  function Admit(limited: bool, who: string, k: Prog): Prog {
    if limited then Section(BucketFind, Section(BucketConsume(who), If(Oracle, Do(Respond(429), Done), k))) else k
  }

  /** `POST /agents` with a valid payload; `Found` tells whether the first lookup succeeded. */
  function Register(ep: Endpoint, caps: Object, given: Option<int>): Prog {
    var rest := RegisterRest(ep, caps, given);
    Section(RegistryLookup(ep.agentId),
            Section(RegistryPut(ep), if ep.mailbox then Section(MailboxDefault(ep.agentId), rest) else rest))
  }

  function RegisterRest(ep: Endpoint, caps: Object, given: Option<int>): Prog {
    Section(CapabilitiesPut(ep.agentId, caps),
            Section(HeartbeatStamp(ep.agentId, given), If(Found, Answer(200), Answer(201))))
  }

  /** Unregister, then drop capabilities, heartbeat and mailbox, one lock after the other. */
  function RemoveAll(a: AgentId, k: Prog): Prog {
    Section(RegistryDrop(a), Section(CapabilitiesDrop(a), Section(HeartbeatDrop(a), Section(MailboxDrop(a), k))))
  }

  /** `POST /messages`: look the recipient up, then queue for its mailbox or dial it. */
  function Send(recipient: AgentId): Prog {
    Section(RegistryLookup(recipient),
            If(Found, If(FoundMailbox, QueueFor(recipient), Route(recipient)), Refuse()))
  }

  function Refuse(): Prog {
    Section(TrafficAppend, Answer(404))
  }

  /** The router looks the recipient up once more; the network decides the rest. */
  function Route(recipient: AgentId): Prog {
    var answered := Section(TrafficAppend, If(Oracle, Answer(200), Answer(204)));
    var failed := Section(TrafficAppend, Answer(502));
    Section(RegistryLookup(recipient), If(Found, If(Oracle, answered, failed), Refuse()))
  }

  function QueueFor(recipient: AgentId): Prog {
    Do(Acquire(MailboxCond),
       Do(Enqueue(recipient), Do(Release(MailboxCond), Section(TrafficAppend, Answer(202)))))
  }

  /** `GET /messages`: self-heal when there is no mailbox, refresh the heartbeat, listen. */
  function Poll(a: AgentId): Prog {
    Do(PeekMailbox(a), If(HasMailbox, Refresh(a), Heal(a)))
  }

  function Heal(a: AgentId): Prog {
    Section(RegistryPut(MailboxEndpoint(a)), Section(MailboxDefault(a), HealRest(a)))
  }

  function HealRest(a: AgentId): Prog {
    Section(CapabilitiesDefault(a), Section(HeartbeatDefault(a), Section(AuditWrite, Refresh(a))))
  }

  function Refresh(a: AgentId): Prog {
    Section(HeartbeatTouch(a), Listen(a))
  }

  function Listen(a: AgentId): Prog {
    Do(Acquire(MailboxCond), Do(PollBox(a), Do(Release(MailboxCond), Answer(200))))
  }

  /** `GET /agents`: the registry is consulted while the capabilities lock is held. */
  function Agents(): Prog {
    var finish := Do(Release(CapabilitiesLock), Do(Respond(200), Done));
    Section(HeartbeatSnapshot,
            Do(Acquire(CapabilitiesLock), Do(Access(CapabilitiesKeys), Do(ForEachAgent, finish))))
  }

  function Sweep(): Prog {
    Section(RegistryList, Do(ForEachEndpoint, Done))
  }

  /** One round of the sweep loop. */
  function SweepOne(ep: Endpoint, k: Prog): Prog {
    Section(HeartbeatRead(ep), If(IsExpired, RemoveAll(ep.agentId, k), k))
  }

  function Handler(limited: bool, who: string, job: Job): Prog {
    match job
    case RegisterJob(ep, caps, given) => Admit(limited, who, Register(ep, caps, given))
    case DeregisterJob(a) => Admit(limited, who, RemoveAll(a, Answer(204)))
    case SendJob(b) => Admit(limited, who, Send(b))
    case PollJob(a) => Admit(limited, who, Poll(a))
    case AgentsJob => Admit(limited, who, Agents())
    case TrafficJob => Admit(limited, who, Section(TrafficRead, Answer(200)))
    case SweepJob => Sweep()
  }
}
