/** Every handler of the broker passes both static checks of `LockPrograms`. */
module LockChecks {
  import opened Wrappers
  import opened Json
  import opened BrokerState
  import opened LockPrograms

  lemma SectionChecked(op: Op, k: Prog, job: Job, queued: bool)
    requires Checked(job, queued, k)
    ensures Checked(job, queued, Section(op, k))
  {
    var l := LockOf(op);
    assert {} + {l} == {l} && {l} - {l} == {};
    var q := Do(Release(l), k);
    assert WellLocked({l}, q) && Accountable(job, queued, q);
    assert WellLocked({l}, Do(Access(op), q)) && Accountable(job, queued, Do(Access(op), q));
  }

  lemma AnswerChecked(status: int, job: Job, queued: bool)
    requires queued <==> status == 202
    ensures Checked(job, queued, Answer(status))
  {
    RespondChecked(status, job, queued);
    SectionChecked(AuditWrite, Do(Respond(status), Done), job, queued);
  }

  lemma RespondChecked(status: int, job: Job, queued: bool)
    requires queued <==> status == 202
    ensures Checked(job, queued, Do(Respond(status), Done))
  {
    assert WellLocked({}, Done);
  }

  lemma AdmitChecked(limited: bool, who: string, k: Prog, job: Job)
    requires Checked(job, false, k)
    ensures Checked(job, false, Admit(limited, who, k))
  {
    RespondChecked(429, job, false);
    var fork := If(Oracle, Do(Respond(429), Done), k);
    assert Checked(job, false, fork);
    SectionChecked(BucketConsume(who), fork, job, false);
    SectionChecked(BucketFind, Section(BucketConsume(who), fork), job, false);
  }

  lemma RegisterChecked(ep: Endpoint, caps: Object, given: Option<int>, job: Job)
    ensures Checked(job, false, Register(ep, caps, given))
  {
    var a := ep.agentId;
    AnswerChecked(200, job, false);
    AnswerChecked(201, job, false);
    var fork := If(Found, Answer(200), Answer(201));
    assert Checked(job, false, fork);
    SectionChecked(HeartbeatStamp(a, given), fork, job, false);
    SectionChecked(CapabilitiesPut(a, caps), Section(HeartbeatStamp(a, given), fork), job, false);
    var rest := RegisterRest(ep, caps, given);
    SectionChecked(MailboxDefault(a), rest, job, false);
    var box := if ep.mailbox then Section(MailboxDefault(a), rest) else rest;
    SectionChecked(RegistryPut(ep), box, job, false);
    SectionChecked(RegistryLookup(a), Section(RegistryPut(ep), box), job, false);
  }

  lemma RemoveAllChecked(a: AgentId, k: Prog, job: Job, queued: bool)
    requires Checked(job, queued, k)
    ensures Checked(job, queued, RemoveAll(a, k))
  {
    SectionChecked(MailboxDrop(a), k, job, queued);
    var p4 := Section(MailboxDrop(a), k);
    SectionChecked(HeartbeatDrop(a), p4, job, queued);
    var p3 := Section(HeartbeatDrop(a), p4);
    SectionChecked(CapabilitiesDrop(a), p3, job, queued);
    SectionChecked(RegistryDrop(a), Section(CapabilitiesDrop(a), p3), job, queued);
  }

  lemma RouteChecked(b: AgentId)
    ensures Checked(SendJob(b), false, Refuse()) && Checked(SendJob(b), false, Route(b))
  {
    var job := SendJob(b);
    AnswerChecked(200, job, false);
    AnswerChecked(204, job, false);
    AnswerChecked(404, job, false);
    AnswerChecked(502, job, false);
    SectionChecked(TrafficAppend, Answer(404), job, false);
    SectionChecked(TrafficAppend, Answer(502), job, false);
    var success := If(Oracle, Answer(200), Answer(204));
    assert Checked(job, false, success);
    SectionChecked(TrafficAppend, success, job, false);
    var fork := If(Oracle, Section(TrafficAppend, success), Section(TrafficAppend, Answer(502)));
    assert Checked(job, false, fork);
    assert Checked(job, false, If(Found, fork, Refuse()));
    SectionChecked(RegistryLookup(b), If(Found, fork, Refuse()), job, false);
  }

  lemma SendChecked(b: AgentId)
    ensures Checked(SendJob(b), false, Send(b))
  {
    var job := SendJob(b);
    RouteChecked(b);
    AnswerChecked(202, job, true);
    SectionChecked(TrafficAppend, Answer(202), job, true);
    MailboxSectionChecked(Enqueue(b), Section(TrafficAppend, Answer(202)), job);
    var fork := If(FoundMailbox, QueueFor(b), Route(b));
    assert Checked(job, false, fork);
    assert Checked(job, false, If(Found, fork, Refuse()));
    SectionChecked(RegistryLookup(b), If(Found, fork, Refuse()), job, false);
  }

  lemma MailboxSectionChecked(i: Instr, k: Prog, job: Job)
    requires (i.Enqueue? || i.PollBox?) && Fits(job, false, i) && Checked(job, i.Enqueue?, k)
    ensures Checked(job, false, Do(Acquire(MailboxCond), Do(i, Do(Release(MailboxCond), k))))
  {
    assert {} + {MailboxCond} == {MailboxCond} && {MailboxCond} - {MailboxCond} == {};
    var q := Do(Release(MailboxCond), k);
    assert WellLocked({MailboxCond}, q) && Accountable(job, i.Enqueue?, q);
    assert WellLocked({MailboxCond}, Do(i, q)) && Accountable(job, false, Do(i, q));
  }

  lemma PollChecked(a: AgentId)
    ensures Checked(PollJob(a), false, Poll(a))
  {
    var job := PollJob(a);
    AnswerChecked(200, job, false);
    MailboxSectionChecked(PollBox(a), Answer(200), job);
    SectionChecked(HeartbeatTouch(a), Listen(a), job, false);
    SectionChecked(AuditWrite, Refresh(a), job, false);
    var p4 := Section(AuditWrite, Refresh(a));
    SectionChecked(HeartbeatDefault(a), p4, job, false);
    SectionChecked(CapabilitiesDefault(a), Section(HeartbeatDefault(a), p4), job, false);
    SectionChecked(MailboxDefault(a), HealRest(a), job, false);
    SectionChecked(RegistryPut(MailboxEndpoint(a)), Section(MailboxDefault(a), HealRest(a)), job, false);
    assert Checked(job, false, If(HasMailbox, Refresh(a), Heal(a)));
  }

  lemma AgentsChecked(job: Job)
    ensures Checked(job, false, Agents())
  {
    var held := {CapabilitiesLock};
    assert {} + held == held && held - held == {};
    RespondChecked(200, job, false);
    var finish := Do(Release(CapabilitiesLock), Do(Respond(200), Done));
    assert WellLocked(held, finish) && Accountable(job, false, finish);
    var loop := Do(ForEachAgent, finish);
    assert WellLocked(held, loop) && Accountable(job, false, loop);
    var body := Do(Access(CapabilitiesKeys), loop);
    assert WellLocked(held, body) && Accountable(job, false, body);
    assert Checked(job, false, Do(Acquire(CapabilitiesLock), body));
    SectionChecked(HeartbeatSnapshot, Do(Acquire(CapabilitiesLock), body), job, false);
  }

  lemma SweepOneChecked(ep: Endpoint, k: Prog, job: Job, queued: bool)
    requires Checked(job, queued, k)
    ensures Checked(job, queued, SweepOne(ep, k))
  {
    RemoveAllChecked(ep.agentId, k, job, queued);
    assert Checked(job, queued, If(IsExpired, RemoveAll(ep.agentId, k), k));
    SectionChecked(HeartbeatRead(ep), If(IsExpired, RemoveAll(ep.agentId, k), k), job, queued);
  }

  /** Whatever the request and the configuration, the handler's program passes both checks. */
  lemma HandlerChecked(limited: bool, who: string, job: Job)
    ensures Checked(job, false, Handler(limited, who, job))
  {
    match job
    case RegisterJob(ep, caps, given) =>
      RegisterChecked(ep, caps, given, job);
      AdmitChecked(limited, who, Register(ep, caps, given), job);
    case DeregisterJob(a) =>
      AnswerChecked(204, job, false);
      RemoveAllChecked(a, Answer(204), job, false);
      AdmitChecked(limited, who, RemoveAll(a, Answer(204)), job);
    case SendJob(b) =>
      SendChecked(b);
      AdmitChecked(limited, who, Send(b), job);
    case PollJob(a) =>
      PollChecked(a);
      AdmitChecked(limited, who, Poll(a), job);
    case AgentsJob =>
      AgentsChecked(job);
      AdmitChecked(limited, who, Agents(), job);
    case TrafficJob =>
      AnswerChecked(200, job, false);
      SectionChecked(TrafficRead, Answer(200), job, false);
      AdmitChecked(limited, who, Section(TrafficRead, Answer(200)), job);
    case SweepJob =>
      assert Checked(job, false, Do(ForEachEndpoint, Done));
      SectionChecked(RegistryList, Do(ForEachEndpoint, Done), job, false);
  }
}
