/** What the broker queues, the pulling agent gets: the serial broker and the client's batch reader together. */
module PullDelivery {
  import opened Wrappers
  import opened BrokerState
  import opened Messages
  import opened BrokerRuns
  import Broker
  import Codec
  import Registration
  import Transport = BrokeredTransport

  predicate AllSendable(s: State) {
    forall a <- s.mailboxes :: forall i :: 0 <= i < |s.mailboxes[a]| ==> Codec.Sendable(s.mailboxes[a][i])
  }

  /** The messages that clients send have been parsed, hence validated. */
  predicate Parsed(t: Timed) {
    t.event.Send? ==> Codec.Sendable(t.event.m)
  }

  lemma SendStaysSendable(s: State, m: Message, caller: AgentId, dial: Broker.Dial, stamp: Stamp, at: real)
    requires AllSendable(s) && Codec.Sendable(m)
    ensures AllSendable(Broker.Sent(s, m, caller, dial, stamp, at).maps)
  {
    var boxes := Broker.Sent(s, m, caller, dial, stamp, at).maps.mailboxes;
    forall a <- boxes ensures forall i :: 0 <= i < |boxes[a]| ==> Codec.Sendable(boxes[a][i]) {
      assert boxes[a] == Queue(s, a) || boxes[a] == Queue(s, a) + [m];
    }
  }

  /** Each mailbox is empty or as it was. */
  predicate NothingQueued(s: State, s': State) {
    forall a <- s'.mailboxes :: s'.mailboxes[a] == [] || (a in s.mailboxes && s'.mailboxes[a] == s.mailboxes[a])
  }

  lemma QuietBoxes(s: State, s': State)
    requires AllSendable(s) && NothingQueued(s, s')
    ensures AllSendable(s')
  {
  }

  lemma RegisterQueuesNothing(cfg: Config, s: State, p: Registration.Accepted, at: real)
    ensures NothingQueued(s, Registered(s, p.ep, p.caps, p.given, at, cfg.defaultTtl))
  {
  }

  lemma PollQueuesNothing(cfg: Config, s: State, a: AgentId, at: real)
    ensures NothingQueued(s, PollStarted(s, a, at, cfg.defaultTtl))
  {
  }

  lemma OthersQueueNothing(cfg: Config, s: State, t: Timed)
    requires t.event.Deregister? || t.event.PollEnd? || t.event.Sweep? || t.event.Restart?
    ensures NothingQueued(s, Apply(cfg, s, t))
  {
  }

  lemma StaysSendable(cfg: Config, s: State, t: Timed)
    requires AllSendable(s) && Parsed(t)
    ensures AllSendable(Apply(cfg, s, t))
  {
    match t.event
    case Send(m, caller, dial, stamp) => SendStaysSendable(s, m, caller, dial, stamp, t.at);
    case Register(p) =>
      RegisterQueuesNothing(cfg, s, p, t.at);
      QuietBoxes(s, Apply(cfg, s, t));
    case PollStart(a, _) =>
      PollQueuesNothing(cfg, s, a, t.at);
      QuietBoxes(s, Apply(cfg, s, t));
    case _ =>
      OthersQueueNothing(cfg, s, t);
      QuietBoxes(s, Apply(cfg, s, t));
  }

  lemma {:induction false} RunStaysSendable(cfg: Config, s: State, events: seq<Timed>)
    requires AllSendable(s) && forall t <- events :: Parsed(t)
    ensures AllSendable(Run(cfg, s, events))
    decreases |events|
  {
    if events != [] {
      StaysSendable(cfg, s, events[0]);
      RunStaysSendable(cfg, Apply(cfg, s, events[0]), events[1..]);
    }
  }

  /** In every run, what a poll finds in a mailbox its agent reads back complete, unchanged and in order. */
  lemma PolledBatchArrives(cfg: Config, events: seq<Timed>, a: AgentId)
    requires forall t <- events :: Parsed(t)
    ensures var queue := Queue(Run(cfg, Empty(), events), a);
            Transport.Decoded(Transport.Deserialized(Transport.Printed(queue))) == Transport.Batch(queue)
  {
    RunStaysSendable(cfg, Empty(), events);
    Transport.BatchRoundTrip(Queue(Run(cfg, Empty(), events), a));
  }
}
