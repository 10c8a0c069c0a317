# robotsix-agent-comm: a verified model

A Dafny model of the message broker, its pull-mode agents, the service supervisor, the rate
limiter and the codecs of `robotsix_agent_comm`, with proofs about every run, every interleaving
or every input of each. `dafny verify dfyconfig.toml` checks the whole project.

## What is modelled

**The broker, twice.** `BrokerState` says what each `with lock:` block does to the five dictionaries
(registry, capabilities, last_heartbeat, ttl_seconds, mailboxes). On top of it there are two views.

* `LockPrograms`, `BrokerThreads` and their companions run any number of handler threads and sweepers
  whose programs are lists of lock operations, accesses and condition waits, in every interleaving.
  Here mailboxes are shown to lose, repeat and reorder nothing (`MailboxConservation`,
  `AtMostOnceToItsRecipient`, `AcceptedMeansQueued`), no wake-up is lost (`NoLostWakeup`), every send
  leaves one traffic record (`OneRecordPerSend`), and someone can always move (`NoDeadlock`). Two threads are about to touch the same dictionary only when one of them is a
  poll taking its unlocked look at the mailboxes (`RacesOnlyWithPeek`), and then they can be (`PeekRaces`).
  `BrokerThreadsAlone` shows that every uninterrupted run of every program has the serial meaning used in
  the other view. `BrokerThreadsAgreement` shows when the dictionaries agree although handlers interleave:
  on every agent whose removals (deregistration, a round of the sweep) never overlap with its
  registrations, healing polls and sends, which may overlap with each other. `BrokerThreadsSerial` gives a
  run in which a removal and a send overlap and the dictionaries disagree for good
  (`InterleavingOrphansMailbox`); `PollHealsExactly` says in which states polls repair nothing.
* `Broker` is the server as a class whose handlers update the dictionaries and the traffic log;
  `BrokerRuns` takes arbitrary sequences of its events, sweeps and restarts included, with a
  clock: the dictionaries agree, polls heal registrations, sweeps evict exactly the stale, and
  an agent that keeps polling is never evicted if and only if the grace covers the longest poll.

**Pull-mode request and reply.** `PullProtocol` is a state machine of callers with waiters and
timeouts, receive loops, handler pools, mailboxes that may be evicted and polls whose answer is lost.
`PullProtocolContents` proves that handlers see what users sent and calls return what handlers answered;
`PullProtocolSafety` that a reply returned is the one reply produced by the one handler run on
that request; `PullProtocolRuns` that a queued request can be answered, and that notifications are handled
at most once exactly when they are not retried; `PullProtocolQuiet` that without new sends the traffic
drains in a number of moves fixed in advance and that some move is possible until it has. `Responder` shows
what `BrokeredResponder` and the worker thread send, in the terms of that protocol. Mailboxes behave in it
as `BrokerThreadsSafety` shows: appended to in order, emptied whole. Message ids are fresh (they are
random UUIDs).

**The supervisor.** `Supervision` holds the service states and the two backoff dictionaries as classes;
`SupervisionRuns` says which check of a run writes which incident, and exactly when the documented
number of restarts precedes an escalation.

**The rate limiter.** `RateLimit` proves the token bucket equal to a sliding-window rule over the whole
history, isolates principals from each other, and says for which rates `Retry-After: 1` is true.

**Codecs and outcomes.** `Codec` and `VersionNumbers` (message dictionaries), `Registration` (the body of `POST /agents`),
`InlineTokens`, `TrafficLog`, `Retry`, `BrokeredTransport` (what a client makes of the broker's
answers) and `PullDelivery` (a queued message reaches its agent unchanged).

Floats are `real`; clocks are parameters, and where a proof needs a clock that does not go
backwards it says so. The HTTP layer is a function from parsed requests to status and body.

## Where the code and its documents disagree

The model follows the code.

* `docs/lifecycle/index.md:141` promises escalation after `max_restart_attempts` failed restarts. The
  code counts failed polls, also those skipped for backoff. `RestartsBeforeEscalation` and
  `PeriodicPolling` give the exact condition. With the default limits it is that polls are ten seconds
  apart (`DefaultLimits`), which the default interval of 30 s ensures; with the interval and the health
  timeout set to a second, escalation follows a single restart (`EscalatedAfterOneRestart`).
* The same page says that all counters are reset on recovery; `restart_count` never is
  (`RestartsNumbered`).
* `docs/broker/deployment.md:108` gives no grace as the default for mailboxes; the server's default is
  the 30 s bound on a poll (`server.py:1061`). `PollingSufficesExactly` shows that this is the
  smallest grace that works.
* A 429 always advertises one second. That is right exactly for rates of at least one request a second
  (`RetryAfterOneSecond`); between zero and one nothing is ever admitted (`SlowRateBlocksAll`).
* The dispatcher of `BrokeredResponder` is documented never to let an exception out. It does when a
  handler returns something that is no mapping (`Dispatch`); the worker thread then replies for it. When a
  handler returns a mapping that JSON cannot print, nobody replies and the requester times out
  (`AnsweredExactly`, `UnprintableIsDropped`).
* The envelope check does not look at `metadata.recipient`. A recipient that is neither a string nor absent
  makes the broker build an error envelope that its own clients refuse (`ErrorEnvelopeSendable`).
* A pull-mode request to an agent that the broker dials gets its reply in the 200 answer, which the
  caller discards before it waits until it times out (`AnsweredTimesOut`).
* Notifications, which the agent sends with three attempts by default, may be handled more than once
  (`NotificationHandledTwice`); they are handled at most once exactly if the policy allows at most one
  attempt (`NotificationsOnceExactly`).

## Model

| member | source | states |
|---|---|---|
| BrokerThreadsSafety.MailboxConservation | src/robotsix_agent_comm/broker/server.py:821-839 | in every reachable interleaving, for every agent: everything ever queued, in order, is the batches taken out, in order, followed by the present queue |
| BrokerThreadsSafety.AtMostOnceToItsRecipient | src/robotsix_agent_comm/broker/server.py:925-942 | with any number of concurrent polls, a message taken out occurs once in all batches and in no queue, was sent to the owner of the batch, and is delivered only to a poll of that owner |
| BrokerThreadsSafety.AcceptedMeansQueued | src/robotsix_agent_comm/broker/server.py:794-839 | a finished send was answered 202 if and only if its message was queued for its recipient |
| BrokerThreadsSafety.StepKeepsInv | src/robotsix_agent_comm/broker/server.py:590-942 | every lock operation, access, wait and wake-up of any thread keeps the invariant the three results above follow from |
| BrokerThreadsSafety.PollBoxKeepsThreads | src/robotsix_agent_comm/broker/server.py:925-942 | a round of the poll's wait loop, whether it sleeps, copies the queue or finds the mailbox gone, keeps every thread within its lock discipline and its account of messages |
| BrokerThreadsWakeups.NoLostWakeup | src/robotsix_agent_comm/broker/server.py:821-839 | in every interleaving a poll that sleeps although its mailbox holds a message or is gone has been notified |
| BrokerThreadsTraffic.OneRecordPerSend | src/robotsix_agent_comm/broker/server.py:777-856 | in every interleaving an answered send has added exactly one record to the traffic log, unless the limiter refused it, and no other handler ever adds any |
| BrokerThreadsProgress.RacesOnlyWithPeek | src/robotsix_agent_comm/broker/server.py:905-911 | two threads are about to touch the data of one lock only if one of them is a poll looking for its mailbox without the lock |
| BrokerThreadsProgress.PeekRaces | src/robotsix_agent_comm/broker/server.py:905-911 | for every agent, a reachable state in which that look races with a send about to write the mailboxes |
| BrokerThreadsProgress.NoDeadlock | src/robotsix_agent_comm/broker/server.py:373-384 | while an unfinished thread is outside a condition wait, some thread outside one can step; the one nested acquisition is capabilities, then registry |
| BrokerThreadsProgress.FinishedHoldsNothing | src/robotsix_agent_comm/broker/server.py:1205-1240 | a finished or sleeping thread holds no lock |
| LockChecks.HandlerChecked | src/robotsix_agent_comm/broker/server.py:345-439 | each handler's program acquires in order, accesses only what it has locked, but for the poll's first look at the mailboxes, ends with nothing held, and answers 202 only after its one append |
| BrokerThreadsAlone.HandlerAlone | src/robotsix_agent_comm/broker/server.py:590-950 | from every reachable state, every uninterrupted run of every handler to its end, whatever the clock, limiter, network and loop orders do, leaves the dictionaries and the answer of its serial meaning |
| BrokerThreadsAlone.StepEnds | src/robotsix_agent_comm/broker/server.py:1188-1240 | each step of such a run keeps what all its continuations end in; in the sweep, for every pick |
| BrokerThreadsAgreement.AgreementAtRest | src/robotsix_agent_comm/broker/server.py:590-715 | in every interleaving in which no removal of an agent overlaps with another job that may add or remove it, the dictionaries agree on it whenever no such job is under way |
| AgreementPrograms.HandlerStartable | src/robotsix_agent_comm/broker/server.py:858-885 | every handler registers an agent before it adds its other entries and follows up with all of them; every removal starts with the registry and takes all the rest |
| BrokerThreadsAgreement.PollHealsExactly | src/robotsix_agent_comm/broker/server.py:903-911 | in every state whatever, a poll leaves its agent registered if and only if it was, or owned no mailbox |
| BrokerThreadsSerial.RunRegister | src/robotsix_agent_comm/broker/server.py:616-661 | such a run exists for a registration, at any time |
| BrokerThreadsSerial.RunDeregister | src/robotsix_agent_comm/broker/server.py:663-715 | such a run exists for a deregistration, dropping the queue as one batch |
| BrokerThreadsSerial.RunSend | src/robotsix_agent_comm/broker/server.py:794-839 | such a run exists for a send to a mailbox |
| BrokerThreadsSerial.RunPoll | src/robotsix_agent_comm/broker/server.py:905-950 | such a run exists for a poll, delivering the whole queue |
| BrokerThreadsSerial.RunSweep | src/robotsix_agent_comm/broker/server.py:1188-1240 | such a run exists for a sweep, at any time |
| BrokerThreadsSerial.InterleavingOrphansMailbox | src/robotsix_agent_comm/broker/server.py:797-829 | for every agent name, a reachable run whose sender is told 202 while the recipient is unregistered, in a state that polls leave as it is |
| Broker.BrokerServer.constructor | src/robotsix_agent_comm/broker/server.py:1078-1119 | a new broker starts with five empty dictionaries and an empty log |
| Broker.BrokerServer.Register | src/robotsix_agent_comm/broker/server.py:590-661 | a refused body changes nothing; an accepted one has the effect of the lock-level program |
| Broker.BrokerServer.Deregister | src/robotsix_agent_comm/broker/server.py:663-715 | 400, 403 or 204, and removal from all five dictionaries exactly on 204 |
| Broker.BrokerServer.Send | src/robotsix_agent_comm/broker/server.py:777-856 | answer, queues and traffic log after a send, in every branch |
| Broker.BrokerServer.AutoRegisterMailbox | src/robotsix_agent_comm/broker/server.py:858-885 | existing queue, capabilities and TTL survive an automatic registration |
| Broker.BrokerServer.PollStart | src/robotsix_agent_comm/broker/server.py:905-923 | the heal-and-heartbeat part of a poll, and its hold |
| Broker.BrokerServer.PollEnd | src/robotsix_agent_comm/broker/server.py:925-950 | the whole queue is handed over and emptied, or nothing when the mailbox is gone |
| Broker.BrokerServer.SweepOnce | src/robotsix_agent_comm/broker/server.py:1188-1240 | the loop over the snapshot equals removing the set of expired agents at once |
| Broker.Hold | src/robotsix_agent_comm/broker/server.py:918-923 | a wait between 0 and 30 seconds is kept, another is cut to the nearer bound, and one that is no number gives 25 |
| Broker.SendAnswersExactly | src/robotsix_agent_comm/broker/server.py:777-856 | which answer a send gets, from the request, the registry and the dialling: 403, 400, none, 202, 200, 204, 502 or 404, with the code of the error |
| Broker.SendChangesExactly | src/robotsix_agent_comm/broker/server.py:821-829 | a send appends its message to the recipient's queue when it is answered 202, and otherwise changes nothing |
| Broker.OneRecordPerAnswer | src/robotsix_agent_comm/broker/server.py:777-856 | a parsed send that is answered leaves one record, whose disposition, status and id match the answer, and changes a queue exactly if it says queued |
| BrokerState.SweepRound | src/robotsix_agent_comm/broker/server.py:1205-1240 | evicting one agent does not change the verdict on another |
| BrokerRuns.MapsAgree | src/robotsix_agent_comm/broker/server.py:566-705 | over every run, restarts included: the four dictionaries name the same agents, mailboxes belong to some of them, mailbox endpoints own one |
| BrokerRuns.RegisteredEntries | src/robotsix_agent_comm/broker/server.py:616-661 | what a registration puts into each dictionary, a given TTL included, and that it changes no other agent's entry |
| BrokerRuns.RemovedEntries | src/robotsix_agent_comm/broker/server.py:690-705 | a removal takes the agent out of every dictionary and leaves everybody else's entries |
| BrokerRuns.NewPollEntries | src/robotsix_agent_comm/broker/server.py:868-885 | what the poll of an agent without a mailbox puts into each dictionary |
| BrokerRuns.KnownPollEntries | src/robotsix_agent_comm/broker/server.py:914-916 | the poll of an agent with a mailbox refreshes its heartbeat, if it has a TTL, and nothing else |
| BrokerRuns.PollHeals | src/robotsix_agent_comm/broker/server.py:903-916 | after any history a poll leaves its agent registered, and until an event that evicts it sends to it are queued or dialled, never refused |
| BrokerRuns.SweepEvictsTheStale | src/robotsix_agent_comm/broker/server.py:299-343 | in every reachable state, whatever the grace, a sweep evicts exactly the overdue, a dialable agent exactly if `GET /agents` shows it stale, and every survivor keeps all entries and its queue |
| BrokerRuns.SweepJudges | src/robotsix_agent_comm/broker/server.py:1212-1227 | an agent with a TTL is evicted exactly when its heartbeat is older than the TTL plus the grace of its kind |
| BrokerRuns.StatusExactly | src/robotsix_agent_comm/broker/server.py:327-334 | in every reachable state a registered agent is active when its TTL is not positive or covers the time since its heartbeat, else stale, and never unknown |
| BrokerRuns.UnknownExactly | src/robotsix_agent_comm/broker/server.py:327-334 | in any state, when an agent is shown as unknown |
| BrokerRuns.AttentiveAgentSurvives | src/robotsix_agent_comm/broker/server.py:912-941 | an agent that idles at most its TTL between polls stays registered through all sweeps |
| BrokerRuns.PollingSufficesExactly | src/robotsix_agent_comm/broker/server.py:1218-1225 | that holds for every such run if and only if the grace is at least 30 s |
| PullProtocolSafety.HandledAtMostOnce | src/robotsix_agent_comm/sdk/agent.py:257-317 | in every interleaving a request is handled at most once, and never while a copy is still on its way |
| PullProtocolSafety.ReplyIsTheHandlersReply | src/robotsix_agent_comm/sdk/agent.py:365-392 | a returned reply carries the request's id and was produced by the only handler run on it, at its recipient; the slot is never empty when the event is set |
| PullProtocolSafety.ReturnedMeansQueued | src/robotsix_agent_comm/sdk/agent.py:376-389 | only a request whose post was answered with 202 ever returns a reply |
| PullProtocolSafety.AnsweredTimesOut | src/robotsix_agent_comm/sdk/agent.py:376-389 | a request that the broker answered in-band, with or without a reply, waits without its event ever being set, or has timed out |
| PullProtocolRuns.QueuedCanReturn | src/robotsix_agent_comm/sdk/agent.py:365-392 | for any two agents, ids, bodies and answers, a request with that body can be queued, seen with that body by the one handler run, and returned with that answer |
| PullProtocolContents.HandlersSeeWhatWasSent | src/robotsix_agent_comm/sdk/agent.py:330-363 | in every run, every request or notification that a handler sees was sent in it by a user to that agent, with the body, sender, id and time given |
| PullProtocolContents.ReturnsTheAnswer | src/robotsix_agent_comm/sdk/agent.py:286-317 | in every run, a call returns to its owner the answer or error that the handler at the addressee decided on for the body the owner gave |
| PullProtocolContents.BeginRecords | src/robotsix_agent_comm/sdk/agent.py:365-376 | beginning a call records exactly the request that was asked for and registers its waiter |
| PullProtocolContents.CallsEndExactly | src/robotsix_agent_comm/sdk/agent.py:376-389 | after each receipt a call waits or has failed; waiting, it takes the oldest reply or times out; nothing else ends it |
| PullProtocolContents.CleanupIsFinal | src/robotsix_agent_comm/sdk/agent.py:389-392 | only the end of a call removes its waiter, and it never comes back |
| PullProtocolContents.DispatchedTo | src/robotsix_agent_comm/sdk/agent.py:257-284 | a polled message goes to the registered waiter it is correlated with, and otherwise, late replies included, to a handler, or nowhere when the pool is down |
| PullProtocolContents.PollTakesAll | src/robotsix_agent_comm/sdk/agent.py:233-255 | a poll takes the whole mailbox in order and leaves every other place alone |
| PullProtocolContents.PostQueuesLast | src/robotsix_agent_comm/broker/server.py:821-829 | a queued request comes last in its recipient's mailbox |
| PullProtocolRuns.HandledAtMostQueued | src/robotsix_agent_comm/sdk/agent.py:257-317 | in every interleaving a notification is handled at most as often as the broker queued it |
| PullProtocolRuns.NotificationsOnceExactly | src/robotsix_agent_comm/sdk/agent.py:394-408 | in every run each notification is handled at most once, if and only if the retry policy allows at most one attempt |
| PullProtocolRuns.NotificationHandledTwice | src/robotsix_agent_comm/sdk/agent.py:394-408 | with two attempts or more, a reachable run, for any two agents, that handles a notification twice |
| PullProtocolSafety.StepKeepsInv | src/robotsix_agent_comm/sdk/agent.py:233-392 | sends, polls, evictions, dispatch, the two halves of filling a waiter, handling, posting, time-outs and clean-up keep the invariant |
| PullProtocolSafety.FillKeeps | src/robotsix_agent_comm/sdk/agent.py:268-272 | a slot is filled with a genuine, matching reply, even when the caller has already left |
| PullProtocolSafety.HandleKeeps | src/robotsix_agent_comm/sdk/agent.py:286-317 | a handler run uses up its request and makes at most one reply |
| PullProtocolQuiet.StepLowersWork | src/robotsix_agent_comm/sdk/agent.py:129-145 | no step but a user's send makes work, and every step that moves a packet makes less of it |
| PullProtocolQuiet.QuietRunsAreShort | src/robotsix_agent_comm/sdk/agent.py:257-317 | without new sends the number of moves left is bounded by the work at hand: there are no reply loops |
| PullProtocolQuiet.AlwaysAMove | src/robotsix_agent_comm/sdk/agent.py:233-284 | while anything is under way some step moves it, so traffic drains completely |
| PullProtocolQuiet.RepliesAtMostRequests | src/robotsix_agent_comm/sdk/agent.py:286-317 | there are never more replies than requests that reached a mailbox |
| Responder.BrokeredResponder.RegisterHandler | src/robotsix_agent_comm/sdk/responder.py:172-213 | a registered handler overrides a built-in one and no other kind |
| Responder.BrokeredResponder.Dispatch | src/robotsix_agent_comm/sdk/responder.py:263-321 | an exception escapes exactly if a handler was found and its result is no mapping; otherwise the reply is the one the pull protocol's handling step makes of the verdict, unless it cannot be printed |
| Responder.BrokeredResponder.RunHandler | src/robotsix_agent_comm/sdk/agent.py:286-317 | what the worker posts is what the protocol's handling step says, escaped exceptions and unprintable replies included |
| Responder.AnsweredExactly | src/robotsix_agent_comm/sdk/agent.py:286-317 | a request is answered if and only if its handler did not return a mapping that JSON cannot print; with a Response exactly if it returned a printable one or nothing |
| Responder.HandledExactly | src/robotsix_agent_comm/sdk/responder.py:298-321 | a request goes to the registered or else the built-in handler of its kind, with its params if they are an object; the reply's body is the handler's result, or handler_error with the text it raised |
| Responder.UnhandledExactly | src/robotsix_agent_comm/sdk/responder.py:283-304 | a request without a kind is told invalid_request, one whose kind has no handler unknown_kind |
| Responder.UnprintableIsDropped | src/robotsix_agent_comm/sdk/agent.py:304-317 | a request for a handler that returns such a mapping gets no reply at all |
| Responder.ReplyReachesRequester | src/robotsix_agent_comm/protocol/messages.py:89-168 | a reply that is posted survives the wire, is correlated, and is addressed to the requester's mailbox; none is posted exactly in the unprintable case |
| Supervision.SupervisionAgent.PollService | src/robotsix_agent_comm/lifecycle/supervision.py:443-502 | one poll's whole effect on its service, and none on any other |
| Supervision.SupervisionAgent.AttemptRestart | src/robotsix_agent_comm/lifecycle/supervision.py:504-549 | restart unless the backoff runs, doubling and capping the next one |
| Supervision.SupervisionAgent.Escalate | src/robotsix_agent_comm/lifecycle/supervision.py:551-575 | escalation mark, cooldown deadline, backoff forgotten, one incident |
| SupervisionRuns.IncidentGrammar | src/robotsix_agent_comm/lifecycle/supervision.py:443-575 | over every run the log is that of its streaks of failed checks: DEGRADED at the first, RESTARTED at the first and at each later one that comes the current backoff after the last restart, ESCALATED at failure number max+1; the next streak begins at the first failed check after a healthy one, for an escalated streak one after the cooldown, and nothing in between is logged |
| SupervisionRuns.RestartsSpaced | src/robotsix_agent_comm/lifecycle/supervision.py:504-519 | the restarts of a streak begin with its first check and are the backoff apart |
| SupervisionRuns.SilentUntilHealthy | src/robotsix_agent_comm/lifecycle/supervision.py:475-480 | an escalated service logs nothing until a check is healthy |
| SupervisionRuns.BackoffDoubles | src/robotsix_agent_comm/lifecycle/supervision.py:515-519 | doubling and capping step by step gives the documented min(base x 2^(k-1), max) |
| SupervisionRuns.RestartsNumbered | src/robotsix_agent_comm/lifecycle/supervision.py:521-547 | restarts are numbered consecutively over the whole life of a service, across recoveries |
| SupervisionRuns.StatusShown | src/robotsix_agent_comm/lifecycle/supervision.py:443-482 | over every run: healthy exactly when no failure is counted and when the last check outside a cooldown was healthy; last check, last failure, last restart, escalation and cooldown are those of the checks and the log |
| SupervisionRuns.RestartsBeforeEscalation | src/robotsix_agent_comm/lifecycle/supervision.py:496-519 | a failing service is escalated at failed poll max+1, after max restarts exactly if the polls that may restart are spaced by the backoffs |
| SupervisionRuns.PeriodicPolling | src/robotsix_agent_comm/lifecycle/supervision.py:426-441 | with a fixed period, max restarts precede escalation exactly if the period covers the last backoff in use |
| SupervisionRuns.DefaultLimits | src/robotsix_agent_comm/lifecycle/supervision.py:127-135 | with the default limits the promised restarts precede escalation exactly if polls are at least ten seconds apart |
| SupervisionRuns.EscalatedAfterOneRestart | src/robotsix_agent_comm/lifecycle/supervision.py:496-512 | with the default limits but a poll a second, escalation follows one restart |
| RateLimit.TokenBucket.Consume | src/robotsix_agent_comm/broker/_rate_limit.py:19-29 | decision and new state of one call, with the refill written as a difference of credit |
| RateLimit.SlidingWindow | src/robotsix_agent_comm/broker/_rate_limit.py:12-29 | over any history a call is admitted exactly if, since the creation and since every earlier call, the admitted cost with it stays within capacity plus refill |
| RateLimit.TokensAreTightest | src/robotsix_agent_comm/broker/_rate_limit.py:19-29 | the tokens on hand are the tightest of all those window bounds |
| RateLimit.WindowBound | src/robotsix_agent_comm/broker/_rate_limit.py:12-29 | in any window at most the capacity plus the refill of that window is admitted |
| RateLimit.RateLimiter.Check | src/robotsix_agent_comm/broker/server.py:246-275 | a check touches only its principal's bucket, made full on first use; a rate of zero or less admits everything |
| RateLimit.LimiterIsolates | src/robotsix_agent_comm/broker/server.py:257-263 | in any interleaving of principals a request is judged as by a bucket of its own, created at the start and fed only its own requests |
| RateLimit.OwnCalls | src/robotsix_agent_comm/broker/server.py:257-263 | a principal's calls are one per request, at its time, for one token |
| RateLimit.LimiterWindow | src/robotsix_agent_comm/broker/server.py:246-275 | of one principal's requests in any window at most the rate plus the window's refill is admitted |
| RateLimit.RetryAfterOneSecond | src/robotsix_agent_comm/broker/server.py:263-275 | waiting the advertised second guarantees admission exactly if the rate is at least one |
| RateLimit.SlowRateBlocksAll | src/robotsix_agent_comm/broker/_rate_limit.py:12-29 | for a rate between zero and one no request of any history is admitted |
| Codec.RoundTrip | src/robotsix_agent_comm/protocol/serialization.py:35-76 | every sendable message of every kind comes back from its dictionary unchanged |
| Codec.ValidateAgrees | src/robotsix_agent_comm/protocol/validation.py:51-123 | the dictionary of a message validates exactly if the message is sendable |
| Codec.ParsesExactly | src/robotsix_agent_comm/protocol/serialization.py:51-76 | a dictionary parses exactly if it validates and its `extra` is absent or a mapping |
| Codec.ValidatesExactly | src/robotsix_agent_comm/protocol/validation.py:51-123 | which dictionaries pass validation, field by field |
| Codec.UnsupportedExactly | src/robotsix_agent_comm/protocol/validation.py:70-99 | when the failure is that of an unsupported version |
| Codec.ParsesFields | src/robotsix_agent_comm/protocol/serialization.py:51-76 | each field of a parsed message is the dictionary's field of that name |
| Codec.ParsesMetadata | src/robotsix_agent_comm/protocol/serialization.py:51-65 | so are the four fields of its metadata |
| Codec.PrintsFields | src/robotsix_agent_comm/protocol/serialization.py:35-48 | the dictionary of a message has exactly these fields, with its values |
| VersionNumbers.MajorOfVersion | src/robotsix_agent_comm/protocol/validation.py:43-48 | reading the major number of a version undoes writing it, with or without a rest |
| VersionNumbers.NumbersOnly | src/robotsix_agent_comm/protocol/validation.py:43-48 | what is read as a number has only digits, and underscores between two of them |
| Codec.PrintingNormalises | src/robotsix_agent_comm/protocol/serialization.py:35-76 | printing what was parsed fills defaults and drops unknown keys, parses to the same message, and is idempotent |
| Messages.ResponseTo | src/robotsix_agent_comm/protocol/messages.py:119-138 | a response meets the rules of its class, carries the request's id, and swaps sender and recipient |
| Messages.ErrorTo | src/robotsix_agent_comm/protocol/messages.py:152-168 | so does an error, with its code and text as body |
| Registration.ClientBodyRoundTrip | src/robotsix_agent_comm/transport/brokered.py:311-321 | the broker stores exactly the endpoint a client registers if and only if it meets the limits on id, host, port, scheme and path |
| Registration.AcceptedEndpoint | src/robotsix_agent_comm/broker/server.py:441-588 | every accepted body, whoever built it, yields an endpoint within those limits, filed for the caller, and a TTL that is not negative |
| Registration.AcceptsExactly | src/robotsix_agent_comm/broker/server.py:441-560 | which bodies are accepted, field by field |
| Registration.ForbidsExactly | src/robotsix_agent_comm/broker/server.py:461-482 | a refusal is a 403 exactly if an otherwise good id is not the caller's, else a 400 |
| Registration.StoresTheBody | src/robotsix_agent_comm/broker/server.py:515-588 | id, scheme, path, capabilities, TTL and mailbox flag of what is stored are those in the body, or their defaults |
| Registration.StoresTheAddress | src/robotsix_agent_comm/broker/server.py:455-514 | so are host and port; a mailbox agent's only where they would be valid |
| TrafficLog.BufferIsRecentHistory | src/robotsix_agent_comm/broker/server.py:717-739 | the bounded buffer is always the last N records of the whole history |
| TrafficLog.RecordTells | src/robotsix_agent_comm/broker/server.py:717-739 | a record holds the message's sender, recipient, kind, topic, id and correlation |
| TrafficLog.AnswerMeetsQuery | src/robotsix_agent_comm/broker/server.py:952-999 | a query returns, oldest first, the last `limit` of the retained records that pass all filters together |
| Retry.RetryCall | src/robotsix_agent_comm/transport/retry.py:43-68 | number of calls, outcome, and the pauses in order |
| Retry.CallsExactly | src/robotsix_agent_comm/transport/retry.py:56-64 | calling stops at the first call that is no transport error or at the limit, whichever is first |
| Retry.DeliveryErrorExactly | src/robotsix_agent_comm/transport/retry.py:56-68 | a delivery error surfaces exactly if every allowed call is a transport error, and carries the last one |
| Retry.TotalPause | src/robotsix_agent_comm/transport/retry.py:31-40 | the pauses sum to at most their number times the cap, and at most the geometric sum |
| Retry.GeometricClosed | src/robotsix_agent_comm/transport/retry.py:19-29 | the geometric sum is base x (f^n - 1) / (f - 1) |
| Retry.PausesGrow | src/robotsix_agent_comm/transport/retry.py:31-40 | pauses never get shorter |
| Retry.PausesExactly | src/robotsix_agent_comm/transport/retry.py:31-40 | each pause is the base times the factor once per earlier retry, or the cap where that is less |
| Retry.ScheduleExactly | src/robotsix_agent_comm/transport/retry.py:56-64 | the pause after each call is the one due after it |
| BrokeredTransport.TransparentExactly | src/robotsix_agent_comm/transport/brokered.py:144-172 | for recipients without a mailbox, the broker and direct routing give the same outcome exactly if the sender is accepted, the recipient is a non-empty string and the router does not itself raise |
| BrokeredTransport.ReportRead | src/robotsix_agent_comm/broker/server.py:172-200 | the client reads the broker's report of a delivery as that delivery |
| BrokeredTransport.EnvelopeRead | src/robotsix_agent_comm/transport/brokered.py:153-172 | how each error envelope is read, for every code |
| BrokeredTransport.ErrorEnvelopeSendable | src/robotsix_agent_comm/protocol/messages.py:89-105 | an error envelope validates exactly if its request's recipient is absent or a non-empty string |
| BrokeredTransport.MailboxNeverReplies | src/robotsix_agent_comm/broker/server.py:821-839 | a send to a mailbox returns nothing and queues the message |
| BrokeredTransport.RouterHidesTheCause | src/robotsix_agent_comm/transport/router.py:47-55 | behind the retrying router an unknown recipient reported by the broker is a delivery error, not an AgentNotFoundError |
| BrokeredTransport.RepliesAreSendable | src/robotsix_agent_comm/transport/client.py:34-58 | a reply that reaches the router has been validated |
| BrokeredTransport.RefusedBothWays | src/robotsix_agent_comm/transport/client.py:34-58 | when every allowed attempt goes unanswered, gets an error status or a body that is no message, both routes fail with a delivery error and the broker says 502 |
| BrokeredTransport.AnsweredBothWays | src/robotsix_agent_comm/transport/client.py:34-58 | when the first attempt that is not refused brings a reply, both routes return it and the broker says 200 |
| BrokeredTransport.TakenBothWays | src/robotsix_agent_comm/transport/client.py:51-52 | when it brings none, both return nothing and the broker says 204 |
| BrokeredTransport.UnknownNotFound | src/robotsix_agent_comm/transport/router.py:47-50 | a missing or unregistered recipient is not found |
| BrokeredTransport.ReadsExactly | src/robotsix_agent_comm/transport/brokered.py:144-153 | which answers are read as a reply, as nothing, or as a failure |
| BrokeredTransport.ReadsEnvelopeExactly | src/robotsix_agent_comm/transport/brokered.py:155-172 | what is raised for each error envelope |
| BrokeredTransport.Receive | src/robotsix_agent_comm/transport/brokered.py:183-222 | the loop decodes a batch item by item, and the first bad one loses it |
| BrokeredTransport.ArrivesExactly | src/robotsix_agent_comm/transport/brokered.py:211-222 | a batch arrives exactly if each of its messages can be read |
| BrokeredTransport.LostToTheFirst | src/robotsix_agent_comm/transport/brokered.py:216-222 | the first item that cannot be read decides what is raised |
| BrokeredTransport.BatchRoundTrip | src/robotsix_agent_comm/transport/brokered.py:211-222 | a mailbox of sendable messages is read back complete and in order |
| PullDelivery.PolledBatchArrives | src/robotsix_agent_comm/broker/server.py:925-950 | in every serial run what a poll finds its agent reads back complete, unchanged and in order |
| InlineTokens.ParseInlineTokens | src/robotsix_agent_comm/broker/config.py:24-46 | the loop computes the table the entries denote, first error wins, last token of an id wins |
| InlineTokens.EntryParsesExactly | src/robotsix_agent_comm/broker/config.py:30-45 | an entry is read as a pair exactly if it is that pair written with any blanks, the id free of `=`, both parts non-empty |
| InlineTokens.ParsingUndoesPrinting | src/robotsix_agent_comm/broker/config.py:24-46 | any way of writing a table, with blanks, empty entries, repetitions and in any order, parses back to it |
| InlineTokens.RefusedExactly | src/robotsix_agent_comm/broker/config.py:30-45 | a list is refused exactly if one of its entries is |
| InlineTokens.ParsedTableIsWritable | src/robotsix_agent_comm/broker/config.py:30-45 | every table that parsing yields has non-empty trimmed ids free of `=` and non-empty trimmed tokens, so it can be written down again |
| InlineTokens.InvertTokens | src/robotsix_agent_comm/broker/server.py:1092-1096 | the lookup table has exactly the tokens as keys, each leading to an agent that has it |
| InlineTokens.InverseExactlyWhenDistinct | src/robotsix_agent_comm/broker/server.py:1092-1096 | it is the exact inverse if and only if no two agents share a token |

## Left out

- InlineTokens.InvertTokens: which of several agents sharing a token wins (the last in the dictionary's order) is left open.
- PullProtocolSafety.HandledAtMostOnce: says nothing about notifications and requests outside pull mode, which go through retries and may arrive repeatedly; the state machine lets a notification be posted any number of times, see `NotificationsOnceExactly` for how often notifications are handled.
- BrokeredTransport.Receive: starts from the list of messages in the poll's body; a body that is no JSON, or has no such list, is not modelled.
- Retry.RetryCall: the retried call is a function of its attempt number, so its side effects are not modelled.
- Handlers of `Agent.on_request` that return a message they built themselves instead of one made by `Response.to` or `Error.to`.
- HTTP framing, sockets, TLS, Content-Length limits, the JSON text layer, signal handling, thread creation.
- Authentication headers and query tokens: the authenticated id is an argument, empty when authentication is off.
- Responses given before any lock is taken (400, 401, 403, 413) do not appear in the lock-level programs. The contents of the traffic log and the audit log do not either; their locks and the number of traffic records do.
- BrokerThreadsAgreement.AgreementAtRest: a round of the sweep counts as a removal from the moment it picks the agent, and a poll as one that may add until it has found its mailbox, so some overlaps that do no harm are excluded.
- The exact wording of error texts, including the recipient named in them.
- `metadata.extra` given as a list of pairs, which Python's `dict()` would accept; digits outside ASCII in version numbers.
- A message that is changed after it was validated; `body_size_bytes` of traffic records.
- The order in which a dictionary lists its entries, and with it the order of the sweep loop: the proofs allow any.
- Rounding of floats, and clocks that jump backwards.
- "Deregistered stays gone" does not hold under interleaving: a poll that is still under way registers its agent again.
- The supervisor's health probe loop, backend commands and status page: a poll gets its probe's result, and stop and start always return.
- The dashboard, audit log, environment parsing, capabilities filtering, `BrokeredRegistry`, `BrokeredRequester` and discovery: they would add only easy members.
