/**
 * The five dictionaries a broker keeps, the effect of each `with lock:` block on
 * them, and the serial meaning of each request handler as a composition of those
 * blocks. Message payloads are abstract: the type parameter `M`.
 */
module BrokerState {
  import opened Wrappers
  import opened Json

  datatype Endpoint =
    Endpoint(agentId: AgentId, host: string, port: int, scheme: string, path: string, mailbox: bool)

  /** `registry` is the transport registry's endpoint map; the others belong to the HTTP server. */
  datatype Maps<M> = Maps(
    registry: map<AgentId, Endpoint>,
    capabilities: map<AgentId, Object>,
    lastHeartbeat: map<AgentId, real>,
    ttl: map<AgentId, int>,
    mailboxes: map<AgentId, seq<M>>)

  function Empty<M>(): Maps<M> {
    Maps(map[], map[], map[], map[], map[])
  }

  function MailboxEndpoint(a: AgentId): Endpoint {
    Endpoint(a, "mailbox", 0, "http", "/messages", true)
  }

  // ---- one lock's worth of work at a time -------------------------------

  function PutEndpoint<M>(s: Maps<M>, ep: Endpoint): Maps<M> {
    s.(registry := s.registry[ep.agentId := ep])
  }

  function DropEndpoint<M>(s: Maps<M>, a: AgentId): Maps<M> {
    s.(registry := s.registry - {a})
  }

  function PutCapabilities<M>(s: Maps<M>, a: AgentId, caps: Object): Maps<M> {
    s.(capabilities := s.capabilities[a := caps])
  }

  function DefaultCapabilities<M>(s: Maps<M>, a: AgentId): Maps<M> {
    if a in s.capabilities then s else PutCapabilities(s, a, map[])
  }

  function DropCapabilities<M>(s: Maps<M>, a: AgentId): Maps<M> {
    s.(capabilities := s.capabilities - {a})
  }

  /** The heartbeat block of `POST /agents`: an explicit TTL wins, a new agent gets the default. */
  function StampRegistration<M>(s: Maps<M>, a: AgentId, now: real, given: Option<int>, isNew: bool,
                                defaultTtl: int): Maps<M> {
    var stamped := s.(lastHeartbeat := s.lastHeartbeat[a := now]);
    if given.Some? then stamped.(ttl := s.ttl[a := given.value])
    else if isNew then stamped.(ttl := s.ttl[a := defaultTtl])
    else stamped
  }

  /** The heartbeat block of an automatic registration: an existing TTL is kept. */
  function StampDefault<M>(s: Maps<M>, a: AgentId, now: real, defaultTtl: int): Maps<M> {
    s.(lastHeartbeat := s.lastHeartbeat[a := now],
       ttl := if a in s.ttl then s.ttl else s.ttl[a := defaultTtl])
  }

  /** A poll refreshes the heartbeat of an agent that has a TTL entry. */
  function Touch<M>(s: Maps<M>, a: AgentId, now: real): Maps<M> {
    if a in s.ttl then s.(lastHeartbeat := s.lastHeartbeat[a := now]) else s
  }

  function DropHeartbeat<M>(s: Maps<M>, a: AgentId): Maps<M> {
    s.(lastHeartbeat := s.lastHeartbeat - {a}, ttl := s.ttl - {a})
  }

  function DefaultMailbox<M>(s: Maps<M>, a: AgentId): Maps<M> {
    if a in s.mailboxes then s else s.(mailboxes := s.mailboxes[a := []])
  }

  function Queue<M>(s: Maps<M>, a: AgentId): seq<M> {
    if a in s.mailboxes then s.mailboxes[a] else []
  }

  function PutQueue<M>(s: Maps<M>, a: AgentId, queue: seq<M>): Maps<M> {
    s.(mailboxes := s.mailboxes[a := queue])
  }

  function DropMailbox<M>(s: Maps<M>, a: AgentId): Maps<M> {
    s.(mailboxes := s.mailboxes - {a})
  }

  /** The sweep's verdict on one endpoint; agents without heartbeat data or with `ttl <= 0` stay. */
  predicate Expired<M>(s: Maps<M>, ep: Endpoint, now: real, mailboxGrace: real) {
    && ep.agentId in s.lastHeartbeat && ep.agentId in s.ttl
    && s.ttl[ep.agentId] > 0
    && now - s.lastHeartbeat[ep.agentId]
       > s.ttl[ep.agentId] as real + (if ep.mailbox then mailboxGrace else 0.0)
  }

  // ---- handlers, run without interruption --------------------------------

  function Registered<M>(s: Maps<M>, ep: Endpoint, caps: Object, given: Option<int>, now: real,
                         defaultTtl: int): Maps<M> {
    var isNew := ep.agentId !in s.registry;
    var s1 := PutEndpoint(s, ep);
    var s2 := if ep.mailbox then DefaultMailbox(s1, ep.agentId) else s1;
    var s3 := PutCapabilities(s2, ep.agentId, caps);
    StampRegistration(s3, ep.agentId, now, given, isNew, defaultTtl)
  }

  /** What deregistration and eviction both do. */
  function Removed<M>(s: Maps<M>, a: AgentId): Maps<M> {
    DropMailbox(DropHeartbeat(DropCapabilities(DropEndpoint(s, a), a), a), a)
  }

  function AutoRegistered<M>(s: Maps<M>, a: AgentId, now: real, defaultTtl: int): Maps<M> {
    var s1 := PutEndpoint(s, MailboxEndpoint(a));
    var s2 := DefaultMailbox(s1, a);
    var s3 := DefaultCapabilities(s2, a);
    StampDefault(s3, a, now, defaultTtl)
  }

  /** Everything a long-poll does before it looks into the mailbox. */
  function PollStarted<M>(s: Maps<M>, a: AgentId, now: real, defaultTtl: int): Maps<M> {
    var healed := if a in s.mailboxes then s else AutoRegistered(s, a, now, defaultTtl);
    Touch(healed, a, now)
  }

  /** What a sweep at `now` leaves, said without a loop. */
  function Swept<M>(s: Maps<M>, now: real, mailboxGrace: real): Maps<M> {
    var evicted := set a | a in s.registry && Expired(s, s.registry[a], now, mailboxGrace);
    Maps(s.registry - evicted, s.capabilities - evicted, s.lastHeartbeat - evicted, s.ttl - evicted,
         s.mailboxes - evicted)
  }

  /** Endpoints are filed under their own agent id. */
  ghost predicate Keyed<M>(s: Maps<M>) {
    forall a <- s.registry :: s.registry[a].agentId == a
  }

  // ---- the sweep loop -------------------------------------------------------------

  ghost function EvictedAmong<M>(s: Maps<M>, now: real, grace: real, done: set<AgentId>): set<AgentId> {
    set a | a in done && a in s.registry && Expired(s, s.registry[a], now, grace)
  }

  ghost function Without<M>(s: Maps<M>, gone: set<AgentId>): Maps<M> {
    Maps(s.registry - gone, s.capabilities - gone, s.lastHeartbeat - gone, s.ttl - gone, s.mailboxes - gone)
  }

  /** What is left once the endpoints named in `done` have been judged. */
  ghost function SweptAmong<M>(s: Maps<M>, now: real, grace: real, done: set<AgentId>): Maps<M> {
    Without(s, EvictedAmong(s, now, grace, done))
  }

  lemma WithoutOneMore<M>(s: Maps<M>, gone: set<AgentId>, a: AgentId)
    ensures Without(s, gone + {a}) == Removed(Without(s, gone), a)
  {
    assert s.registry - (gone + {a}) == s.registry - gone - {a};
    assert s.capabilities - (gone + {a}) == s.capabilities - gone - {a};
    assert s.lastHeartbeat - (gone + {a}) == s.lastHeartbeat - gone - {a};
    assert s.ttl - (gone + {a}) == s.ttl - gone - {a};
    assert s.mailboxes - (gone + {a}) == s.mailboxes - gone - {a};
  }

  /** Earlier evictions do not change the verdict on an agent, so the order of the loop is immaterial. */
  lemma SweepRound<M>(s: Maps<M>, now: real, grace: real, done: set<AgentId>, a: AgentId)
    requires Keyed(s) && a in s.registry && a !in done
    ensures var mid := SweptAmong(s, now, grace, done);
            && Expired(mid, s.registry[a], now, grace) == Expired(s, s.registry[a], now, grace)
            && SweptAmong(s, now, grace, done + {a})
               == if Expired(s, s.registry[a], now, grace) then Removed(mid, a) else mid
  {
    var gone := EvictedAmong(s, now, grace, done);
    if Expired(s, s.registry[a], now, grace) {
      assert EvictedAmong(s, now, grace, done + {a}) == gone + {a};
      WithoutOneMore(s, gone, a);
    } else {
      assert EvictedAmong(s, now, grace, done + {a}) == gone;
    }
  }

  lemma SweepAll<M>(s: Maps<M>, now: real, grace: real, done: set<AgentId>)
    requires s.registry.Keys <= done
    ensures SweptAmong(s, now, grace, done) == Swept(s, now, grace)
  {
    assert EvictedAmong(s, now, grace, done)
        == set a | a in s.registry && Expired(s, s.registry[a], now, grace);
  }
}
