/** The supervisor's per-service state machine: restart with backoff, escalate, cool down. */
module Supervision {
  import opened Wrappers

  datatype Config = Config(maxRestarts: int, backoffBase: real, backoffMax: real, cooldown: real) {
    /** What `SupervisionConfig.validate` demands of these fields. */
    predicate Valid() {
      maxRestarts >= 0 && backoffBase > 0.0 && backoffMax >= backoffBase && cooldown >= 0.0
    }
  }

  datatype Kind = Degraded | Restarted | Escalated

  /** `attempt` is set for restarts only. */
  datatype Incident = Incident(at: real, kind: Kind, attempt: Option<nat>)

  /** One service: its `ServiceState` together with its entries in the two backoff dictionaries. */
  datatype Service = Service(healthy: bool, failures: nat, restarts: nat, escalated: bool, lastCheck: real,
                             lastFailure: Option<real>, lastRestart: Option<real>, escalationTime: Option<real>,
                             incidents: seq<Incident>, backoff: Option<real>, deadline: Option<real>)

  const NEW_SERVICE := Service(true, 0, 0, false, 0.0, None, None, None, [], None, None)

  function Logged(s: Service, i: Incident): Service {
    s.(incidents := s.incidents + [i])
  }

  function CurrentBackoff(backoff: Option<real>): real {
    if backoff.Some? then backoff.value else 0.0
  }

  function NextBackoff(cfg: Config, current: real): real {
    if current == 0.0 then cfg.backoffBase else Min(current * 2.0, cfg.backoffMax)
  }

  predicate StillWaiting(s: Service, now: real) {
    s.lastRestart.Some? && now - s.lastRestart.value < CurrentBackoff(s.backoff)
  }

  /** Restart unless the backoff since the previous restart is still running. */
  function RestartTried(cfg: Config, s: Service, now: real): Service {
    if StillWaiting(s, now) then s
    else
      Logged(s.(backoff := Some(NextBackoff(cfg, CurrentBackoff(s.backoff))), restarts := s.restarts + 1,
                lastRestart := Some(now)),
             Incident(now, Restarted, Some(s.restarts + 1)))
  }

  function WithEscalation(cfg: Config, s: Service, now: real): Service {
    Logged(s.(escalated := true, escalationTime := Some(now), deadline := Some(now + cfg.cooldown), backoff := None),
           Incident(now, Escalated, None))
  }

  predicate CoolingDown(s: Service, now: real) {
    s.deadline.Some? && now < s.deadline.value
  }

  function Recovered(s: Service, now: real): Service {
    s.(lastCheck := now, healthy := true, failures := 0, escalated := false, backoff := None, deadline := None)
  }

  /** A failed check is counted; the first of a streak is logged, unless the service is escalated. */
  function FailureNoted(s: Service, now: real): Service {
    var failed := s.(lastCheck := now, healthy := false, failures := s.failures + 1, lastFailure := Some(now));
    if !failed.escalated && failed.failures == 1 then Logged(failed, Incident(now, Degraded, None)) else failed
  }

  /** One poll of the service at `now` whose health probe ends with `healthy`. */
  function Polled(cfg: Config, s: Service, now: real, healthy: bool): Service {
    if CoolingDown(s, now) then s
    else if healthy then Recovered(s, now)
    else
      var noted := FailureNoted(s, now);
      if noted.escalated then noted
      else if noted.failures > cfg.maxRestarts then WithEscalation(cfg, noted, now)
      else RestartTried(cfg, noted, now)
  }

  // ---- the agent ---------------------------------------------------------------

  class ServiceState {
    var healthy: bool
    var consecutiveFailures: nat
    var restartCount: nat
    var escalated: bool
    var lastHealthCheck: real
    var lastFailure: Option<real>
    var lastRestart: Option<real>
    var escalationTime: Option<real>
    var incidents: seq<Incident>

    constructor ()
      ensures View(None, None) == NEW_SERVICE
    {
      healthy, consecutiveFailures, restartCount, escalated, lastHealthCheck := true, 0, 0, false, 0.0;
      lastFailure, lastRestart, escalationTime, incidents := None, None, None, [];
    }

    function View(backoff: Option<real>, deadline: Option<real>): Service
      reads this
    {
      Service(healthy, consecutiveFailures, restartCount, escalated, lastHealthCheck, lastFailure, lastRestart,
              escalationTime, incidents, backoff, deadline)
    }
  }

  function Entry(m: map<string, real>, name: string): Option<real> {
    if name in m then Some(m[name]) else None
  }

  class SupervisionAgent {
    const config: Config
    var services: map<string, ServiceState>
    var backoff: map<string, real>
    var escalationDeadline: map<string, real>

    constructor (config: Config)
      ensures Valid() && this.config == config && forall name :: View(name) == NEW_SERVICE
    {
      this.config := config;
      services, backoff, escalationDeadline := map[], map[], map[];
    }

    /** States are not shared, and a service without a state has no backoff and no deadline. */
    ghost predicate Valid()
      reads this
    {
      && (forall p, q :: p in services && q in services && p != q ==> services[p] != services[q])
      && backoff.Keys <= services.Keys && escalationDeadline.Keys <= services.Keys
    }

    ghost function View(name: string): Service
      reads this, services.Values
    {
      if name in services then services[name].View(Entry(backoff, name), Entry(escalationDeadline, name))
      else NEW_SERVICE
    }

    method GetState(name: string) returns (state: ServiceState)
      requires Valid()
      modifies this`services
      ensures Valid() && name in services && state == services[name]
      ensures forall p <- services ::
                (p in old(services) && services[p] == old(services)[p]) || (p == name && fresh(state))
      ensures forall p :: View(p) == old(View(p))
    {
      if name !in services {
        state := new ServiceState();
        services := services[name := state];
      }
      state := services[name];
    }

    /** Poll one service; the health probe's outcome is given. */
    method PollService(name: string, now: real, probe: bool)
      requires Valid()
      modifies this, services.Values
      ensures Valid()
      ensures View(name) == Polled(config, old(View(name)), now, probe)
      ensures forall p :: p != name ==> View(p) == old(View(p))
    {
      var state := GetState(name);
      if name in escalationDeadline && now < escalationDeadline[name] { return; }
      if probe {
        RecordHealthy(name, state, now);
        return;
      }
      RecordFailure(name, state, now);
      if state.escalated { return; }
      if state.consecutiveFailures > config.maxRestarts {
        Escalate(name, state, now);
      } else {
        AttemptRestart(name, state, now);
      }
    }

    method RecordHealthy(name: string, state: ServiceState, now: real)
      requires Valid() && name in services && services[name] == state
      modifies this`backoff, this`escalationDeadline, state
      ensures Valid()
      ensures View(name) == Recovered(old(View(name)), now)
      ensures forall p :: p != name ==> View(p) == old(View(p))
    {
      state.lastHealthCheck := now;
      state.healthy := true;
      state.consecutiveFailures := 0;
      state.escalated := false;
      backoff := backoff - {name};
      escalationDeadline := escalationDeadline - {name};
    }

    method RecordFailure(name: string, state: ServiceState, now: real)
      requires Valid() && name in services && services[name] == state
      modifies state
      ensures View(name) == FailureNoted(old(View(name)), now)
      ensures forall p :: p != name ==> View(p) == old(View(p))
    {
      state.lastHealthCheck := now;
      state.healthy := false;
      state.consecutiveFailures := state.consecutiveFailures + 1;
      state.lastFailure := Some(now);
      if !state.escalated && state.consecutiveFailures == 1 {
        state.incidents := state.incidents + [Incident(now, Degraded, None)];
      }
    }

    method AttemptRestart(name: string, state: ServiceState, now: real)
      requires Valid() && name in services && services[name] == state
      modifies this`backoff, state
      ensures Valid()
      ensures View(name) == RestartTried(config, old(View(name)), now)
      ensures forall p :: p != name ==> View(p) == old(View(p))
    {
      var current := if name in backoff then backoff[name] else 0.0;
      if state.lastRestart.Some? {
        var elapsed := now - state.lastRestart.value;
        if elapsed < current { return; }
      }
      var next := if current == 0.0 then config.backoffBase else Min(current * 2.0, config.backoffMax);
      backoff := backoff[name := next];
      var attempt := state.restartCount + 1;
      state.restartCount := attempt;
      state.lastRestart := Some(now);
      state.incidents := state.incidents + [Incident(now, Restarted, Some(attempt))];
    }

    method Escalate(name: string, state: ServiceState, now: real)
      requires Valid() && name in services && services[name] == state
      modifies this`backoff, this`escalationDeadline, state
      ensures Valid()
      ensures View(name) == WithEscalation(config, old(View(name)), now)
      ensures forall p :: p != name ==> View(p) == old(View(p))
    {
      state.escalated := true;
      state.escalationTime := Some(now);
      escalationDeadline := escalationDeadline[name := now + config.cooldown];
      backoff := backoff - {name};
      state.incidents := state.incidents + [Incident(now, Escalated, None)];
    }
  }
}
