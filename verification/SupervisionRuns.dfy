/** What the supervisor's incident log looks like after any sequence of checks. */
module SupervisionRuns {
  import opened Wrappers
  import opened Supervision

  datatype Check = Check(at: real, healthy: bool)

  function Run(cfg: Config, s: Service, checks: seq<Check>): Service {
    if checks == [] then s
    else
      var n := |checks| - 1;
      Polled(cfg, Run(cfg, s, checks[..n]), checks[n].at, checks[n].healthy)
  }

  ghost predicate InOrder(checks: seq<Check>) {
    forall i, j :: 0 <= i <= j < |checks| ==> checks[i].at <= checks[j].at
  }

  /** The documented delay after the `k`-th restart of a streak: base doubled `k - 1` times, capped. */
  function Backoff(cfg: Config, k: nat): real
    requires k >= 1
  {
    Min(Doubled(cfg.backoffBase, k - 1), cfg.backoffMax)
  }

  function Doubled(x: real, k: nat): real {
    if k == 0 then x else 2.0 * Doubled(x, k - 1)
  }

  lemma {:induction false} DoubledPositive(x: real, k: nat)
    requires x > 0.0
    ensures Doubled(x, k) >= x
  {
    if k > 0 { DoubledPositive(x, k - 1); }
  }

  /** Doubling the capped value and capping again is the documented formula. */
  lemma BackoffDoubles(cfg: Config, k: nat)
    requires cfg.Valid() && k >= 1
    ensures Backoff(cfg, k) >= cfg.backoffBase > 0.0
    ensures Backoff(cfg, k + 1) == NextBackoff(cfg, Backoff(cfg, k))
    ensures Backoff(cfg, 1) == NextBackoff(cfg, 0.0)
    ensures Backoff(cfg, k) <= Backoff(cfg, k + 1)
  {
    DoubledPositive(cfg.backoffBase, k - 1);
  }

  // ---- the grammar of the log -----------------------------------------------------

  /** One streak of failures: the check it begins with, and how many checks in a row failed, up to an escalation. */
  datatype Streak = Streak(first: nat, failures: nat)

  function At(checks: seq<Check>, i: nat): real {
    if i < |checks| then checks[i].at else 0.0
  }

  predicate Fails(checks: seq<Check>, i: nat) {
    i < |checks| && !checks[i].healthy
  }

  predicate Heals(checks: seq<Check>, i: nat) {
    i < |checks| && checks[i].healthy
  }

  /** Check `i` comes the current backoff after the last restart, if there was one. */
  predicate Due(cfg: Config, checks: seq<Check>, earlier: seq<nat>, i: nat) {
    var n := |earlier|;
    n == 0 || At(checks, i) - At(checks, earlier[n - 1]) >= Backoff(cfg, n)
  }

  /** The checks that restart the service among the first `n` of a streak. */
  function RestartsOf(cfg: Config, checks: seq<Check>, first: nat, n: nat): seq<nat> {
    if n == 0 then []
    else
      var earlier := RestartsOf(cfg, checks, first, n - 1);
      var i := first + n - 1;
      if Due(cfg, checks, earlier, i) then earlier + [i] else earlier
  }

  /** The failure past the maximum is the one that escalates. */
  predicate GivenUp(cfg: Config, k: Streak) {
    k.failures > cfg.maxRestarts
  }

  function End(k: Streak): nat {
    k.first + k.failures
  }

  /** The checks of the streak all failed, and an escalation is its last. */
  ghost predicate ProperStreak(cfg: Config, checks: seq<Check>, k: Streak) {
    && 1 <= k.failures <= cfg.maxRestarts + 1
    && forall i :: k.first <= i < End(k) ==> Fails(checks, i)
  }

  /** The checks of the streak that may restart. */
  function Tries(cfg: Config, k: Streak): nat {
    if GivenUp(cfg, k) && k.failures > 0 then k.failures - 1 else k.failures
  }

  datatype Mark = Mark(kind: Kind, at: real)

  function RestartMarks(checks: seq<Check>, restarts: seq<nat>): seq<Mark> {
    if restarts == [] then []
    else
      var n := |restarts| - 1;
      RestartMarks(checks, restarts[..n]) + [Mark(Restarted, At(checks, restarts[n]))]
  }

  function StreakMarks(cfg: Config, checks: seq<Check>, k: Streak): seq<Mark> {
    [Mark(Degraded, At(checks, k.first))]
    + RestartMarks(checks, RestartsOf(cfg, checks, k.first, Tries(cfg, k)))
    + if GivenUp(cfg, k) then [Mark(Escalated, At(checks, k.first + Tries(cfg, k)))] else []
  }

  function Render(cfg: Config, checks: seq<Check>, streaks: seq<Streak>): seq<Mark> {
    if streaks == [] then []
    else Render(cfg, checks, streaks[..|streaks| - 1]) + StreakMarks(cfg, checks, streaks[|streaks| - 1])
  }

  function Marks(incidents: seq<Incident>): seq<Mark> {
    seq(|incidents|, i requires 0 <= i < |incidents| => Mark(incidents[i].kind, incidents[i].at))
  }

  function Deadline(cfg: Config, checks: seq<Check>, k: Streak): real {
    At(checks, k.first + Tries(cfg, k)) + cfg.cooldown
  }

  /** A check after an escalation that leaves no trace: it fails too, or comes before the cooldown is over. */
  predicate Silent(cfg: Config, checks: seq<Check>, k: Streak, i: nat) {
    GivenUp(cfg, k) && (Fails(checks, i) || At(checks, i) < Deadline(cfg, checks, k))
  }

  /** The checks after the streak, up to number `m`, leave no trace. */
  ghost predicate SilentUntil(cfg: Config, checks: seq<Check>, k: Streak, m: nat) {
    End(k) <= m && forall i :: End(k) <= i < m ==> Silent(cfg, checks, k, i)
  }

  ghost predicate AllHealthy(checks: seq<Check>, from: nat, to: nat) {
    forall i :: from <= i < to ==> Heals(checks, i)
  }

  /**
   * Check `h` ends the streak: it is the first healthy check after it, or after its cooldown; and all checks
   * from it up to number `n` are healthy.
   */
  ghost predicate EndedBy(cfg: Config, checks: seq<Check>, k: Streak, h: nat, n: nat) {
    && h < n && SilentUntil(cfg, checks, k, h) && AllHealthy(checks, h, n)
    && (GivenUp(cfg, k) ==> At(checks, h) >= Deadline(cfg, checks, k))
  }

  ghost predicate Ended(cfg: Config, checks: seq<Check>, k: Streak, n: nat) {
    exists h :: EndedBy(cfg, checks, k, h, n)
  }

  /** No streak is under way after `n` checks. */
  ghost predicate Closed(cfg: Config, checks: seq<Check>, n: nat, streaks: seq<Streak>) {
    if streaks == [] then AllHealthy(checks, 0, n) else Ended(cfg, checks, streaks[|streaks| - 1], n)
  }

  /** The streaks of the first `n` checks but for how the last one stands: each ends before the next begins. */
  ghost predicate Separated(cfg: Config, checks: seq<Check>, n: nat, streaks: seq<Streak>) {
    && (forall k <- streaks :: ProperStreak(cfg, checks, k) && End(k) <= n)
    && forall j :: 0 <= j < |streaks| ==> Closed(cfg, checks, streaks[j].first, streaks[..j])
  }

  /** `streaks` are all the streaks of the first `n` checks. */
  ghost predicate StreaksOf(cfg: Config, checks: seq<Check>, n: nat, streaks: seq<Streak>) {
    && Separated(cfg, checks, n, streaks)
    && (Closed(cfg, checks, n, streaks)
        || (streaks != [] && SilentUntil(cfg, checks, streaks[|streaks| - 1], n)))
  }

  /** How the live state continues the streaks. */
  ghost predicate Follows(cfg: Config, checks: seq<Check>, n: nat, s: Service, streaks: seq<Streak>) {
    if s.failures == 0 then
      !s.escalated && s.backoff == None && s.deadline == None && Closed(cfg, checks, n, streaks)
    else
      && streaks != []
      && var k := streaks[|streaks| - 1];
         && SilentUntil(cfg, checks, k, n)
         && (s.escalated <==> GivenUp(cfg, k)) && (s.escalated <==> s.failures > cfg.maxRestarts)
         && if s.escalated then s.backoff == None && s.deadline == Some(Deadline(cfg, checks, k))
            else Live(cfg, checks, s, k) && End(k) == n
  }

  /** The service in the middle of streak `k`. */
  ghost predicate Live(cfg: Config, checks: seq<Check>, s: Service, k: Streak) {
    && s.failures == k.failures && s.deadline == None
    && var restarts := RestartsOf(cfg, checks, k.first, k.failures);
       && restarts != []
       && s.backoff == Some(Backoff(cfg, |restarts|))
       && s.lastRestart == Some(At(checks, restarts[|restarts| - 1]))
  }

  ghost predicate Explains(cfg: Config, checks: seq<Check>, n: nat, s: Service, streaks: seq<Streak>) {
    && Separated(cfg, checks, n, streaks)
    && Marks(s.incidents) == Render(cfg, checks, streaks)
    && Follows(cfg, checks, n, s, streaks)
    && (s.lastRestart.Some? ==> forall i :: n <= i < |checks| ==> s.lastRestart.value <= checks[i].at)
  }

  lemma MarksAppend(incidents: seq<Incident>, i: Incident)
    ensures Marks(incidents + [i]) == Marks(incidents) + [Mark(i.kind, i.at)]
  {
  }

  lemma RenderLast(cfg: Config, checks: seq<Check>, streaks: seq<Streak>, k: Streak)
    ensures Render(cfg, checks, streaks + [k]) == Render(cfg, checks, streaks) + StreakMarks(cfg, checks, k)
  {
    assert (streaks + [k])[..|streaks|] == streaks;
  }

  /** Streaks that are separated stay so when a new or longer last one takes the place of the rest. */
  lemma SeparatedLast(cfg: Config, checks: seq<Check>, n: nat, m: nat, streaks: seq<Streak>, k: Streak)
    requires n <= m && Separated(cfg, checks, n, streaks)
    requires ProperStreak(cfg, checks, k) && End(k) <= m && Closed(cfg, checks, k.first, streaks)
    ensures Separated(cfg, checks, m, streaks + [k])
  {
    var more := streaks + [k];
    forall j | 0 <= j < |more| ensures Closed(cfg, checks, more[j].first, more[..j]) {
      if j < |streaks| { assert more[..j] == streaks[..j]; } else { assert more[..j] == streaks; }
    }
  }

  lemma SeparatedLater(cfg: Config, checks: seq<Check>, n: nat, m: nat, streaks: seq<Streak>)
    requires n <= m && Separated(cfg, checks, n, streaks)
    ensures Separated(cfg, checks, m, streaks)
  {
  }

  lemma ButLast(cfg: Config, checks: seq<Check>, n: nat, streaks: seq<Streak>)
    requires streaks != [] && Separated(cfg, checks, n, streaks)
    ensures var m := |streaks| - 1;
            Separated(cfg, checks, n, streaks[..m]) && Closed(cfg, checks, streaks[m].first, streaks[..m])
  {
    var m := |streaks| - 1;
    forall j | 0 <= j < m ensures streaks[..m][..j] == streaks[..j] {}
  }

  /** The service stands at the end of streak `k`, after `n` checks. */
  ghost predicate Standing(cfg: Config, checks: seq<Check>, n: nat, s: Service, k: Streak) {
    && End(k) == n && s.failures == k.failures && (s.escalated <==> GivenUp(cfg, k))
    && (if s.escalated then s.backoff == None && s.deadline == Some(Deadline(cfg, checks, k))
        else Live(cfg, checks, s, k))
    && (s.lastRestart.Some? ==> forall i :: n <= i < |checks| ==> s.lastRestart.value <= checks[i].at)
  }

  lemma ExplainsLast(cfg: Config, checks: seq<Check>, n: nat, m: nat, s: Service, streaks: seq<Streak>, k: Streak)
    requires n <= m && Separated(cfg, checks, n, streaks) && Closed(cfg, checks, k.first, streaks)
    requires ProperStreak(cfg, checks, k) && Standing(cfg, checks, m, s, k)
    requires Marks(s.incidents) == Render(cfg, checks, streaks) + StreakMarks(cfg, checks, k)
    ensures Explains(cfg, checks, m, s, streaks + [k])
  {
    SeparatedLast(cfg, checks, n, m, streaks, k);
    RenderLast(cfg, checks, streaks, k);
  }

  lemma FirstState(cfg: Config, s: Service, at: real)
    requires cfg.Valid() && s.failures == 0 && !s.escalated && s.backoff == None && s.deadline == None
    requires s.lastRestart.Some? ==> s.lastRestart.value <= at
    ensures var kind := if cfg.maxRestarts == 0 then Escalated else Restarted;
            Marks(Polled(cfg, s, at, false).incidents) == Marks(s.incidents) + [Mark(Degraded, at), Mark(kind, at)]
    ensures var s' := Polled(cfg, s, at, false);
            && s'.failures == 1
            && if cfg.maxRestarts == 0 then
                 && s'.escalated && s'.backoff == None && s'.deadline == Some(at + cfg.cooldown)
                 && s'.lastRestart == s.lastRestart
               else
                 && !s'.escalated && s'.backoff == Some(Backoff(cfg, 1)) && s'.deadline == None
                 && s'.lastRestart == Some(at)
  {
    BackoffDoubles(cfg, 1);
    var degraded := s.incidents + [Incident(at, Degraded, None)];
    MarksAppend(s.incidents, Incident(at, Degraded, None));
    MarksAppend(degraded, Incident(at, Escalated, None));
    MarksAppend(degraded, Incident(at, Restarted, Some(s.restarts + 1)));
  }

  lemma FirstStanding(cfg: Config, checks: seq<Check>, n: nat, s: Service) returns (s': Service)
    requires cfg.Valid() && InOrder(checks) && n < |checks|
    requires s.failures == 0 && !s.escalated && s.backoff == None && s.deadline == None
    requires s.lastRestart.Some? ==> forall i :: n <= i < |checks| ==> s.lastRestart.value <= checks[i].at
    ensures s' == Polled(cfg, s, checks[n].at, false) && Standing(cfg, checks, n + 1, s', Streak(n, 1))
    ensures Marks(s'.incidents) == Marks(s.incidents) + StreakMarks(cfg, checks, Streak(n, 1))
  {
    s' := Polled(cfg, s, checks[n].at, false);
    FirstState(cfg, s, checks[n].at);
    FirstMarks(cfg, checks, n);
  }

  /** A failed check while no streak is under way begins one. */
  lemma FirstFailure(cfg: Config, checks: seq<Check>, n: nat, s: Service, streaks: seq<Streak>)
    returns (more: seq<Streak>)
    requires cfg.Valid() && InOrder(checks) && Explains(cfg, checks, n, s, streaks)
    requires n < |checks| && !checks[n].healthy && s.failures == 0
    ensures Explains(cfg, checks, n + 1, Polled(cfg, s, checks[n].at, false), more)
  {
    more := streaks + [Streak(n, 1)];
    var s' := FirstStanding(cfg, checks, n, s);
    ExplainsLast(cfg, checks, n, n + 1, s', streaks, Streak(n, 1));
  }

  lemma FirstMarks(cfg: Config, checks: seq<Check>, n: nat)
    requires cfg.Valid()
    ensures RestartsOf(cfg, checks, n, 0) == [] && RestartsOf(cfg, checks, n, 1) == [n]
    ensures StreakMarks(cfg, checks, Streak(n, 1))
         == [Mark(Degraded, At(checks, n)), Mark(if cfg.maxRestarts == 0 then Escalated else Restarted, At(checks, n))]
  {
    assert RestartsOf(cfg, checks, n, 0) == [];
    assert RestartMarks(checks, []) == [];
    assert [n][..0] == [];
    assert RestartMarks(checks, [n]) == [Mark(Restarted, At(checks, n))];
  }

  /** The last streak, one failure longer. */
  function Longer(k: Streak): Streak {
    k.(failures := k.failures + 1)
  }

  lemma LongerMarks(cfg: Config, checks: seq<Check>, k: Streak)
    requires 1 <= k.failures <= cfg.maxRestarts
    ensures var at := At(checks, End(k));
            StreakMarks(cfg, checks, Longer(k)) == StreakMarks(cfg, checks, k)
              + if GivenUp(cfg, Longer(k)) then [Mark(Escalated, at)]
                else if !Due(cfg, checks, RestartsOf(cfg, checks, k.first, k.failures), End(k)) then []
                else [Mark(Restarted, at)]
  {
    var before := RestartsOf(cfg, checks, k.first, k.failures);
    var after := before + [End(k)];
    assert after[..|before|] == before;
    assert RestartMarks(checks, after) == RestartMarks(checks, before) + [Mark(Restarted, At(checks, End(k)))];
  }

  /** What a further failed check of a streak does to the service. */
  lemma LaterState(cfg: Config, checks: seq<Check>, s: Service, k: Streak)
    requires cfg.Valid() && Live(cfg, checks, s, k) && 1 <= k.failures <= cfg.maxRestarts && !s.escalated
    ensures var at := At(checks, End(k)); var s' := Polled(cfg, s, at, false);
            if k.failures == cfg.maxRestarts then
              && s'.escalated && s'.failures == k.failures + 1
              && s'.backoff == None && s'.deadline == Some(at + cfg.cooldown)
              && s'.incidents == s.incidents + [Incident(at, Escalated, None)] && s'.lastRestart == s.lastRestart
            else
              && !s'.escalated && Live(cfg, checks, s', Longer(k))
              && if Due(cfg, checks, RestartsOf(cfg, checks, k.first, k.failures), End(k)) then
                   && s'.incidents == s.incidents + [Incident(at, Restarted, Some(s.restarts + 1))]
                   && s'.lastRestart == Some(at)
                 else s'.incidents == s.incidents && s'.lastRestart == s.lastRestart
  {
    BackoffDoubles(cfg, |RestartsOf(cfg, checks, k.first, k.failures)|);
  }

  lemma LaterStanding(cfg: Config, checks: seq<Check>, s: Service, k: Streak)
    requires cfg.Valid() && Live(cfg, checks, s, k) && 1 <= k.failures <= cfg.maxRestarts && !s.escalated
    requires End(k) < |checks| && InOrder(checks)
    requires s.lastRestart.Some? ==> forall i :: End(k) <= i < |checks| ==> s.lastRestart.value <= checks[i].at
    ensures Standing(cfg, checks, End(k) + 1, Polled(cfg, s, checks[End(k)].at, false), Longer(k))
  {
    LaterState(cfg, checks, s, k);
  }

  lemma LoggedMarks(incidents: seq<Incident>, more: seq<Incident>)
    requires |more| <= 1
    ensures Marks(incidents + more) == Marks(incidents) + Marks(more)
  {
  }

  /** `more` is what the check adds to the log. */
  lemma LaterMarks(cfg: Config, checks: seq<Check>, k: Streak, incidents: seq<Incident>, more: seq<Incident>,
                   earlier: seq<Mark>)
    requires 1 <= k.failures <= cfg.maxRestarts && Marks(incidents) == earlier + StreakMarks(cfg, checks, k)
    requires |more| <= 1
    requires Marks(more) == if k.failures == cfg.maxRestarts then [Mark(Escalated, At(checks, End(k)))]
                            else if !Due(cfg, checks, RestartsOf(cfg, checks, k.first, k.failures), End(k)) then []
                            else [Mark(Restarted, At(checks, End(k)))]
    ensures Marks(incidents + more) == earlier + StreakMarks(cfg, checks, Longer(k))
  {
    LongerMarks(cfg, checks, k);
    LoggedMarks(incidents, more);
  }

  lemma ProperLonger(cfg: Config, checks: seq<Check>, k: Streak)
    requires ProperStreak(cfg, checks, k) && !GivenUp(cfg, k) && Fails(checks, End(k))
    ensures ProperStreak(cfg, checks, Longer(k))
  {
  }

  /** What the state after the first `n` checks says about the last of its streaks, when that is under way. */
  lemma LastStreak(cfg: Config, checks: seq<Check>, n: nat, s: Service, streaks: seq<Streak>)
    requires Explains(cfg, checks, n, s, streaks) && s.failures > 0 && !s.escalated
    ensures streaks != []
    ensures var rest, k := streaks[..|streaks| - 1], streaks[|streaks| - 1];
            && ProperStreak(cfg, checks, k) && !GivenUp(cfg, k) && End(k) == n && Live(cfg, checks, s, k)
            && Separated(cfg, checks, n, rest) && Closed(cfg, checks, k.first, rest)
            && Marks(s.incidents) == Render(cfg, checks, rest) + StreakMarks(cfg, checks, k)
  {
    ButLast(cfg, checks, n, streaks);
  }

  /** A further failed check of a streak that has not been given up on. */
  lemma LaterFailure(cfg: Config, checks: seq<Check>, n: nat, s: Service, streaks: seq<Streak>)
    returns (more: seq<Streak>)
    requires cfg.Valid() && Explains(cfg, checks, n, s, streaks)
    requires n < |checks| && !checks[n].healthy && s.failures > 0 && !s.escalated && InOrder(checks)
    ensures Explains(cfg, checks, n + 1, Polled(cfg, s, checks[n].at, false), more)
  {
    LastStreak(cfg, checks, n, s, streaks);
    var rest, k := streaks[..|streaks| - 1], streaks[|streaks| - 1];
    var s' := LaterFacts(cfg, checks, s, k, Render(cfg, checks, rest));
    ProperLonger(cfg, checks, k);
    ExplainsLast(cfg, checks, n, n + 1, s', rest, Longer(k));
    more := rest + [Longer(k)];
  }

  lemma LaterFacts(cfg: Config, checks: seq<Check>, s: Service, k: Streak, earlier: seq<Mark>) returns (s': Service)
    requires cfg.Valid() && InOrder(checks) && Live(cfg, checks, s, k) && !s.escalated
    requires 1 <= k.failures <= cfg.maxRestarts
    requires End(k) < |checks| && Marks(s.incidents) == earlier + StreakMarks(cfg, checks, k)
    requires s.lastRestart.Some? ==> forall i :: End(k) <= i < |checks| ==> s.lastRestart.value <= checks[i].at
    ensures s' == Polled(cfg, s, checks[End(k)].at, false)
    ensures Standing(cfg, checks, End(k) + 1, s', Longer(k))
    ensures Marks(s'.incidents) == earlier + StreakMarks(cfg, checks, Longer(k))
  {
    s' := Polled(cfg, s, checks[End(k)].at, false);
    LaterStanding(cfg, checks, s, k);
    var more := LaterLog(cfg, checks, s, k);
    LaterMarks(cfg, checks, k, s.incidents, more, earlier);
  }

  lemma LaterLog(cfg: Config, checks: seq<Check>, s: Service, k: Streak) returns (more: seq<Incident>)
    requires cfg.Valid() && Live(cfg, checks, s, k) && 1 <= k.failures <= cfg.maxRestarts && !s.escalated
    ensures |more| <= 1 && Polled(cfg, s, At(checks, End(k)), false).incidents == s.incidents + more
    ensures Marks(more) == if k.failures == cfg.maxRestarts then [Mark(Escalated, At(checks, End(k)))]
                           else if !Due(cfg, checks, RestartsOf(cfg, checks, k.first, k.failures), End(k)) then []
                           else [Mark(Restarted, At(checks, End(k)))]
  {
    var at := At(checks, End(k));
    LaterState(cfg, checks, s, k);
    if k.failures == cfg.maxRestarts {
      more := [Incident(at, Escalated, None)];
    } else if Due(cfg, checks, RestartsOf(cfg, checks, k.first, k.failures), End(k)) {
      more := [Incident(at, Restarted, Some(s.restarts + 1))];
    } else {
      more := [];
      assert s.incidents + [] == s.incidents;
    }
  }

  /** A check that leaves no trace, or a healthy one that ends the streak. */
  lemma OtherCheck(cfg: Config, checks: seq<Check>, n: nat, s: Service, streaks: seq<Streak>)
    requires Explains(cfg, checks, n, s, streaks) && n < |checks|
    requires CoolingDown(s, checks[n].at) || checks[n].healthy || s.escalated
    ensures Explains(cfg, checks, n + 1, Polled(cfg, s, checks[n].at, checks[n].healthy), streaks)
  {
    SeparatedLater(cfg, checks, n, n + 1, streaks);
    if s.failures == 0 {
      if streaks != [] {
        var k := streaks[|streaks| - 1];
        var h :| EndedBy(cfg, checks, k, h, n);
        assert EndedBy(cfg, checks, k, h, n + 1);
      }
    } else {
      var k := streaks[|streaks| - 1];
      if checks[n].healthy && !CoolingDown(s, checks[n].at) {
        assert EndedBy(cfg, checks, k, n, n + 1);
      } else {
        assert Silent(cfg, checks, k, n);
      }
    }
  }

  lemma StepExplained(cfg: Config, checks: seq<Check>, n: nat, s: Service, streaks: seq<Streak>)
    returns (more: seq<Streak>)
    requires cfg.Valid() && InOrder(checks) && n < |checks| && Explains(cfg, checks, n, s, streaks)
    ensures Explains(cfg, checks, n + 1, Polled(cfg, s, checks[n].at, checks[n].healthy), more)
  {
    if CoolingDown(s, checks[n].at) || checks[n].healthy || s.escalated {
      OtherCheck(cfg, checks, n, s, streaks);
      more := streaks;
    } else if s.failures == 0 {
      more := FirstFailure(cfg, checks, n, s, streaks);
    } else {
      more := LaterFailure(cfg, checks, n, s, streaks);
    }
  }

  lemma RunStepExplained(cfg: Config, checks: seq<Check>, n: nat, streaks: seq<Streak>) returns (more: seq<Streak>)
    requires cfg.Valid() && InOrder(checks) && n < |checks|
    requires Explains(cfg, checks, n, Run(cfg, NEW_SERVICE, checks[..n]), streaks)
    ensures Explains(cfg, checks, n + 1, Run(cfg, NEW_SERVICE, checks[..n + 1]), more)
  {
    more := StepExplained(cfg, checks, n, Run(cfg, NEW_SERVICE, checks[..n]), streaks);
    RunLonger(cfg, NEW_SERVICE, checks, n);
  }

  lemma RunLonger(cfg: Config, s: Service, checks: seq<Check>, n: nat)
    requires n < |checks|
    ensures Run(cfg, s, checks[..n + 1]) == Polled(cfg, Run(cfg, s, checks[..n]), checks[n].at, checks[n].healthy)
  {
    assert checks[..n + 1][..n] == checks[..n];
  }

  lemma NothingYet(cfg: Config, checks: seq<Check>)
    ensures Explains(cfg, checks, 0, NEW_SERVICE, [])
  {
  }

  lemma {:induction false} RunExplained(cfg: Config, checks: seq<Check>, n: nat) returns (streaks: seq<Streak>)
    requires cfg.Valid() && InOrder(checks) && n <= |checks|
    ensures Explains(cfg, checks, n, Run(cfg, NEW_SERVICE, checks[..n]), streaks)
    decreases n
  {
    if n == 0 {
      NothingYet(cfg, checks);
      streaks := [];
    } else {
      var before := RunExplained(cfg, checks, n - 1);
      streaks := RunStepExplained(cfg, checks, n - 1, before);
    }
  }

  /**
   * Over every run the incidents are those of its streaks of failed checks, in order: DEGRADED at the first
   * check; RESTARTED at the first and at every later check that comes the current backoff after the restart
   * before it, as long as there have been no more failures than the maximum; ESCALATED at failure number
   * maximum plus one. The next streak begins at the first failed check after a healthy one, which for an
   * escalated streak must come after the cooldown; no check in between leaves a trace.
   */
  lemma IncidentGrammar(cfg: Config, checks: seq<Check>)
    requires cfg.Valid() && InOrder(checks)
    ensures exists streaks :: StreaksOf(cfg, checks, |checks|, streaks)
                              && Marks(Run(cfg, NEW_SERVICE, checks).incidents) == Render(cfg, checks, streaks)
    ensures var s := Run(cfg, NEW_SERVICE, checks); s.escalated <==> s.failures > cfg.maxRestarts
  {
    var streaks := RunExplained(cfg, checks, |checks|);
    assert checks[..|checks|] == checks;
    assert StreaksOf(cfg, checks, |checks|, streaks);
  }

  ghost predicate Spaced(cfg: Config, checks: seq<Check>, restarts: seq<nat>) {
    forall i :: 1 <= i < |restarts| ==>
      restarts[i - 1] < restarts[i] && At(checks, restarts[i]) - At(checks, restarts[i - 1]) >= Backoff(cfg, i)
  }

  /** The restarts of a streak begin with its first check and are at least the backoff apart. */
  lemma {:induction false} RestartsSpaced(cfg: Config, checks: seq<Check>, first: nat, n: nat)
    ensures var r := RestartsOf(cfg, checks, first, n);
            && |r| <= n && (n > 0 ==> r != [] && r[0] == first && r[|r| - 1] < first + n)
            && Spaced(cfg, checks, r)
    decreases n
  {
    if n > 0 {
      RestartsSpaced(cfg, checks, first, n - 1);
      var earlier := RestartsOf(cfg, checks, first, n - 1);
      if Due(cfg, checks, earlier, first + n - 1) { SpacedMore(cfg, checks, earlier, first + n - 1); }
    }
  }

  lemma SpacedMore(cfg: Config, checks: seq<Check>, restarts: seq<nat>, i: nat)
    requires Spaced(cfg, checks, restarts) && Due(cfg, checks, restarts, i)
    requires restarts != [] ==> restarts[|restarts| - 1] < i
    ensures Spaced(cfg, checks, restarts + [i])
  {
  }

  /** Once escalated, a service logs nothing more until a check is healthy. */
  lemma {:induction false} SilentUntilHealthy(cfg: Config, s: Service, checks: seq<Check>)
    requires s.escalated && forall c <- checks :: !c.healthy
    ensures Run(cfg, s, checks).incidents == s.incidents && Run(cfg, s, checks).escalated
    decreases |checks|
  {
    if checks != [] { SilentUntilHealthy(cfg, s, checks[..|checks| - 1]); }
  }

  // ---- numbering -------------------------------------------------------------------

  function RestartCount(incidents: seq<Incident>): nat {
    if incidents == [] then 0
    else RestartCount(incidents[..|incidents| - 1]) + if incidents[|incidents| - 1].kind.Restarted? then 1 else 0
  }

  ghost predicate Numbered(incidents: seq<Incident>) {
    forall i :: 0 <= i < |incidents| ==>
      incidents[i].attempt == if incidents[i].kind.Restarted? then Some(RestartCount(incidents[..i]) + 1) else None
  }

  lemma NumberedAppend(incidents: seq<Incident>, i: Incident)
    requires Numbered(incidents)
    requires i.attempt == if i.kind.Restarted? then Some(RestartCount(incidents) + 1) else None
    ensures Numbered(incidents + [i])
    ensures RestartCount(incidents + [i]) == RestartCount(incidents) + if i.kind.Restarted? then 1 else 0
  {
    assert (incidents + [i])[..|incidents|] == incidents;
    forall j | 0 <= j < |incidents| ensures (incidents + [i])[..j] == incidents[..j] {}
  }

  /** The incidents are numbered and the restart counter is the number of restarts among them. */
  ghost predicate Counted(s: Service) {
    Numbered(s.incidents) && s.restarts == RestartCount(s.incidents)
  }

  lemma LoggedCounted(s: Service, s': Service, i: Incident)
    requires Counted(s) && s'.incidents == s.incidents + [i]
    requires i.attempt == if i.kind.Restarted? then Some(s.restarts + 1) else None
    requires s'.restarts == s.restarts + if i.kind.Restarted? then 1 else 0
    ensures Counted(s')
  {
    NumberedAppend(s.incidents, i);
  }

  lemma NotedCounted(s: Service, at: real)
    requires Counted(s)
    ensures Counted(FailureNoted(s, at))
  {
    var noted := FailureNoted(s, at);
    if noted.incidents != s.incidents { LoggedCounted(s, noted, Incident(at, Degraded, None)); }
  }

  lemma TriedCounted(cfg: Config, s: Service, at: real)
    requires Counted(s)
    ensures Counted(RestartTried(cfg, s, at))
  {
    if !StillWaiting(s, at) {
      LoggedCounted(s, RestartTried(cfg, s, at), Incident(at, Restarted, Some(s.restarts + 1)));
    }
  }

  lemma FailureCounted(cfg: Config, noted: Service, at: real)
    requires Counted(noted)
    ensures Counted(WithEscalation(cfg, noted, at)) && Counted(RestartTried(cfg, noted, at))
  {
    TriedCounted(cfg, noted, at);
    LoggedCounted(noted, WithEscalation(cfg, noted, at), Incident(at, Escalated, None));
  }

  lemma SameLogCounted(s: Service, s': Service)
    requires Counted(s) && s'.incidents == s.incidents && s'.restarts == s.restarts
    ensures Counted(s')
  {
  }

  lemma PollCounted(cfg: Config, s: Service, at: real, healthy: bool)
    requires Counted(s)
    ensures Counted(Polled(cfg, s, at, healthy))
  {
    if CoolingDown(s, at) || healthy {
      SameLogCounted(s, Polled(cfg, s, at, healthy));
    } else {
      NotedCounted(s, at);
      FailureCounted(cfg, FailureNoted(s, at), at);
    }
  }

  /**
   * Restarts are numbered consecutively over the whole life of a service: recovery resets the
   * failure count and the backoff, but never the restart count.
   */
  lemma {:induction false} RestartsNumbered(cfg: Config, checks: seq<Check>)
    ensures var s := Run(cfg, NEW_SERVICE, checks);
            Numbered(s.incidents) && s.restarts == RestartCount(s.incidents)
    decreases |checks|
  {
    if checks != [] {
      var n := |checks| - 1;
      RestartsNumbered(cfg, checks[..n]);
      PollCounted(cfg, Run(cfg, NEW_SERVICE, checks[..n]), checks[n].at, checks[n].healthy);
    }
  }

  // ---- what the status page shows ------------------------------------------------------

  /** The checks outside a cooldown, in order. */
  function Seen(cfg: Config, checks: seq<Check>): seq<Check> {
    if checks == [] then []
    else
      var n := |checks| - 1;
      var before := Seen(cfg, checks[..n]);
      if CoolingDown(Run(cfg, NEW_SERVICE, checks[..n]), checks[n].at) then before else before + [checks[n]]
  }

  /** How many checks have failed since the last healthy one. */
  function FailuresInARow(seen: seq<Check>): nat {
    if seen == [] || seen[|seen| - 1].healthy then 0 else FailuresInARow(seen[..|seen| - 1]) + 1
  }

  function LastFailed(seen: seq<Check>): Option<real> {
    if seen == [] then None
    else
      var last := seen[|seen| - 1];
      if last.healthy then LastFailed(seen[..|seen| - 1]) else Some(last.at)
  }

  /** When an incident of that kind was last logged. */
  function LastLogged(incidents: seq<Incident>, kind: Kind): Option<real> {
    if incidents == [] then None
    else
      var last := incidents[|incidents| - 1];
      if last.kind == kind then Some(last.at) else LastLogged(incidents[..|incidents| - 1], kind)
  }

  lemma LastLoggedAppend(incidents: seq<Incident>, i: Incident, kind: Kind)
    ensures LastLogged(incidents + [i], kind) == if i.kind == kind then Some(i.at) else LastLogged(incidents, kind)
  {
    assert (incidents + [i])[..|incidents|] == incidents;
  }

  /** The health fields, by the checks that were seen. */
  ghost predicate ShowsChecks(s: Service, seen: seq<Check>) {
    && s.lastCheck == (if seen == [] then 0.0 else seen[|seen| - 1].at)
    && (s.healthy <==> seen == [] || seen[|seen| - 1].healthy)
    && s.failures == FailuresInARow(seen)
    && s.lastFailure == LastFailed(seen)
  }

  /** The times, by the log. */
  ghost predicate ShowsLog(cfg: Config, s: Service) {
    && s.lastRestart == LastLogged(s.incidents, Restarted)
    && s.escalationTime == LastLogged(s.incidents, Escalated)
    && (s.escalated ==> s.escalationTime.Some? && s.failures > 0)
    && s.deadline == if s.escalated then Some(s.escalationTime.value + cfg.cooldown) else None
  }

  lemma CheckShown(cfg: Config, s: Service, seen: seq<Check>, c: Check)
    requires ShowsChecks(s, seen) && !CoolingDown(s, c.at)
    ensures ShowsChecks(Polled(cfg, s, c.at, c.healthy), seen + [c])
  {
    assert (seen + [c])[..|seen|] == seen;
  }

  lemma LogNoted(cfg: Config, s: Service, at: real)
    requires ShowsLog(cfg, s)
    ensures ShowsLog(cfg, FailureNoted(s, at)) && FailureNoted(s, at).failures > 0
  {
    LastLoggedAppend(s.incidents, Incident(at, Degraded, None), Restarted);
    LastLoggedAppend(s.incidents, Incident(at, Degraded, None), Escalated);
  }

  lemma LogEscalated(cfg: Config, noted: Service, at: real)
    requires ShowsLog(cfg, noted) && noted.failures > 0
    ensures ShowsLog(cfg, WithEscalation(cfg, noted, at))
  {
    LastLoggedAppend(noted.incidents, Incident(at, Escalated, None), Restarted);
    LastLoggedAppend(noted.incidents, Incident(at, Escalated, None), Escalated);
  }

  lemma LogTried(cfg: Config, noted: Service, at: real)
    requires ShowsLog(cfg, noted)
    ensures ShowsLog(cfg, RestartTried(cfg, noted, at))
  {
    var i := Incident(at, Restarted, Some(noted.restarts + 1));
    LastLoggedAppend(noted.incidents, i, Restarted);
    LastLoggedAppend(noted.incidents, i, Escalated);
  }

  lemma LogShown(cfg: Config, s: Service, at: real, healthy: bool)
    requires ShowsLog(cfg, s)
    ensures ShowsLog(cfg, Polled(cfg, s, at, healthy))
  {
    if !CoolingDown(s, at) && !healthy {
      var noted := FailureNoted(s, at);
      LogNoted(cfg, s, at);
      if noted.failures > cfg.maxRestarts { LogEscalated(cfg, noted, at); } else { LogTried(cfg, noted, at); }
    }
  }

  /**
   * Over every run, what is shown of a service: it is healthy exactly when no failure is counted, which is
   * when the last check outside a cooldown was; last check and last failure are the times of such checks,
   * last restart and escalation those of the last incidents of that kind; and a cooldown is under way exactly
   * for its length after the escalation of a service that is escalated.
   */
  lemma {:induction false} StatusShown(cfg: Config, checks: seq<Check>)
    ensures var s := Run(cfg, NEW_SERVICE, checks);
            ShowsChecks(s, Seen(cfg, checks)) && ShowsLog(cfg, s) && (s.healthy <==> s.failures == 0)
    ensures forall at: real :: var s := Run(cfg, NEW_SERVICE, checks);
              CoolingDown(s, at) <==> s.escalated && at < s.escalationTime.value + cfg.cooldown
    decreases |checks|
  {
    if checks != [] {
      var n := |checks| - 1;
      StatusShown(cfg, checks[..n]);
      var s := Run(cfg, NEW_SERVICE, checks[..n]);
      if !CoolingDown(s, checks[n].at) { CheckShown(cfg, s, Seen(cfg, checks[..n]), checks[n]); }
      LogShown(cfg, s, checks[n].at, checks[n].healthy);
    }
  }

  // ---- how many restarts precede an escalation ----------------------------------------

  /** A service at the beginning of a streak, last restarted no later than `now`. */
  predicate Rested(s: Service, now: real) {
    && s.failures == 0 && !s.escalated && s.backoff == None && s.deadline == None
    && (s.lastRestart.Some? ==> s.lastRestart.value <= now)
  }

  function Failing(times: seq<real>): seq<Check> {
    seq(|times|, i requires 0 <= i < |times| => Check(times[i], false))
  }

  ghost predicate Ordered(times: seq<real>) {
    forall i, j :: 0 <= i <= j < |times| ==> times[i] <= times[j]
  }

  /** Each of the first `n` failed checks comes at least the current backoff after the one before. */
  ghost predicate KeepsBackoff(cfg: Config, times: seq<real>, n: nat)
    requires n <= |times|
  {
    forall i :: 1 <= i < n ==> times[i] - times[i - 1] >= Backoff(cfg, i)
  }

  /**
   * A service `n` failures into a streak that began at `before` restarts: it has been restarted
   * every time exactly if `intact`, and then the last restart was at `last`.
   */
  predicate Tally(cfg: Config, s: Service, n: nat, before: nat, intact: bool, last: real)
    requires n >= 1
  {
    && s.failures == n && !s.escalated && s.deadline == None
    && s.restarts <= before + n
    && (s.restarts == before + n <==> intact)
    && (intact ==> s.backoff == Some(Backoff(cfg, n)) && s.lastRestart == Some(last))
  }

  lemma FirstFailureTallied(cfg: Config, s: Service, at: real)
    requires cfg.Valid() && cfg.maxRestarts >= 1 && Rested(s, at)
    ensures Tally(cfg, Polled(cfg, s, at, false), 1, s.restarts, true, at)
  {
    BackoffDoubles(cfg, 1);
  }

  lemma FailureTallied(cfg: Config, s: Service, n: nat, before: nat, intact: bool, last: real, at: real)
    requires cfg.Valid() && 1 <= n < cfg.maxRestarts && Tally(cfg, s, n, before, intact, last)
    ensures Tally(cfg, Polled(cfg, s, at, false), n + 1, before, intact && at - last >= Backoff(cfg, n), at)
  {
    BackoffDoubles(cfg, n);
  }

  lemma LastFailureEscalates(cfg: Config, s: Service, at: real)
    requires s.failures == cfg.maxRestarts && !s.escalated && s.deadline == None
    ensures var s' := Polled(cfg, s, at, false);
            s'.escalated && s'.escalationTime == Some(at) && s'.deadline == Some(at + cfg.cooldown)
            && s'.restarts == s.restarts
  {
  }

  lemma BackoffKeptLonger(cfg: Config, times: seq<real>, n: nat)
    requires 1 <= n < |times|
    ensures KeepsBackoff(cfg, times, n) <==> KeepsBackoff(cfg, times[..n], n)
    ensures KeepsBackoff(cfg, times, n + 1)
       <==> KeepsBackoff(cfg, times, n) && times[n] - times[n - 1] >= Backoff(cfg, n)
  {
  }

  lemma FailingExtends(cfg: Config, s: Service, times: seq<real>)
    requires times != []
    ensures var n := |times| - 1;
            Run(cfg, s, Failing(times)) == Polled(cfg, Run(cfg, s, Failing(times[..n])), times[n], false)
  {
    var n := |times| - 1;
    assert Failing(times)[..n] == Failing(times[..n]);
  }

  /** After `n` failed checks, not more than allowed: every one restarted, or the spacing was broken. */
  lemma {:induction false} RestartsSoFar(cfg: Config, s: Service, times: seq<real>)
    requires cfg.Valid() && 0 < |times| <= cfg.maxRestarts && Ordered(times) && Rested(s, times[0])
    ensures Tally(cfg, Run(cfg, s, Failing(times)), |times|, s.restarts, KeepsBackoff(cfg, times, |times|),
                  times[|times| - 1])
    decreases |times|
  {
    var n := |times| - 1;
    FailingExtends(cfg, s, times);
    if n == 0 {
      FirstFailureTallied(cfg, s, times[0]);
    } else {
      RestartsSoFar(cfg, s, times[..n]);
      BackoffKeptLonger(cfg, times, n);
      FailureTallied(cfg, Run(cfg, s, Failing(times[..n])), n, s.restarts, KeepsBackoff(cfg, times, n),
                     times[n - 1], times[n]);
    }
  }

  /**
   * A service that keeps failing is escalated at failed check number maximum plus one, whatever
   * the spacing; but the documented "after the maximum number of restarts" holds exactly when
   * every check that may restart comes no sooner than the backoff after the previous one.
   */
  lemma RestartsBeforeEscalation(cfg: Config, s: Service, times: seq<real>)
    requires cfg.Valid() && |times| == cfg.maxRestarts + 1 && Ordered(times) && Rested(s, times[0])
    ensures var s' := Run(cfg, s, Failing(times));
            && s'.escalated && s'.escalationTime == Some(times[cfg.maxRestarts])
            && s'.deadline == Some(times[cfg.maxRestarts] + cfg.cooldown)
            && s'.restarts <= s.restarts + cfg.maxRestarts
            && (s'.restarts == s.restarts + cfg.maxRestarts <==> KeepsBackoff(cfg, times, cfg.maxRestarts))
  {
    var n := cfg.maxRestarts;
    FailingExtends(cfg, s, times);
    if n > 0 {
      RestartsSoFar(cfg, s, times[..n]);
      BackoffKeptLonger(cfg, times, n);
    }
    LastFailureEscalates(cfg, Run(cfg, s, Failing(times[..n])), times[n]);
  }

  lemma {:induction false} BackoffGrows(cfg: Config, i: nat, k: nat)
    requires cfg.Valid() && 1 <= i <= k
    ensures Backoff(cfg, i) <= Backoff(cfg, k)
    decreases k
  {
    if i < k {
      BackoffGrows(cfg, i, k - 1);
      BackoffDoubles(cfg, k - 1);
    }
  }

  ghost predicate Periodic(times: seq<real>, period: real) {
    forall i :: 1 <= i < |times| ==> times[i] == times[i - 1] + period
  }

  /** With a fixed poll period the promise holds exactly when the period covers the last backoff in use. */
  lemma PeriodicPolling(cfg: Config, s: Service, times: seq<real>, period: real)
    requires cfg.Valid() && period >= 0.0 && |times| == cfg.maxRestarts + 1 && Periodic(times, period)
    requires Ordered(times) && Rested(s, times[0])
    ensures Run(cfg, s, Failing(times)).restarts == s.restarts + cfg.maxRestarts
       <==> (cfg.maxRestarts <= 1 || period >= Backoff(cfg, cfg.maxRestarts - 1))
  {
    RestartsBeforeEscalation(cfg, s, times);
    var n := cfg.maxRestarts;
    if n > 1 {
      forall i | 1 <= i < n ensures Backoff(cfg, i) <= Backoff(cfg, n - 1) {
        BackoffGrows(cfg, i, n - 1);
      }
      assert times[n - 1] - times[n - 2] == period;
    }
  }

  /** With the default limits the promise holds exactly when the checks are at least ten seconds apart. */
  lemma DefaultLimits(s: Service, times: seq<real>, period: real)
    requires period >= 0.0 && |times| == 4 && Periodic(times, period) && Ordered(times) && Rested(s, times[0])
    ensures Run(Config(3, 5.0, 300.0, 600.0), s, Failing(times)).restarts == s.restarts + 3 <==> period >= 10.0
  {
    var cfg := Config(3, 5.0, 300.0, 600.0);
    PeriodicPolling(cfg, s, times, period);
    assert Doubled(5.0, 1) == 2.0 * Doubled(5.0, 0) == 10.0;
    assert Backoff(cfg, 2) == 10.0;
  }

  /** With the default limits but a check every second, escalation follows a single restart. */
  lemma EscalatedAfterOneRestart()
    ensures var cfg := Config(3, 5.0, 300.0, 600.0);
            var s := Run(cfg, NEW_SERVICE, Failing([0.0, 1.0, 2.0, 3.0]));
            s.escalated && s.restarts == 1
  {
    var cfg := Config(3, 5.0, 300.0, 600.0);
    var checks := Failing([0.0, 1.0, 2.0, 3.0]);
    var s0 := Run(cfg, NEW_SERVICE, checks[..0]);
    assert checks[..1][..0] == checks[..0] && checks[..2][..1] == checks[..1] && checks[..3][..2] == checks[..2];
    var s1 := Polled(cfg, s0, 0.0, false);
    assert Run(cfg, NEW_SERVICE, checks[..1]) == s1;
    var s2 := Polled(cfg, s1, 1.0, false);
    assert Run(cfg, NEW_SERVICE, checks[..2]) == s2;
    var s3 := Polled(cfg, s2, 2.0, false);
    assert Run(cfg, NEW_SERVICE, checks[..3]) == s3;
    assert Run(cfg, NEW_SERVICE, checks) == Polled(cfg, s3, 3.0, false);
  }
}
