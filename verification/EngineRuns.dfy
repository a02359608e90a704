/** What the alert engine and the health notices do over whole runs, with the
    numbers of their policies spelled out: confirmations, gaps, stability period,
    cooldown, budget and back-off. Times are nanoseconds. */
module EngineRuns {
  import opened Options
  import opened Incident
  import opened IncidentHistory

  /** The state the engine keeps for one key after a run of observations. */
  function EngineRun(rule: Rule, upstreamID: int, h: History): Incident {
    if h == [] then FRESH else EngineStep(rule, upstreamID, EngineRun(rule, upstreamID, Before(h)), Last(h))
  }

  /** The engine's object, driven through a run, holds that state. */
  method Drive(rule: Rule, key: string, upstreamID: int, steps: History) returns (engine: Engine)
    requires key != ""
    ensures steps != [] ==>
              && StateKey(rule.id, key) in engine.states
              && engine.states[StateKey(rule.id, key)] == EngineRun(rule, upstreamID, steps)
  {
    engine := new Engine();
    var i := 0;
    while i < |steps|
      invariant 0 <= i <= |steps| && fresh(engine)
      invariant (if StateKey(rule.id, key) in engine.states then engine.states[StateKey(rule.id, key)] else FRESH)
             == EngineRun(rule, upstreamID, steps[..i])
      invariant i > 0 ==> StateKey(rule.id, key) in engine.states
    {
      assert Before(steps[..i + 1]) == steps[..i] && Last(steps[..i + 1]) == steps[i];
      var step := steps[i];
      var _, _ := engine.HandleObservation(rule, key, upstreamID, step.o, step.delivered);
      assert step == Step(step.o, step.delivered);
      i := i + 1;
    }
    assert steps[..i] == steps;
  }

  lemma {:induction false} EngineRunIsRun(rule: Rule, upstreamID: int, h: History)
    ensures EngineRun(rule, upstreamID, h) == Run(PolicyFor(rule, upstreamID), h)
    decreases |h|
  {
    if h != [] { EngineRunIsRun(rule, upstreamID, Before(h)); }
  }

  // --------------------------------------------------- in plain numbers

  /** Error rates and latencies need confirmation. */
  predicate Confirmed(rule: Rule) { rule.event == ErrorRate || rule.event == Latency }

  predicate PerUpstream(rule: Rule, upstreamID: int) {
    || upstreamID > 0 || rule.event == LowBalance || rule.event == BalanceUnavailable
    || rule.event == ErrorRate || rule.event == Latency
  }

  /** The last `n` observations in a row were clean and `active` or not; for the
      alerts of an upstream none came more than 90 s after the one before. */
  predicate InARow(rule: Rule, upstreamID: int, h: History, active: bool, n: nat) {
    && n <= |h|
    && (forall i | |h| - n <= i < |h| :: !h[i].o.ignore && !h[i].o.hold && h[i].o.active == active)
    && (PerUpstream(rule, upstreamID) ==>
          forall i | |h| - n < i < |h| :: h[i].o.at - h[i - 1].o.at <= 90_000_000_000)
  }

  lemma InARowIsUnbroken(rule: Rule, upstreamID: int, h: History, active: bool, n: nat)
    ensures InARow(rule, upstreamID, h, active, n) <==> Unbroken(PolicyFor(rule, upstreamID), h, active, n)
  {}

  /** An error-rate or latency incident turns active exactly at the second active
      observation in a row and inactive exactly at the third normal one; every
      other incident turns at the first. */
  lemma EngineTurns(rule: Rule, upstreamID: int, h: History)
    requires h != []
    ensures EngineRun(rule, upstreamID, h).active <==>
            || InARow(rule, upstreamID, h, true, if Confirmed(rule) then 2 else 1)
            || (&& EngineRun(rule, upstreamID, Before(h)).active
                && !InARow(rule, upstreamID, h, false, if Confirmed(rule) then 3 else 1))
  {
    EngineRunIsRun(rule, upstreamID, h);
    EngineRunIsRun(rule, upstreamID, Before(h));
    InARowIsUnbroken(rule, upstreamID, h, true, if Confirmed(rule) then 2 else 1);
    InARowIsUnbroken(rule, upstreamID, h, false, if Confirmed(rule) then 3 else 1);
    ExactDebounce(PolicyFor(rule, upstreamID), h);
    if InARow(rule, upstreamID, h, true, if Confirmed(rule) then 2 else 1) { assert CleanActive(h[|h| - 1].o); }
    if InARow(rule, upstreamID, h, false, if Confirmed(rule) then 3 else 1) { assert CleanNormal(h[|h| - 1].o); }
  }

  /** An incident is active since the observation that turned it active. */
  lemma EngineActiveSince(rule: Rule, upstreamID: int, h: History)
    requires h != []
    ensures var was, s := EngineRun(rule, upstreamID, Before(h)), EngineRun(rule, upstreamID, h);
            s.activeSince == if s.active && !was.active then Some(Last(h).o.at) else was.activeSince
  {
    ActiveSinceMoves(EngineRun(rule, upstreamID, Before(h)), Last(h), PolicyFor(rule, upstreamID));
  }

  lemma ActiveSinceMoves(s: Incident, step: Step, p: Policy)
    ensures var t := Handle(s, step, p);
            t.activeSince == if t.active && !s.active then Some(step.o.at) else s.activeSince
  {
    var t := Observed(s, step.o, p);
    assert Handle(s, step, p).activeSince == t.activeSince && Handle(s, step, p).active == t.active;
  }

  /** The normal run that ends here, in full, has lasted 30 minutes, or any time
      at all for the login and client-error rules. */
  ghost predicate Recovered(rule: Rule, upstreamID: int, h: History) {
    exists n: nat :: RecoveredFor(rule, upstreamID, h, n)
  }

  predicate RecoveredFor(rule: Rule, upstreamID: int, h: History, n: nat) {
    && 0 < n <= |h| && InARow(rule, upstreamID, h, false, n) && !InARow(rule, upstreamID, h, false, n + 1)
    && Last(h).o.at - h[|h| - n].o.at >= if PerUpstream(rule, upstreamID) then 1_800_000_000_000 else 0
  }

  lemma RecoveredIsReset(rule: Rule, upstreamID: int, h: History)
    requires h != []
    ensures ResetAt(PolicyFor(rule, upstreamID), h)
       <==> !EngineRun(rule, upstreamID, h).active && Recovered(rule, upstreamID, h)
  {
    var p := PolicyFor(rule, upstreamID);
    EngineRunIsRun(rule, upstreamID, h);
    CounterResetIff(p, h);
    forall n: nat
      ensures RecoveredFor(rule, upstreamID, h, n) <==> LongestNormalRun(p, h, n) && SpansStable(p, h, n)
    {
      InARowIsUnbroken(rule, upstreamID, h, false, n);
      InARowIsUnbroken(rule, upstreamID, h, false, n + 1);
    }
  }

  /** The firing budget is renewed exactly then, and otherwise grows with every
      accepted firing and nothing else. */
  lemma EngineRenewsBudget(rule: Rule, upstreamID: int, h: History)
    requires h != []
    ensures var was := EngineRun(rule, upstreamID, Before(h));
            EngineRun(rule, upstreamID, h).count
              == if !EngineRun(rule, upstreamID, h).active && Recovered(rule, upstreamID, h) then 0
                 else was.count
                      + if Last(h).delivered && EngineNotice(rule, upstreamID, was, Last(h).o) == Firing then 1 else 0
  {
    var p := PolicyFor(rule, upstreamID);
    EngineRunIsRun(rule, upstreamID, h);
    EngineRunIsRun(rule, upstreamID, Before(h));
    RecoveredIsReset(rule, upstreamID, h);
    CounterResetIff(p, h);
    HistoryRefinement(p, h);
  }

  /** No notice leaves before the back-off of a failed one is over. */
  predicate Free(s: Incident, at: int) { s.retryAfter.None? || s.retryAfter.value <= at }

  lemma FirstIsQuietBefore(rule: Rule, upstreamID: int, h: History)
    ensures var s := EngineRun(rule, upstreamID, h); s.notifiedActive.None? ==> s == FRESH
  {
    if h != [] {
      EngineRunIsRun(rule, upstreamID, h);
      HistoryRefinement(PolicyFor(rule, upstreamID), h);
    }
  }

  /** A firing is sent exactly at a clean active observation of a confirmed
      incident with budget left, outside the back-off, a cooldown after the last
      firing; and never again before a resolution if the rule has no cooldown. */
  lemma EngineFiresIff(rule: Rule, upstreamID: int, h: History)
    requires h != []
    ensures var was, o := EngineRun(rule, upstreamID, Before(h)), Last(h).o;
            && (EngineNotice(rule, upstreamID, was, o) == Firing <==>
                  && !o.ignore && !o.hold && o.active && EngineRun(rule, upstreamID, h).active && Free(was, o.at)
                  && (rule.maxNotifications > 0 ==> was.count < rule.maxNotifications)
                  && (was.lastFiringAt.Some? ==>
                        && o.at - was.lastFiringAt.value >= rule.cooldown
                        && (rule.cooldown > 0 || was.notifiedActive != Some(true))))
            && (EngineNotice(rule, upstreamID, was, o) == Resolved <==>
                  && !o.ignore && !o.hold && !o.active && !EngineRun(rule, upstreamID, h).active && Free(was, o.at)
                  && was.notifiedActive == Some(true))
  {
    FirstIsQuietBefore(rule, upstreamID, Before(h));
  }

  /** What a notice leaves behind: an accepted one ends the back-off and is the
      one that was last told; one that was not accepted is held back for the
      cooldown, at least a minute. */
  lemma EngineRemembers(rule: Rule, upstreamID: int, h: History)
    requires h != []
    ensures var was, s := EngineRun(rule, upstreamID, Before(h)), EngineRun(rule, upstreamID, h);
            Remembers(was, s, EngineNotice(rule, upstreamID, was, Last(h).o), Last(h), rule.cooldown)
  {
    HandleRemembers(EngineRun(rule, upstreamID, Before(h)), Last(h), PolicyFor(rule, upstreamID));
  }

  predicate Remembers(was: Incident, s: Incident, notice: Notice, step: Step, cooldown: int) {
    && (notice == Quiet ==> s.retryAfter == was.retryAfter)
    && (notice != Quiet && !step.delivered ==>
          s.retryAfter == Some(step.o.at + if cooldown > 60_000_000_000 then cooldown else 60_000_000_000))
    && (notice != Quiet && step.delivered ==> s.retryAfter == None && s.notifiedActive == Some(notice == Firing))
    && (notice == Firing && step.delivered ==> s.lastFiringAt == Some(step.o.at))
    && s.lastNotifiedAt == (if notice != Quiet && step.delivered then Some(step.o.at) else was.lastNotifiedAt)
  }

  lemma HandleRemembers(s: Incident, step: Step, p: Policy)
    ensures Remembers(s, Handle(s, step, p), NoticeOf(s, step.o, p), step, p.cooldown)
  {
    assert Observed(s, step.o, p).retryAfter == s.retryAfter;
  }

  /** The last firing is forgotten exactly when a login or client-error incident
      has recovered. */
  lemma EngineForgetsIff(rule: Rule, upstreamID: int, h: History)
    requires h != []
    ensures var was := EngineRun(rule, upstreamID, Before(h));
            !(EngineNotice(rule, upstreamID, was, Last(h).o) == Firing && Last(h).delivered) ==>
              EngineRun(rule, upstreamID, h).lastFiringAt
                == if && !PerUpstream(rule, upstreamID) && !EngineRun(rule, upstreamID, h).active
                      && Recovered(rule, upstreamID, h)
                   then None else was.lastFiringAt
  {
    var p := PolicyFor(rule, upstreamID);
    EngineRunIsRun(rule, upstreamID, h);
    EngineRunIsRun(rule, upstreamID, Before(h));
    RecoveredIsReset(rule, upstreamID, h);
    LastFiringMoves(p, h);
    assert p.stableFor == 0 <==> !PerUpstream(rule, upstreamID);
  }

  lemma LastFiringMoves(p: Policy, h: History)
    requires h != []
    ensures var was := Run(p, Before(h));
            !(NoticeOf(was, Last(h).o, p) == Firing && Last(h).delivered) ==>
              Run(p, h).lastFiringAt == if ResetAt(p, h) && p.stableFor == 0 then None else was.lastFiringAt
  {
    HistoryRefinement(p, h);
    HistoryRefinement(p, Before(h));
  }

  // ---------------------------------------------------- health notices

  /** The state an upstream starts from: that of the last notice it was told, of
      which only the status is known. */
  function Seed(notifiedUnhealthy: bool, now: int): Incident {
    FRESH.(active := notifiedUnhealthy, count := if notifiedUnhealthy then 1 else 0,
           lastNotifiedAt := if notifiedUnhealthy then Some(now) else None)
  }

  /** Streaks are counts. */
  predicate Counting(s: Incident) { s.firingStreak >= 0 && s.recoveryStreak >= 0 }

  /** Whether the last notice was a firing, and when the last firing was: a state
      without a record of its notices counts as notified of what it is. */
  function ToldUnhealthy(s: Incident): bool { s.notifiedActive.GetOr(s.active) }

  function ToldAt(s: Incident): Option<int> {
    if s.notifiedActive.None? && s.active then s.lastNotifiedAt else s.lastFiringAt
  }

  /** Health notices, from any stored state: unhealthy at the first sight of it, at
      most three times before renewal, not twice without a recovery in between,
      half an hour apart; healthy at the first sight of it, if unhealthy was told;
      and each hands out a lease of one minute. */
  lemma HealthNoticeIff(s: Incident, status: HealthStatus, now: int, interval: int)
    requires Counting(s)
    ensures var r := ObserveHealth(s, status, now, interval);
            && (r.1 == Firing <==>
                  && status == Unhealthy && s.count < 3 && Free(s, now)
                  && (ToldAt(s).Some? ==> now - ToldAt(s).value >= 1_800_000_000_000 && !ToldUnhealthy(s)))
            && (r.1 == Resolved <==> status == Healthy && ToldUnhealthy(s) && Free(s, now))
            && Counting(r.0) && r.0.retryAfter == (if r.1 == Quiet then s.retryAfter else Some(now + 60_000_000_000))
  {}

  /** The budget of three is renewed exactly by half an hour of healthy
      observations none of which came more than two intervals after the one before. */
  lemma HealthBudgetIff(s: Incident, status: HealthStatus, now: int, interval: int)
    requires Counting(s)
    ensures ObserveHealth(s, status, now, interval).0.count
         == if && status == Healthy && s.normalSince.Some? && now - s.normalSince.value >= 1_800_000_000_000
               && !(interval > 0 && s.lastObservedAt.Some? && now - s.lastObservedAt.value > 2 * interval)
            then 0 else s.count
  {}

  /** Where the healthy run started. */
  lemma HealthRunStarts(s: Incident, status: HealthStatus, now: int, interval: int)
    ensures ObserveHealth(s, status, now, interval).0.normalSince
         == if status != Healthy then None
            else if && s.normalSince.Some?
                    && !(interval > 0 && s.lastObservedAt.Some? && now - s.lastObservedAt.value > 2 * interval)
            then s.normalSince else Some(now)
  {}

  /** An upstream that was told unhealthy before there were records: it is not
      told again, its recovery is told at once, and a relapse only half an hour
      after the seed. */
  lemma SeededIncident(t0: int, t1: int, t2: int, interval: int)
    requires t0 <= t1 <= t2
    ensures ObserveHealth(Seed(true, t0), Unhealthy, t1, interval).1 == Quiet
    ensures ObserveHealth(Seed(true, t0), Healthy, t1, interval).1 == Resolved
    ensures var told := AcceptedSpec(ObserveHealth(Seed(true, t0), Healthy, t1, interval).0, t1, Resolved);
            ObserveHealth(told, Unhealthy, t2, interval).1 == if t2 - t0 >= 1_800_000_000_000 then Firing else Quiet
  {
    HealthNoticeIff(Seed(true, t0), Unhealthy, t1, interval);
    HealthNoticeIff(Seed(true, t0), Healthy, t1, interval);
    HealthBudgetIff(Seed(true, t0), Healthy, t1, interval);
    var told := AcceptedSpec(ObserveHealth(Seed(true, t0), Healthy, t1, interval).0, t1, Resolved);
    HealthNoticeIff(told, Unhealthy, t2, interval);
  }
}
