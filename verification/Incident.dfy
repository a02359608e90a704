/** Alert incidents: internal/ops/incident.go and the engine step of
    internal/alerts/engine.go that drives it.

    `IncidentState` is the program's object. `Handle` is one whole engine step
    (observe, notify, accept or fail) on values. The module IncidentHistory
    restates everything the machine does in terms of the history of
    observations alone. Times and durations are nanoseconds. */
module Incident {
  import opened Options

  const MINUTE := 60_000_000_000
  const SECOND := 1_000_000_000

  datatype Policy = Policy(
    firing: int, recovery: int, cooldown: int, stableFor: int, maxGap: int,
    maxNotifications: int, repeat: bool)

  datatype Observation = Observation(at: int, active: bool, ignore: bool, hold: bool)

  datatype Notice = Quiet | Firing | Resolved

  datatype Incident = Incident(
    active: bool, lastObservedAt: Option<int>, lastNotifiedAt: Option<int>, count: int,
    activeSince: Option<int>, notifiedActive: Option<bool>, lastFiringAt: Option<int>,
    normalSince: Option<int>, retryAfter: Option<int>, firingStreak: int, recoveryStreak: int)

  const FRESH := Incident(false, None, None, 0, None, None, None, None, None, 0, 0)

  predicate Clean(o: Observation) { !o.ignore && !o.hold }
  predicate CleanActive(o: Observation) { Clean(o) && o.active }
  predicate CleanNormal(o: Observation) { Clean(o) && !o.active }

  predicate GapTooLong(p: Policy, from: int, to: int) { p.maxGap > 0 && to - from > p.maxGap }

  // ------------------------------------------------ the machine on values

  function WithoutStreaks(s: Incident): Incident {
    s.(firingStreak := 0, recoveryStreak := 0, normalSince := None)
  }

  /** Bookkeeping before the observation counts: legacy states learn what was
      last notified, and a gap in the evidence breaks both streaks. */
  function Begin(s: Incident, at: int, p: Policy): Incident {
    var a :=
      if s.notifiedActive.Some? then s
      else s.(notifiedActive := Some(s.active),
              lastFiringAt := if s.active then s.lastNotifiedAt else s.lastFiringAt);
    var b :=
      if s.lastObservedAt.Some? && GapTooLong(p, s.lastObservedAt.value, at) then WithoutStreaks(a) else a;
    b.(lastObservedAt := Some(at))
  }

  function SeeActive(s: Incident, at: int, p: Policy): Incident {
    var streak := if s.firingStreak < p.firing then s.firingStreak + 1 else s.firingStreak;
    var t := s.(recoveryStreak := 0, normalSince := None, firingStreak := streak);
    if streak < p.firing then t
    else t.(active := true, activeSince := if s.active then s.activeSince else Some(at))
  }

  function SeeNormal(s: Incident, at: int, p: Policy): Incident {
    var streak := if s.recoveryStreak < p.recovery then s.recoveryStreak + 1 else s.recoveryStreak;
    var since := s.normalSince.GetOr(at);
    var active := s.active && streak < p.recovery;
    var t := s.(firingStreak := 0, recoveryStreak := streak, normalSince := Some(since), active := active);
    if active || at - since < p.stableFor then t
    else t.(count := 0, lastFiringAt := if p.stableFor == 0 then None else s.lastFiringAt)
  }

  function Decide(s: Incident, o: Observation, p: Policy): Notice
    requires s.notifiedActive.Some?
  {
    if s.retryAfter.Some? && o.at < s.retryAfter.value then Quiet
    else if !o.active then
      if !s.active && s.notifiedActive.value then Resolved else Quiet
    else if !s.active || (p.maxNotifications > 0 && s.count >= p.maxNotifications) then Quiet
    else if s.lastFiringAt.Some?
            && (o.at - s.lastFiringAt.value < p.cooldown || (s.notifiedActive.value && !p.repeat)) then Quiet
    else Firing
  }

  function Observed(s: Incident, o: Observation, p: Policy): (t: Incident)
    ensures t.notifiedActive.Some?
  {
    var b := Begin(s, o.at, p);
    if !Clean(o) then WithoutStreaks(b)
    else if o.active then SeeActive(b, o.at, p)
    else SeeNormal(b, o.at, p)
  }

  function NoticeOf(s: Incident, o: Observation, p: Policy): Notice {
    if Clean(o) then Decide(Observed(s, o, p), o, p) else Quiet
  }

  function AcceptedSpec(s: Incident, at: int, notice: Notice): Incident {
    var firing := notice == Firing;
    s.(notifiedActive := Some(firing), retryAfter := None, lastNotifiedAt := Some(at),
       lastFiringAt := if firing then Some(at) else s.lastFiringAt,
       count := if firing then s.count + 1 else s.count)
  }

  function Backoff(cooldown: int): int { if cooldown < MINUTE then MINUTE else cooldown }

  function EnqueueFailedSpec(s: Incident, at: int, cooldown: int): Incident {
    s.(retryAfter := Some(at + Backoff(cooldown)))
  }

  /** One engine step: `delivered` says whether the outbox accepted the notice. */
  datatype Step = Step(o: Observation, delivered: bool)

  function Handle(s: Incident, step: Step, p: Policy): Incident {
    var t := Observed(s, step.o, p);
    var notice := NoticeOf(s, step.o, p);
    if notice == Quiet then t
    else if step.delivered then AcceptedSpec(t, step.o.at, notice)
    else EnqueueFailedSpec(t, step.o.at, p.cooldown)
  }

  function Run(p: Policy, h: seq<Step>): Incident {
    if h == [] then FRESH else Handle(Run(p, h[..|h| - 1]), h[|h| - 1], p)
  }

  // ------------------------------------------------ the program's object

  class IncidentState {
    var active: bool
    var lastObservedAt: Option<int>
    var lastNotifiedAt: Option<int>
    var count: int
    var activeSince: Option<int>
    var notifiedActive: Option<bool>
    var lastFiringAt: Option<int>
    var normalSince: Option<int>
    var retryAfter: Option<int>
    var firingStreak: int
    var recoveryStreak: int

    function View(): Incident
      reads this
    {
      Incident(active, lastObservedAt, lastNotifiedAt, count, activeSince, notifiedActive,
               lastFiringAt, normalSince, retryAfter, firingStreak, recoveryStreak)
    }

    constructor (s: Incident)
      ensures View() == s
    {
      active, lastObservedAt, lastNotifiedAt, count := s.active, s.lastObservedAt, s.lastNotifiedAt, s.count;
      activeSince, notifiedActive, lastFiringAt := s.activeSince, s.notifiedActive, s.lastFiringAt;
      normalSince, retryAfter := s.normalSince, s.retryAfter;
      firingStreak, recoveryStreak := s.firingStreak, s.recoveryStreak;
    }

    // The source's Observe is one body; its four phases are named here.
    method Observe(now: int, active: bool, ignore: bool, hold: bool, p: Policy) returns (notice: Notice)
      modifies this
      ensures View() == Observed(old(View()), Observation(now, active, ignore, hold), p)
      ensures notice == NoticeOf(old(View()), Observation(now, active, ignore, hold), p)
    {
      BeginObservation(now, p);
      if ignore || hold {
        firingStreak, recoveryStreak, normalSince := 0, 0, None;
        return Quiet;
      }
      if active {
        RecordActive(now, p);
      } else {
        RecordNormal(now, p);
      }
      notice := Decision(now, active, p);
    }

    method BeginObservation(now: int, p: Policy)
      modifies this
      ensures View() == Begin(old(View()), now, p)
    {
      if notifiedActive.None? {
        notifiedActive := Some(active);
        if active {
          lastFiringAt := lastNotifiedAt;
        }
      }
      if p.maxGap > 0 && lastObservedAt.Some? && now - lastObservedAt.value > p.maxGap {
        firingStreak, recoveryStreak, normalSince := 0, 0, None;
      }
      lastObservedAt := Some(now);
    }

    method RecordActive(now: int, p: Policy)
      modifies this
      ensures View() == SeeActive(old(View()), now, p)
    {
      recoveryStreak, normalSince := 0, None;
      if firingStreak < p.firing {
        firingStreak := firingStreak + 1;
      }
      if firingStreak >= p.firing {
        if !active {
          activeSince := Some(now);
        }
        active := true;
      }
    }

    method RecordNormal(now: int, p: Policy)
      modifies this
      ensures View() == SeeNormal(old(View()), now, p)
    {
      firingStreak := 0;
      if normalSince.None? {
        normalSince := Some(now);
      }
      if recoveryStreak < p.recovery {
        recoveryStreak := recoveryStreak + 1;
      }
      if recoveryStreak >= p.recovery {
        active := false;
      }
      if !active && now - normalSince.value >= p.stableFor {
        count := 0;
        if p.stableFor == 0 {
          lastFiringAt := None;
        }
      }
    }

    // The last part of Observe: what to enqueue, given the updated state.
    method Decision(now: int, active: bool, p: Policy) returns (notice: Notice)
      requires notifiedActive.Some?
      ensures notice == Decide(View(), Observation(now, active, false, false), p)
    {
      if retryAfter.Some? && now < retryAfter.value {
        return Quiet;
      }
      if !this.active && !active && notifiedActive.value {
        return Resolved;
      }
      if !this.active || !active || (p.maxNotifications > 0 && count >= p.maxNotifications) {
        return Quiet;
      }
      if lastFiringAt.Some? && (now - lastFiringAt.value < p.cooldown || (notifiedActive.value && !p.repeat)) {
        return Quiet;
      }
      return Firing;
    }

    method Accepted(now: int, notice: Notice)
      modifies this
      ensures View() == AcceptedSpec(old(View()), now, notice)
    {
      var firing := notice == Firing;
      notifiedActive := Some(firing);
      retryAfter := None;
      lastNotifiedAt := Some(now);
      if firing {
        lastFiringAt := Some(now);
        count := count + 1;
      }
    }

    method EnqueueFailed(now: int, cooldown: int)
      modifies this
      ensures View() == EnqueueFailedSpec(old(View()), now, cooldown)
    {
      var delay := cooldown;
      if delay < MINUTE {
        delay := MINUTE;
      }
      retryAfter := Some(now + delay);
    }
  }

  // ------------------------------------------------------------ the engine

  datatype AlertEvent =
    | LowBalance | BalanceUnavailable | ErrorRate | Latency | ClientErrorRate | LoginFailure | NewLoginIP

  datatype Rule = Rule(id: int, event: AlertEvent, cooldown: int, maxNotifications: int)

  predicate UpstreamAlert(event: AlertEvent, upstreamID: int) {
    upstreamID > 0 || event in {LowBalance, BalanceUnavailable, ErrorRate, Latency}
  }

  function PolicyFor(rule: Rule, upstreamID: int): Policy {
    var confirmed := rule.event == ErrorRate || rule.event == Latency;
    var stable := UpstreamAlert(rule.event, upstreamID);
    Policy(if confirmed then 2 else 1, if confirmed then 3 else 1, rule.cooldown,
           if stable then 30 * MINUTE else 0, if stable then 90 * SECOND else 0,
           rule.maxNotifications, rule.cooldown > 0)
  }

  /** What the engine makes of one observation of a rule. */
  function EngineStep(rule: Rule, upstreamID: int, s: Incident, step: Step): Incident {
    Handle(s, step, PolicyFor(rule, upstreamID))
  }

  function EngineNotice(rule: Rule, upstreamID: int, s: Incident, o: Observation): Notice {
    NoticeOf(s, o, PolicyFor(rule, upstreamID))
  }

  datatype StateKey = StateKey(rule: int, observation: string)

  datatype HandleError = EmptyKey | NotifyFailed

  /** The engine with its repository of incident states. */
  class Engine {
    var states: map<StateKey, Incident>

    constructor ()
      ensures states == map[]
    {
      states := map[];
    }

    method HandleObservation(rule: Rule, key: string, upstreamID: int, o: Observation, enqueueSucceeds: bool)
      returns (notice: Notice, err: Option<HandleError>)
      modifies this
      ensures key == "" ==> states == old(states) && err == Some(EmptyKey) && notice == Quiet
      ensures key != "" ==>
        var k := StateKey(rule.id, key);
        var before := if k in old(states) then old(states)[k] else FRESH;
        && states == old(states)[k := EngineStep(rule, upstreamID, before, Step(o, enqueueSucceeds))]
        && notice == EngineNotice(rule, upstreamID, before, o)
        && err == (if notice != Quiet && !enqueueSucceeds then Some(NotifyFailed) else None)
    {
      if key == "" {
        return Quiet, Some(EmptyKey);
      }
      var k := StateKey(rule.id, key);
      var state := new IncidentState(if k in states then states[k] else FRESH);
      var policy := PolicyFor(rule, upstreamID);
      notice := state.Observe(o.at, o.active, o.ignore, o.hold, policy);
      assert o == Observation(o.at, o.active, o.ignore, o.hold);
      err := None;
      if notice != Quiet {
        if enqueueSucceeds {
          state.Accepted(o.at, notice);
        } else {
          state.EnqueueFailed(o.at, rule.cooldown);
          err := Some(NotifyFailed);
        }
      }
      states := states[k := state.View()];
    }
  }
}
