/** The delivery workers of internal/app/notifications.go on top of the outbox:
    claim, renew, deliver inside a 20 s context, settle. Any number of workers
    run at once; a token stands for one job in one worker's hands. */
module Delivery {
  import opened Options
  import opened Outbox

  const DELIVERY_TIMEOUT := 20
  const MAX_ATTEMPTS := 5

  function RetryDelay(attempts: int): int {
    if attempts <= 1 then 10 else if attempts == 2 then 60 else 300
  }

  /** How a worker settles a job after the delivery attempt. */
  function VerdictFor(failed: bool, attempts: int, now: int): Verdict {
    if !failed then Complete
    else if attempts >= MAX_ATTEMPTS then Dead
    else Fail(now + RetryDelay(attempts))
  }

  /** Where a worker is with one job. */
  datatype Phase =
    | Claimed(attempts: int)
    | Delivering(attempts: int, since: int, deadline: int)
    | Delivered(attempts: int, failed: bool)
    | Done

  /** A finished delivery: under which token, from renewal to return. */
  datatype Interval = Interval(token: Token, start: int, end: int)

  datatype System = System(world: World, phases: map<Token, Phase>, log: seq<Interval>)

  datatype Action =
    | External(op: Op)                             // producers, administrators, the clock
    | ClaimJobs(picked: set<nat>)
    | DropInvalid(token: Token)                    // the payload does not decode: complete it unsent
    | StartDelivery(token: Token, contextStart: int) // renew under the delivery context
    | EndDelivery(token: Token, failed: bool)
    | SettleJob(token: Token)

  ghost predicate Enabled(s: System, a: Action) {
    match a
    case External(op) =>
      // Claims and verdicts belong to workers; the clock waits for a delivery
      // that must return by its deadline.
      && (op.Enqueue? || op.RetryDead? || op.SetChannel? || op.DeleteChannel? || op.Tick?)
      && (op.Tick? ==> forall t | t in s.phases && s.phases[t].Delivering? ::
                         s.world.db.clock + op.seconds <= s.phases[t].deadline)
    case ClaimJobs(_) => true
    case DropInvalid(t) => t in s.phases && s.phases[t].Claimed?
    case StartDelivery(t, start) =>
      t in s.phases && s.phases[t].Claimed? && start <= s.world.db.clock <= start + DELIVERY_TIMEOUT
    case EndDelivery(t, _) => t in s.phases && s.phases[t].Delivering?
    case SettleJob(t) => t in s.phases && s.phases[t].Delivered?
  }

  /** The SQL statement an action executes; ending a delivery executes none. */
  function StatementOf(s: System, a: Action): Option<Op>
    requires Enabled(s, a)
  {
    match a
    case External(op) => Some(op)
    case ClaimJobs(picked) => Some(Claim(picked))
    case DropInvalid(t) => Some(Settle(t, Complete))
    case StartDelivery(t, _) => Some(Renew(t))
    case EndDelivery(_, _) => None
    case SettleJob(t) => Some(Settle(t, VerdictFor(s.phases[t].failed, s.phases[t].attempts, s.world.db.clock)))
  }

  function PhasesAfter(s: System, a: Action): map<Token, Phase>
    requires Enabled(s, a)
  {
    match a
    case External(_) => s.phases
    case ClaimJobs(picked) =>
      s.phases + map t | t in TokensOf(s.world.db, picked) ::
        Claimed(if t.id in s.world.db.rows then s.world.db.rows[t.id].attempts + 1 else 0)
    case DropInvalid(t) => s.phases[t := Done]
    case StartDelivery(t, start) =>
      s.phases[t := if Owned(s.world.db, t)
                    then Delivering(s.phases[t].attempts, s.world.db.clock, start + DELIVERY_TIMEOUT) else Done]
    case EndDelivery(t, failed) => s.phases[t := Delivered(s.phases[t].attempts, failed)]
    case SettleJob(t) => s.phases[t := Done]
  }

  function Act(s: System, a: Action): System
    requires Enabled(s, a)
  {
    var op := StatementOf(s, a);
    System(if op.Some? then Step(s.world, op.value) else s.world,
           PhasesAfter(s, a),
           if a.EndDelivery? then s.log + [Interval(a.token, s.phases[a.token].since, s.world.db.clock)] else s.log)
  }

  const BEGIN := System(START, map[], [])

  ghost predicate Reaches(s: System, actions: seq<Action>, t: System)
    decreases |actions|
  {
    if actions == [] then s == t
    else Enabled(s, actions[0]) && Reaches(Act(s, actions[0]), actions[1..], t)
  }

  /** While a delivery runs its row is leased to it beyond the deadline. */
  ghost predicate Protected(s: System, t: Token)
    requires t in s.phases && s.phases[t].Delivering?
  {
    var ph, db := s.phases[t], s.world.db;
    && ph.since <= db.clock <= ph.deadline <= ph.since + DELIVERY_TIMEOUT
    && (t.id in db.rows ==>
          db.rows[t.id].version == t.version && db.rows[t.id].deadAt.None? && db.rows[t.id].nextAt == ph.since + 60)
  }

  ghost predicate InFlight(s: System, t: Token) { t in s.phases && s.phases[t].Delivering? }

  ghost predicate FlightInv(s: System) {
    && (forall t | InFlight(s, t) :: Protected(s, t))
    && (forall t, u | InFlight(s, t) && InFlight(s, u) && t.id == u.id :: t == u)
    && (forall t | t in s.phases :: t in s.world.issued)
  }

  /** Finished deliveries are over, short, and disjoint job by job. */
  ghost predicate LogOk(log: seq<Interval>, clock: int) {
    && (forall i | 0 <= i < |log| ::
          log[i].start <= log[i].end <= clock && log[i].end <= log[i].start + DELIVERY_TIMEOUT)
    && (forall i, j | 0 <= i < j < |log| && log[i].token.id == log[j].token.id :: log[i].end <= log[j].start)
  }

  /** What is logged for a job had ended before `start`. */
  ghost predicate EndedBefore(log: seq<Interval>, id: nat, start: int) {
    forall i | 0 <= i < |log| && log[i].token.id == id :: log[i].end <= start
  }

  ghost predicate LogInv(s: System) {
    && LogOk(s.log, s.world.db.clock)
    && forall t | InFlight(s, t) :: EndedBefore(s.log, t.id, s.phases[t].since)
  }

  ghost predicate SystemInv(s: System) { Inv(s.world) && FlightInv(s) && LogInv(s) }

  lemma WorldStep(w: World, op: Op)
    requires Inv(w)
    ensures Inv(Step(w, op))
    ensures op.Claim? ==> TokensOf(w.db, op.picked) !! w.issued
  {
    StepKeepsVersions(w, op);
    StepKeepsSettled(w, op);
    StepKeepsAccount(w, op);
  }

  // A statement other than this delivery's own verdict leaves its row alone.
  lemma StillProtected(s: System, op: Op, t: Token)
    requires Inv(s.world) && InFlight(s, t) && Protected(s, t) && t in s.world.issued
    requires op.Tick? ==> s.world.db.clock + op.seconds <= s.phases[t].deadline
    requires op.Settle? || op.Renew? ==> op.token != t && (op.token.id == t.id ==> !Owned(s.world.db, op.token))
    ensures Protected(s.(world := Step(s.world, op)), t)
  {
    ExecuteEffect(s.world.db, op);
    if op.Enqueue? {
      EnqueueKeepsRow(s.world.db, op, t.id);
    }
  }

  lemma EnqueueKeepsRow(db: Db, op: Op, id: nat)
    requires op.Enqueue? && id < db.nextId && forall i | i in db.rows :: i < db.nextId
    ensures var d := Execute(db, op);
            && (id in d.rows <==> id in db.rows) && (id in db.rows ==> d.rows[id] == db.rows[id])
            && d.clock == db.clock
  {
    InsertAllRows(db, op.channelIDs, op.payload, op.notBefore);
  }

  // One statement of the table, seen by every running delivery.
  lemma StatementKeepsFlights(s: System, op: Op)
    requires Inv(s.world) && FlightInv(s)
    requires op.Tick? ==> forall t | InFlight(s, t) :: s.world.db.clock + op.seconds <= s.phases[t].deadline
    requires op.Settle? || op.Renew? ==> !InFlight(s, op.token)
    ensures forall t | InFlight(s, t) :: Protected(s.(world := Step(s.world, op)), t)
    ensures s.world.db.clock <= Step(s.world, op).db.clock
  {
    ExecuteEffect(s.world.db, op);
    forall t | InFlight(s, t) ensures Protected(s.(world := Step(s.world, op)), t) {
      StillProtected(s, op, t);
    }
  }

  lemma ActKeepsWorld(s: System, a: Action)
    requires SystemInv(s) && Enabled(s, a)
    ensures Inv(Act(s, a).world) && s.world.db.clock <= Act(s, a).world.db.clock
    ensures s.world.issued <= Act(s, a).world.issued
  {
    var op := StatementOf(s, a);
    if op.Some? {
      WorldStep(s.world, op.value);
      ExecuteEffect(s.world.db, op.value);
    }
  }

  // Deliveries under way after an action were under way before, or just started.
  lemma NewFlights(s: System, a: Action, t: Token)
    requires SystemInv(s) && Enabled(s, a) && InFlight(Act(s, a), t)
    ensures a.StartDelivery? && a.token == t ==>
              Owned(s.world.db, t) && Act(s, a).phases[t].since == s.world.db.clock
    ensures !(a.StartDelivery? && a.token == t) ==> InFlight(s, t) && Act(s, a).phases[t] == s.phases[t]
    ensures a.EndDelivery? ==> t != a.token
  {
    if a.ClaimJobs? {
      WorldStep(s.world, Claim(a.picked));
    }
  }

  lemma ActKeepsFlights(s: System, a: Action)
    requires SystemInv(s) && Enabled(s, a)
    ensures FlightInv(Act(s, a))
  {
    var s' := Act(s, a);
    var op := StatementOf(s, a);
    ActKeepsWorld(s, a);
    if op.Some? { StatementKeepsFlights(s, op.value); }
    forall t | InFlight(s', t) ensures Protected(s', t) {
      NewFlights(s, a, t);
    }
    forall t, u | InFlight(s', t) && InFlight(s', u) && t.id == u.id ensures t == u {
      NewFlights(s, a, t);
      NewFlights(s, a, u);
    }
  }

  lemma LogGrows(log: seq<Interval>, clock: int, last: Interval)
    requires LogOk(log, clock) && last.start <= last.end <= clock && last.end <= last.start + DELIVERY_TIMEOUT
    requires EndedBefore(log, last.token.id, last.start)
    ensures LogOk(log + [last], clock)
  {}

  lemma LogLater(log: seq<Interval>, clock: int, later: int)
    requires LogOk(log, clock) && clock <= later
    ensures LogOk(log, later)
  {}

  lemma LogAfter(s: System, a: Action)
    requires Enabled(s, a)
    ensures a.EndDelivery? ==> Act(s, a).world == s.world
    ensures Act(s, a).log
         == s.log + if a.EndDelivery? then [Interval(a.token, s.phases[a.token].since, s.world.db.clock)] else []
  {}

  // A delivery that ends follows the job's earlier ones.
  lemma EndedInterval(s: System, t: Token)
    requires FlightInv(s) && LogInv(s) && InFlight(s, t)
    ensures var since, now := s.phases[t].since, s.world.db.clock;
            since <= now <= since + DELIVERY_TIMEOUT && EndedBefore(s.log, t.id, since)
  {
    assert Protected(s, t);
  }

  lemma ActKeepsIntervals(s: System, a: Action)
    requires SystemInv(s) && Enabled(s, a)
    ensures LogOk(Act(s, a).log, Act(s, a).world.db.clock)
  {
    LogAfter(s, a);
    if a.EndDelivery? {
      EndedInterval(s, a.token);
      LogGrows(s.log, s.world.db.clock, Interval(a.token, s.phases[a.token].since, s.world.db.clock));
    } else {
      ActKeepsWorld(s, a);
      LogLater(s.log, s.world.db.clock, Act(s, a).world.db.clock);
      assert s.log + [] == s.log;
    }
  }

  // A delivery under way started after the job's earlier ones had ended.
  lemma FlightsFollowLog(s: System, a: Action, t: Token)
    requires SystemInv(s) && Enabled(s, a) && InFlight(Act(s, a), t)
    ensures EndedBefore(Act(s, a).log, t.id, Act(s, a).phases[t].since)
  {
    NewFlights(s, a, t);
    if a.EndDelivery? { assert InFlight(s, a.token) && InFlight(s, t); }
  }

  lemma ActKeepsLog(s: System, a: Action)
    requires SystemInv(s) && Enabled(s, a)
    ensures LogInv(Act(s, a))
  {
    ActKeepsIntervals(s, a);
    forall t | InFlight(Act(s, a), t) ensures EndedBefore(Act(s, a).log, t.id, Act(s, a).phases[t].since) {
      FlightsFollowLog(s, a, t);
    }
  }

  lemma ActKeepsSystem(s: System, a: Action)
    requires SystemInv(s) && Enabled(s, a)
    ensures SystemInv(Act(s, a))
  {
    ActKeepsWorld(s, a);
    ActKeepsFlights(s, a);
    ActKeepsLog(s, a);
  }

  lemma {:induction false} ReachableInv(s: System, actions: seq<Action>, t: System)
    requires SystemInv(s) && Reaches(s, actions, t)
    ensures SystemInv(t)
    decreases |actions|
  {
    if actions != [] {
      ActKeepsSystem(s, actions[0]);
      ReachableInv(Act(s, actions[0]), actions[1..], t);
    }
  }

  // A worker renews and settles claimed jobs only.
  lemma ActKeepsClaims(s: System, a: Action)
    requires SystemInv(s) && Enabled(s, a) && ClaimInv(s.world)
    ensures ClaimInv(Act(s, a).world)
  {
    var op := StatementOf(s, a);
    if op.Some? { StepKeepsClaims(s.world, op.value); }
  }

  lemma {:induction false} ReachableClaims(s: System, actions: seq<Action>, t: System)
    requires SystemInv(s) && ClaimInv(s.world) && Reaches(s, actions, t)
    ensures ClaimInv(t.world)
    decreases |actions|
  {
    if actions != [] {
      ActKeepsSystem(s, actions[0]);
      ActKeepsClaims(s, actions[0]);
      ReachableClaims(Act(s, actions[0]), actions[1..], t);
    }
  }

  /** However the workers interleave, a job is completed under its newest claim. */
  lemma CompletedUnderNewestClaim(actions: seq<Action>, s: System, id: nat)
    requires Reaches(BEGIN, actions, s) && id in s.world.completed
    ensures exists t: Token :: t.id == id && LastClaim(s.world, t)
  {
    ReachableClaims(BEGIN, actions, s);
  }

  /** Disjoint deliveries: in every run of every number of workers, at most one
      delivery of a job is under way, and the delivery intervals of one job
      never overlap, whichever leases they ran under. */
  lemma DeliveriesAreDisjoint(actions: seq<Action>, s: System)
    requires Reaches(BEGIN, actions, s)
    ensures forall t, u | InFlight(s, t) && InFlight(s, u) && t.id == u.id :: t == u
    ensures forall i | 0 <= i < |s.log| :: s.log[i].start <= s.log[i].end <= s.log[i].start + 20
    ensures forall i, j | 0 <= i < j < |s.log| && s.log[i].token.id == s.log[j].token.id ::
              s.log[i].end <= s.log[j].start
    ensures forall i, t | 0 <= i < |s.log| && InFlight(s, t) && s.log[i].token.id == t.id ::
              s.log[i].end <= s.phases[t].since
  {
    ReachableInv(BEGIN, actions, s);
  }
}
