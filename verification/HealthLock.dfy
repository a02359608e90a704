/** The per-upstream health lock of internal/gateway/handler.go: a state object
    is made on demand, reference-counted, and removed from the map before its
    semaphore is drained. References to state objects are numbers here, and
    `objects` is the heap they point into.

    `HealthLocks` holds the critical sections under healthMu; the protocol
    below interleaves any number of goroutines around them. */
module HealthLock {
  import opened Options

  type StateRef = nat

  datatype HealthState = HealthState(upstream: int, references: int, pendingFailure: bool, full: bool)

  datatype Table = Table(health: map<int, StateRef>, objects: map<StateRef, HealthState>, next: StateRef)

  /** The state a caller gets for an upstream: the mapped one or a new one. */
  function StateFor(t: Table, upstream: int): StateRef {
    if upstream in t.health then t.health[upstream] else t.next
  }

  function Reference(t: Table, upstream: int): Table {
    if upstream in t.health && t.health[upstream] in t.objects then
      var s := t.health[upstream];
      t.(objects := t.objects[s := t.objects[s].(references := t.objects[s].references + 1)])
    else
      Table(t.health[upstream := t.next], t.objects[t.next := HealthState(upstream, 1, false, false)], t.next + 1)
  }

  function ReleaseSpec(t: Table, upstream: int, s: StateRef): Table
    requires s in t.objects
  {
    var left := t.objects[s].references - 1;
    t.(objects := t.objects[s := t.objects[s].(references := left)],
       health := if left == 0 && !t.objects[s].pendingFailure && upstream in t.health && t.health[upstream] == s
                 then t.health - {upstream} else t.health)
  }

  class HealthLocks {
    var health: map<int, StateRef>
    var objects: map<StateRef, HealthState>
    var next: StateRef

    function View(): Table
      reads this
    {
      Table(health, objects, next)
    }

    /** The first section of lockUpstreamHealth. */
    method Enqueue(upstream: int) returns (s: StateRef)
      requires forall u | u in health :: health[u] in objects
      modifies this
      ensures View() == Reference(old(View()), upstream) && s == StateFor(old(View()), upstream)
      ensures s in objects && health[upstream] == s
    {
      if upstream !in health {
        s := next;
        next := next + 1;
        objects := objects[s := HealthState(upstream, 0, false, false)];
        health := health[upstream := s];
      }
      s := health[upstream];
      objects := objects[s := objects[s].(references := objects[s].references + 1)];
    }

    /** releaseUpstreamHealth. */
    method ReleaseUpstreamHealth(upstream: int, s: StateRef)
      requires s in objects
      modifies this`health, this`objects
      ensures View() == ReleaseSpec(old(View()), upstream, s)
    {
      objects := objects[s := objects[s].(references := objects[s].references - 1)];
      if objects[s].references == 0 && !objects[s].pendingFailure && upstream in health && health[upstream] == s {
        health := health - {upstream};
      }
    }
  }

  // ---------------------------------------------------------- goroutines

  /** Where a goroutine is between locking and the end of unlocking. */
  datatype Stage =
    | Queued                      // waits for the semaphore
    | Entered                     // has the semaphore, has not looked at its context
    | Critical                    // lockUpstreamHealth has returned the state
    | Written(failure: bool)      // the health write succeeded, the flag is not set yet
    | Unlocking                   // about to give its reference back
    | Draining                    // gave it back, has not drained the semaphore

  datatype Task = Task(upstream: int, state: StateRef, stage: Stage)

  /** `lastWrite` says of each upstream whether its last successful health write
      was a failure. */
  datatype System = System(table: Table, tasks: map<nat, Task>, lastWrite: map<int, bool>)

  datatype Action =
    | Lock(g: nat, upstream: int)
    | Take(g: nat)
    | Expire(g: nat)                 // the context ended while queued
    | Refuse(g: nat)                 // the context ended by the time the semaphore was taken
    | Enter(g: nat)
    | Write(g: nat, failure: bool)   // a health write that succeeds
    | NoWrite(g: nat)                // skipped, failed, or for an outdated configuration
    | SetFlag(g: nat)
    | Release(g: nat)
    | Drain(g: nat)

  predicate At(s: System, g: nat, stage: Stage) { g in s.tasks && s.tasks[g].stage == stage }

  predicate Enabled(s: System, a: Action) {
    match a
    case Lock(g, _) => g !in s.tasks
    case Take(g) => At(s, g, Queued) && s.tasks[g].state in s.table.objects && !s.table.objects[s.tasks[g].state].full
    case Expire(g) => At(s, g, Queued)
    case Refuse(g) => At(s, g, Entered)
    case Enter(g) => At(s, g, Entered)
    case Write(g, _) => At(s, g, Critical)
    case NoWrite(g) => At(s, g, Critical)
    case SetFlag(g) => g in s.tasks && s.tasks[g].stage.Written?
    case Release(g) => At(s, g, Unlocking)
    case Drain(g) => At(s, g, Draining)
  }

  function WithObject(t: Table, s: StateRef, h: HealthState): Table { t.(objects := t.objects[s := h]) }

  function Act(s: System, a: Action): System
    requires Enabled(s, a) && forall g | g in s.tasks :: s.tasks[g].state in s.table.objects
  {
    if a.Lock? then
      s.(table := Reference(s.table, a.upstream),
         tasks := s.tasks[a.g := Task(a.upstream, StateFor(s.table, a.upstream), Queued)])
    else
      var task := s.tasks[a.g];
      var h := s.table.objects[task.state];
      match a
      case Take(g) =>
        s.(table := WithObject(s.table, task.state, h.(full := true)), tasks := s.tasks[g := task.(stage := Entered)])
      case Expire(g) => s.(table := ReleaseSpec(s.table, task.upstream, task.state), tasks := s.tasks - {g})
      case Refuse(g) => s.(tasks := s.tasks[g := task.(stage := Unlocking)])
      case Enter(g) => s.(tasks := s.tasks[g := task.(stage := Critical)])
      case Write(g, failure) =>
        s.(tasks := s.tasks[g := task.(stage := Written(failure))], lastWrite := s.lastWrite[task.upstream := failure])
      case NoWrite(g) => s.(tasks := s.tasks[g := task.(stage := Unlocking)])
      case SetFlag(g) =>
        s.(table := WithObject(s.table, task.state, h.(pendingFailure := task.stage.failure)),
           tasks := s.tasks[g := task.(stage := Unlocking)])
      case Release(g) =>
        s.(table := ReleaseSpec(s.table, task.upstream, task.state), tasks := s.tasks[g := task.(stage := Draining)])
      case Drain(g) =>
        s.(table := WithObject(s.table, task.state, h.(full := false)), tasks := s.tasks - {g})
  }

  const BEGIN := System(Table(map[], map[], 0), map[], map[])

  // ----------------------------------------------------------- invariant

  predicate Refers(t: Task) { !t.stage.Draining? }
  predicate Holds(t: Task) { !t.stage.Queued? }

  /** Holding the semaphore and the right to read and write the flag. */
  predicate InSection(t: Task) { Refers(t) && Holds(t) }

  function Referrers(s: System, x: StateRef): set<nat> {
    set g | g in s.tasks && Refers(s.tasks[g]) && s.tasks[g].state == x
  }

  /** Every object is made for one upstream; every reference is to the mapped object. */
  ghost predicate MapInv(s: System) {
    && (forall x | x in s.table.objects :: x < s.table.next)
    && (forall u | u in s.table.health :: s.table.health[u] in s.table.objects
                                          && s.table.objects[s.table.health[u]].upstream == u)
    && (forall g | g in s.tasks :: s.tasks[g].state in s.table.objects
                                   && s.table.objects[s.tasks[g].state].upstream == s.tasks[g].upstream)
    && (forall g | g in s.tasks && Refers(s.tasks[g]) ::
          s.tasks[g].upstream in s.table.health && s.table.health[s.tasks[g].upstream] == s.tasks[g].state)
  }

  ghost predicate CountInv(s: System) {
    forall x | x in s.table.objects :: s.table.objects[x].references == |Referrers(s, x)|
  }

  ghost predicate SemaphoreInv(s: System) {
    && (forall g | g in s.tasks && Holds(s.tasks[g]) && s.tasks[g].state in s.table.objects ::
          s.table.objects[s.tasks[g].state].full)
    && (forall g, k | g in s.tasks && k in s.tasks && Holds(s.tasks[g]) && Holds(s.tasks[k])
                      && s.tasks[g].state == s.tasks[k].state :: g == k)
  }

  /** The map's flag for an upstream; absent means false. */
  predicate Pending(s: System, u: int) {
    u in s.table.health && s.table.health[u] in s.table.objects && s.table.objects[s.table.health[u]].pendingFailure
  }

  predicate LastFailed(s: System, u: int) { u in s.lastWrite && s.lastWrite[u] }

  ghost predicate BetweenWriteAndFlag(s: System, u: int) {
    exists g :: g in s.tasks && s.tasks[g].upstream == u && s.tasks[g].stage.Written?
  }

  ghost predicate FlagInv(s: System) {
    && (forall u: int | !BetweenWriteAndFlag(s, u) :: Pending(s, u) == LastFailed(s, u))
    && (forall g | g in s.tasks && s.tasks[g].stage.Written? ::
          s.tasks[g].upstream in s.lastWrite && s.lastWrite[s.tasks[g].upstream] == s.tasks[g].stage.failure)
  }

  ghost predicate Inv(s: System) { MapInv(s) && CountInv(s) && SemaphoreInv(s) && FlagInv(s) }

  // Only the tasks of one upstream's mapped object are in its section, one at a time.
  lemma SectionIsExclusive(s: System, g: nat, k: nat)
    requires MapInv(s) && SemaphoreInv(s) && g in s.tasks && k in s.tasks
    requires InSection(s.tasks[g]) && InSection(s.tasks[k]) && s.tasks[g].upstream == s.tasks[k].upstream
    ensures g == k
  {
  }

  // -- reference counts

  lemma SameReferrers(s: System, t: System, x: StateRef)
    requires forall g: nat :: (g in t.tasks && Refers(t.tasks[g]) && t.tasks[g].state == x)
                         <==> (g in s.tasks && Refers(s.tasks[g]) && s.tasks[g].state == x)
    ensures Referrers(t, x) == Referrers(s, x)
  {
  }

  lemma CountsAfterMove(s: System, t: System, g: nat, task: Task)
    requires CountInv(s) && g in s.tasks && t.tasks == s.tasks[g := task]
    requires task.state == s.tasks[g].state && Refers(task) == Refers(s.tasks[g])
    requires t.table.objects.Keys == s.table.objects.Keys
    requires forall x | x in s.table.objects :: t.table.objects[x].references == s.table.objects[x].references
    ensures CountInv(t)
  {
    forall x | x in t.table.objects ensures t.table.objects[x].references == |Referrers(t, x)| {
      SameReferrers(s, t, x);
    }
  }

  lemma CountsAfterRelease(s: System, t: System, g: nat)
    requires CountInv(s) && g in s.tasks && Refers(s.tasks[g]) && s.tasks[g].state in s.table.objects
    requires t.table.objects.Keys == s.table.objects.Keys
    requires forall x | x in s.table.objects :: t.table.objects[x].references
               == s.table.objects[x].references - if x == s.tasks[g].state then 1 else 0
    requires t.tasks == s.tasks - {g} || t.tasks == s.tasks[g := s.tasks[g].(stage := Draining)]
    ensures CountInv(t)
    ensures t.table.objects[s.tasks[g].state].references == 0 ==> Referrers(t, s.tasks[g].state) == {}
  {
    forall x | x in t.table.objects ensures t.table.objects[x].references == |Referrers(t, x)| {
      if x == s.tasks[g].state {
        assert Referrers(t, x) == Referrers(s, x) - {g};
      } else {
        SameReferrers(s, t, x);
      }
    }
  }

  // A new referrer of `x`, and of no other state.
  lemma CountsAfterJoin(s: System, t: System, g: nat, task: Task)
    requires CountInv(s) && g !in s.tasks && t.tasks == s.tasks[g := task] && Refers(task)
    requires task.state in t.table.objects
    requires t.table.objects[task.state].references == 1 + |Referrers(s, task.state)|
    requires forall x | x in t.table.objects && x != task.state ::
               x in s.table.objects && t.table.objects[x].references == s.table.objects[x].references
    ensures CountInv(t)
  {
    forall x | x in t.table.objects ensures t.table.objects[x].references == |Referrers(t, x)| {
      if x == task.state {
        assert Referrers(t, x) == Referrers(s, x) + {g};
      } else {
        SameReferrers(s, t, x);
      }
    }
  }

  lemma CountsAfterLock(s: System, a: Action)
    requires a.Lock? && Enabled(s, a) && MapInv(s) && CountInv(s)
    ensures CountInv(Act(s, a))
  {
    var t := Act(s, a);
    var task := t.tasks[a.g];
    if a.upstream !in s.table.health {
      assert Referrers(s, s.table.next) == {};
    }
    CountsAfterJoin(s, t, a.g, task);
  }

  // -- each part of the invariant, action by action

  lemma ActKeepsCounts(s: System, a: Action)
    requires Enabled(s, a) && MapInv(s) && CountInv(s)
    ensures CountInv(Act(s, a))
    ensures a.Expire? || a.Release? ==>
              var x := s.tasks[a.g].state;
              x in Act(s, a).table.objects
              && (Act(s, a).table.objects[x].references == 0 ==> Referrers(Act(s, a), x) == {})
  {
    var t := Act(s, a);
    match a
    case Lock(g, u) => CountsAfterLock(s, a);
    case Expire(g) => CountsAfterRelease(s, t, g);
    case Release(g) => CountsAfterRelease(s, t, g);
    case Drain(g) => CountsAfterDrain(s, t, g);
    case _ => CountsAfterMove(s, t, a.g, t.tasks[a.g]);
  }

  lemma CountsAfterDrain(s: System, t: System, g: nat)
    requires CountInv(s) && At(s, g, Draining) && t.tasks == s.tasks - {g}
    requires t.table.objects.Keys == s.table.objects.Keys
    requires forall x | x in s.table.objects :: t.table.objects[x].references == s.table.objects[x].references
    ensures CountInv(t)
  {
    forall x | x in t.table.objects ensures t.table.objects[x].references == |Referrers(t, x)| {
      SameReferrers(s, t, x);
    }
  }

  lemma ActKeepsMap(s: System, a: Action)
    requires Enabled(s, a) && MapInv(s) && CountInv(s)
    ensures MapInv(Act(s, a))
  {
    var t := Act(s, a);
    if a.Lock? {
      LockKeepsMap(s, a);
    } else if a.Expire? || a.Release? {
      ActKeepsCounts(s, a);
      NoReferrerLeft(s, t, a.g);
    } else {
      MapAfterMove(s, t, a.g);
    }
  }

  // A goroutine moves on, or ends, without taking a reference.
  lemma MapAfterMove(s: System, t: System, g: nat)
    requires MapInv(s) && g in s.tasks
    requires t.table.health == s.table.health && t.table.next == s.table.next
    requires t.table.objects.Keys == s.table.objects.Keys
    requires forall x | x in s.table.objects :: t.table.objects[x].upstream == s.table.objects[x].upstream
    requires t.tasks == s.tasks - {g}
             || exists stage :: t.tasks == s.tasks[g := s.tasks[g].(stage := stage)]
                   && (stage.Draining? || Refers(s.tasks[g]))
    ensures MapInv(t)
  {
  }

  lemma LockKeepsMap(s: System, a: Action)
    requires a.Lock? && Enabled(s, a) && MapInv(s)
    ensures MapInv(Act(s, a))
  {
  }

  // A state leaves the map only when nobody refers to it.
  lemma NoReferrerLeft(s: System, t: System, g: nat)
    requires MapInv(s) && g in s.tasks && Refers(s.tasks[g])
    requires t.table == ReleaseSpec(s.table, s.tasks[g].upstream, s.tasks[g].state)
    requires t.tasks == s.tasks - {g} || t.tasks == s.tasks[g := s.tasks[g].(stage := Draining)]
    requires t.table.objects[s.tasks[g].state].references == 0 ==> Referrers(t, s.tasks[g].state) == {}
    ensures MapInv(t)
  {
    forall k | k in t.tasks && Refers(t.tasks[k])
      ensures t.tasks[k].upstream in t.table.health && t.table.health[t.tasks[k].upstream] == t.tasks[k].state
    {
      if t.tasks[k].state == s.tasks[g].state { assert k in Referrers(t, s.tasks[g].state); }
    }
  }

  lemma ActKeepsSemaphore(s: System, a: Action)
    requires Enabled(s, a) && MapInv(s) && SemaphoreInv(s)
    ensures SemaphoreInv(Act(s, a))
  {
  }

  lemma ActKeepsFlag(s: System, a: Action)
    requires Enabled(s, a) && Inv(s)
    ensures FlagInv(Act(s, a))
  {
    var t := Act(s, a);
    forall u: int | !BetweenWriteAndFlag(t, u) ensures Pending(t, u) == LastFailed(t, u) {
      FlagOf(s, a, u);
    }
    forall k | k in t.tasks && t.tasks[k].stage.Written?
      ensures t.tasks[k].upstream in t.lastWrite && t.lastWrite[t.tasks[k].upstream] == t.tasks[k].stage.failure
    {
      if a.Write? && k != a.g {
        assert InSection(s.tasks[k]) && InSection(s.tasks[a.g]);
        if s.tasks[k].upstream == s.tasks[a.g].upstream { SectionIsExclusive(s, k, a.g); }
      }
    }
  }

  lemma PendingMovesWithFlag(s: System, a: Action, u: int)
    requires Enabled(s, a) && MapInv(s)
    ensures Pending(Act(s, a), u) ==
            if a.SetFlag? && s.tasks[a.g].upstream == u then s.tasks[a.g].stage.failure else Pending(s, u)
  {
  }

  lemma FlagOf(s: System, a: Action, u: int)
    requires Enabled(s, a) && Inv(s) && !BetweenWriteAndFlag(Act(s, a), u)
    ensures Pending(Act(s, a), u) == LastFailed(Act(s, a), u)
  {
    var t := Act(s, a);
    PendingMovesWithFlag(s, a, u);
    if a.Write? {
      assert t.tasks[a.g].stage.Written?;
      assert u != s.tasks[a.g].upstream;
    }
    if !(a.SetFlag? && u == s.tasks[a.g].upstream) {
      if BetweenWriteAndFlag(s, u) { StillBetween(s, a, u); }
    }
  }

  lemma StillBetween(s: System, a: Action, u: int)
    requires Enabled(s, a) && MapInv(s) && BetweenWriteAndFlag(s, u)
    requires !(a.SetFlag? && u == s.tasks[a.g].upstream)
    ensures BetweenWriteAndFlag(Act(s, a), u)
  {
    var k :| k in s.tasks && s.tasks[k].upstream == u && s.tasks[k].stage.Written?;
    var t := Act(s, a);
    assert k in t.tasks && t.tasks[k].stage.Written? && t.tasks[k].upstream == u;
  }

  lemma ActKeepsInv(s: System, a: Action)
    requires Enabled(s, a) && Inv(s)
    ensures Inv(Act(s, a))
  {
    ActKeepsMap(s, a);
    ActKeepsCounts(s, a);
    ActKeepsSemaphore(s, a);
    ActKeepsFlag(s, a);
  }

  function Run(s: System, actions: seq<Action>): Option<System>
    decreases |actions|
  {
    if actions == [] then Some(s)
    else if Enabled(s, actions[0]) && (forall g | g in s.tasks :: s.tasks[g].state in s.table.objects) then
      Run(Act(s, actions[0]), actions[1..])
    else None
  }

  lemma {:induction false} RunKeepsInv(s: System, actions: seq<Action>)
    requires Inv(s) && Run(s, actions).Some?
    ensures Inv(Run(s, actions).value)
    decreases |actions|
  {
    if actions != [] {
      ActKeepsInv(s, actions[0]);
      RunKeepsInv(Act(s, actions[0]), actions[1..]);
    }
  }

  lemma {:induction false} Reachable(actions: seq<Action>)
    requires Run(BEGIN, actions).Some?
    ensures Inv(Run(BEGIN, actions).value)
  {
    assert forall u: int :: !Pending(BEGIN, u) && !LastFailed(BEGIN, u);
    RunKeepsInv(BEGIN, actions);
  }

  // ---------------------------------------------------------- reclamation

  /** A mapped state is in use or remembers a failure. */
  predicate InUse(h: HealthState) { h.references > 0 || h.pendingFailure }

  ghost predicate NoIdleStates(s: System) {
    forall u | u in s.table.health && s.table.health[u] in s.table.objects :: InUse(s.table.objects[s.table.health[u]])
  }

  // Whoever still refers to a state counts.
  lemma ReferrerCounts(s: System, g: nat)
    requires MapInv(s) && CountInv(s) && g in s.tasks && Refers(s.tasks[g])
    ensures s.table.objects[s.tasks[g].state].references > 0
  {
    assert g in Referrers(s, s.tasks[g].state);
  }

  lemma ActKeepsUse(s: System, a: Action)
    requires Enabled(s, a) && Inv(s) && NoIdleStates(s)
    ensures NoIdleStates(Act(s, a))
  {
    if a.SetFlag? { ReferrerCounts(s, a.g); }
    if a.Lock? { LockCounts(s, a); }
  }

  lemma LockCounts(s: System, a: Action)
    requires a.Lock? && Enabled(s, a) && MapInv(s) && CountInv(s) && NoIdleStates(s)
    ensures NoIdleStates(Act(s, a))
  {
    if a.upstream in s.table.health {
      assert s.table.objects[s.table.health[a.upstream]].references >= 0;
    }
  }

  lemma {:induction false} RunKeepsUse(s: System, actions: seq<Action>)
    requires Inv(s) && NoIdleStates(s) && Run(s, actions).Some?
    ensures NoIdleStates(Run(s, actions).value)
    decreases |actions|
  {
    if actions != [] {
      ActKeepsInv(s, actions[0]);
      ActKeepsUse(s, actions[0]);
      RunKeepsUse(Act(s, actions[0]), actions[1..]);
    }
  }

  /** Nothing idle stays behind: in every interleaving the map holds a state for an
      upstream only while some goroutine refers to it or its last write failed. */
  lemma IdleStatesAreReclaimed(actions: seq<Action>, u: int)
    requires Run(BEGIN, actions).Some? && u in Run(BEGIN, actions).value.table.health
    ensures var s := Run(BEGIN, actions).value;
            || (s.table.health[u] in s.table.objects && s.table.objects[s.table.health[u]].pendingFailure)
            || exists g :: g in s.tasks && Refers(s.tasks[g]) && s.tasks[g].upstream == u
  {
    Reachable(actions);
    assert forall v: int :: !Pending(BEGIN, v) && !LastFailed(BEGIN, v);
    RunKeepsUse(BEGIN, actions);
    var s := Run(BEGIN, actions).value;
    var x := s.table.health[u];
    if !s.table.objects[x].pendingFailure {
      assert |Referrers(s, x)| > 0;
      var g :| g in Referrers(s, x);
      assert s.tasks[g].upstream == u;
    }
  }

  // ----------------------------------------------------------- guarantees

  /** Mutual exclusion: in every interleaving at most one goroutine per upstream
      is between taking the semaphore and giving its reference back. */
  lemma MutualExclusion(actions: seq<Action>, g: nat, k: nat)
    requires Run(BEGIN, actions).Some?
    requires var s := Run(BEGIN, actions).value;
             && g in s.tasks && k in s.tasks && InSection(s.tasks[g]) && InSection(s.tasks[k])
             && s.tasks[g].upstream == s.tasks[k].upstream
    ensures g == k
  {
    Reachable(actions);
    SectionIsExclusive(Run(BEGIN, actions).value, g, k);
  }

  /** The flag tells the truth: outside the moment between a write and its flag,
      the map's pendingFailure, absent meaning false, is true exactly when the
      last successful health write of the upstream was a failure. */
  lemma FlagIsLastWrite(actions: seq<Action>, u: int)
    requires Run(BEGIN, actions).Some? && !BetweenWriteAndFlag(Run(BEGIN, actions).value, u)
    ensures Pending(Run(BEGIN, actions).value, u) <==> LastFailed(Run(BEGIN, actions).value, u)
  {
    Reachable(actions);
  }

  /** A success write is skipped only if no failure is outstanding: the flag a
      goroutine reads in its section is the last write's outcome. */
  lemma SkippedSuccessIsSafe(actions: seq<Action>, g: nat)
    requires Run(BEGIN, actions).Some? && At(Run(BEGIN, actions).value, g, Critical)
    ensures var s := Run(BEGIN, actions).value;
            s.tasks[g].state in s.table.objects
            && s.table.objects[s.tasks[g].state].pendingFailure == LastFailed(s, s.tasks[g].upstream)
  {
    Reachable(actions);
    var s := Run(BEGIN, actions).value;
    var u := s.tasks[g].upstream;
    if BetweenWriteAndFlag(s, u) {
      var k :| k in s.tasks && s.tasks[k].upstream == u && s.tasks[k].stage.Written?;
      SectionIsExclusive(s, g, k);
    }
  }

  /** Draining never blocks, also for a state that has left the map. */
  lemma DrainFindsItsToken(actions: seq<Action>, g: nat)
    requires Run(BEGIN, actions).Some? && At(Run(BEGIN, actions).value, g, Draining)
    ensures var s := Run(BEGIN, actions).value;
            s.tasks[g].state in s.table.objects && s.table.objects[s.tasks[g].state].full
  {
    Reachable(actions);
  }

  ghost predicate Retired(s: System, x: StateRef) {
    x < s.table.next && forall u | u in s.table.health :: s.table.health[u] != x
  }

  /** Reclamation: a state that has left the map has no references, and no later
      action of any goroutine ever refers to it or maps it again. */
  lemma {:induction false} RetiredForever(s: System, actions: seq<Action>, x: StateRef)
    requires Inv(s) && Retired(s, x) && Run(s, actions).Some?
    ensures Retired(Run(s, actions).value, x) && Referrers(Run(s, actions).value, x) == {}
    decreases |actions|
  {
    if actions == [] {
      assert forall g | g in s.tasks && Refers(s.tasks[g]) :: s.tasks[g].state != x;
    } else {
      ActKeepsInv(s, actions[0]);
      RetiredForever(Act(s, actions[0]), actions[1..], x);
    }
  }
}
