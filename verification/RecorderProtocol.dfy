/** The request-log recorder of internal/gateway/recorder.go as a concurrent
    protocol: request handlers submit records, one worker batches and flushes
    them, handlers whose submission is refused write synchronously within
    bounded slots, and Close and its context end it all. */
module RecorderProtocol {
  import Recorder

  const QUEUE_SIZE := 2048
  const BATCH_SIZE := 64
  const FALLBACK_SLOTS := 4
  const FALLBACK_WAITERS := 64

  datatype Phase<E> =
    | Running
    | Flushing(rest: multiset<E>, last: bool)  // records of the flush not yet decided
    | Dropping                                 // cancelled: counting what is left in the queue
    | Finished

  /** The queue with its worker. */
  datatype Worker<E> = Worker(queue: seq<E>, closed: bool, cancelled: bool, batch: seq<E>, phase: Phase<E>)

  /** Fallback goroutines by stage, told apart by their record only. */
  datatype Fallbacks<E> = Fallbacks(arrived: multiset<E>, waiting: multiset<E>, writing: multiset<E>)

  /** What handlers handed over, what the repository stored, and what the
      dropped counter counted. */
  datatype Ledger<E> = Ledger(submitted: multiset<E>, stored: multiset<E>, lost: multiset<E>)

  datatype System<E> = System(worker: Worker<E>, fallbacks: Fallbacks<E>, ledger: Ledger<E>)

  datatype WorkerAction<E> =
    | Receive
    | Tick
    | Drained                            // the closed queue is empty
    | Store(part: multiset<E>)           // one successful write of the flush under way
    | Drop(part: multiset<E>)            // one give-up of the flush under way
    | FlushEnds
    | Interrupt                          // the worker sees the cancelled context
    | DropQueued
    | DropEnds

  datatype FallbackAction<E> =
    | WaitForSlot(e: E)                  // take a wait slot or be rejected
    | TakeSlot(e: E)
    | GiveUp(e: E)                       // the wait timed out or the recorder was cancelled
    | Written(e: E, ok: bool)

  datatype Action<E> =
    | Submit(e: E)                       // accepted by the queue, or refused into the fallback
    | Close
    | Cancel
    | Work(w: WorkerAction<E>)
    | Fallback(f: FallbackAction<E>)

  predicate WorkEnabled<E(==)>(w: Worker<E>, a: WorkerAction<E>) {
    match a
    case Receive => w.phase.Running? && w.queue != []
    case Tick => w.phase.Running? && w.batch != []
    case Drained => w.phase.Running? && w.closed && w.queue == []
    case Store(part) => w.phase.Flushing? && part <= w.phase.rest
    case Drop(part) => w.phase.Flushing? && part <= w.phase.rest
    case FlushEnds => w.phase.Flushing? && w.phase.rest == multiset{}
    case Interrupt => w.phase.Running? && w.cancelled
    case DropQueued => w.phase.Dropping? && w.queue != []
    case DropEnds => w.phase.Dropping? && w.closed && w.queue == []
  }

  function WorkerAfter<E>(w: Worker<E>, a: WorkerAction<E>): Worker<E>
    requires WorkEnabled(w, a)
  {
    match a
    case Receive =>
      var batch := w.batch + [w.queue[0]];
      if |batch| >= BATCH_SIZE then w.(queue := w.queue[1..], batch := [], phase := Flushing(multiset(batch), false))
      else w.(queue := w.queue[1..], batch := batch)
    case Tick => w.(batch := [], phase := Flushing(multiset(w.batch), false))
    case Drained => w.(batch := [], phase := Flushing(multiset(w.batch), true))
    case Store(part) => w.(phase := w.phase.(rest := w.phase.rest - part))
    case Drop(part) => w.(phase := w.phase.(rest := w.phase.rest - part))
    case FlushEnds => w.(phase := if w.phase.last then Finished else Running)
    case Interrupt => w.(batch := [], phase := Dropping)
    case DropQueued => w.(queue := w.queue[1..])
    case DropEnds => w.(phase := Finished)
  }

  function StoredByWork<E>(a: WorkerAction<E>): multiset<E> {
    if a.Store? then a.part else multiset{}
  }

  function LostByWork<E>(w: Worker<E>, a: WorkerAction<E>): multiset<E>
    requires WorkEnabled(w, a)
  {
    match a
    case Drop(part) => part
    case Interrupt => multiset(w.batch)
    case DropQueued => multiset{w.queue[0]}
    case _ => multiset{}
  }

  predicate FallbackEnabled<E(==)>(f: Fallbacks<E>, a: FallbackAction<E>) {
    match a
    case WaitForSlot(e) => e in f.arrived
    case TakeSlot(e) => e in f.waiting && |f.writing| < FALLBACK_SLOTS
    case GiveUp(e) => e in f.waiting
    case Written(e, _) => e in f.writing
  }

  function FallbacksAfter<E>(f: Fallbacks<E>, a: FallbackAction<E>): Fallbacks<E>
    requires FallbackEnabled(f, a)
  {
    match a
    case WaitForSlot(e) =>
      Fallbacks(f.arrived - multiset{e},
                if |f.waiting| < FALLBACK_WAITERS then f.waiting + multiset{e} else f.waiting,
                f.writing)
    case TakeSlot(e) => Fallbacks(f.arrived, f.waiting - multiset{e}, f.writing + multiset{e})
    case GiveUp(e) => Fallbacks(f.arrived, f.waiting - multiset{e}, f.writing)
    case Written(e, _) => Fallbacks(f.arrived, f.waiting, f.writing - multiset{e})
  }

  function StoredByFallback<E>(a: FallbackAction<E>): multiset<E> {
    if a.Written? && a.ok then multiset{a.e} else multiset{}
  }

  function LostByFallback<E>(f: Fallbacks<E>, a: FallbackAction<E>): multiset<E> {
    if a.GiveUp? || (a.Written? && !a.ok) || (a.WaitForSlot? && |f.waiting| >= FALLBACK_WAITERS) then multiset{a.e}
    else multiset{}
  }

  predicate Enabled<E(==)>(s: System<E>, a: Action<E>) {
    match a
    case Submit(_) => true
    case Close => true
    case Cancel => s.worker.closed          // Close closes the queue before it cancels
    case Work(w) => WorkEnabled(s.worker, w)
    case Fallback(f) => FallbackEnabled(s.fallbacks, f)
  }

  function Act<E>(s: System<E>, a: Action<E>): System<E>
    requires Enabled(s, a)
  {
    var l := s.ledger;
    match a
    case Submit(e) =>
      var accepted := !s.worker.closed && |s.worker.queue| < QUEUE_SIZE;
      System(if accepted then s.worker.(queue := s.worker.queue + [e]) else s.worker,
             if accepted then s.fallbacks else s.fallbacks.(arrived := s.fallbacks.arrived + multiset{e}),
             l.(submitted := l.submitted + multiset{e}))
    case Close => s.(worker := s.worker.(closed := true))
    case Cancel => s.(worker := s.worker.(cancelled := true))
    case Work(w) =>
      System(WorkerAfter(s.worker, w), s.fallbacks,
             l.(stored := l.stored + StoredByWork(w), lost := l.lost + LostByWork(s.worker, w)))
    case Fallback(f) =>
      System(s.worker, FallbacksAfter(s.fallbacks, f),
             l.(stored := l.stored + StoredByFallback(f), lost := l.lost + LostByFallback(s.fallbacks, f)))
  }

  function Begin<E>(): System<E> {
    System(Worker([], false, false, [], Running), Fallbacks(multiset{}, multiset{}, multiset{}),
           Ledger(multiset{}, multiset{}, multiset{}))
  }

  ghost predicate Reaches<E(!new)>(s: System<E>, actions: seq<Action<E>>, t: System<E>)
    decreases |actions|
  {
    if actions == [] then s == t
    else Enabled(s, actions[0]) && Reaches(Act(s, actions[0]), actions[1..], t)
  }

  function InFlush<E>(p: Phase<E>): multiset<E> {
    if p.Flushing? then p.rest else multiset{}
  }

  /** How often a record is with the worker, and with a fallback. */
  function WithWorker<E(==)>(w: Worker<E>, e: E): nat {
    multiset(w.queue)[e] + multiset(w.batch)[e] + InFlush(w.phase)[e]
  }

  function WithFallback<E(==)>(f: Fallbacks<E>, e: E): nat { f.arrived[e] + f.waiting[e] + f.writing[e] }

  /** Everything handed over is in exactly one place. */
  ghost predicate Accounted<E(!new)>(s: System<E>) {
    forall e :: s.ledger.submitted[e]
             == WithWorker(s.worker, e) + WithFallback(s.fallbacks, e) + s.ledger.stored[e] + s.ledger.lost[e]
  }

  predicate Bounded<E>(s: System<E>) {
    && |s.worker.queue| <= QUEUE_SIZE && |s.worker.batch| < BATCH_SIZE
    && |s.fallbacks.waiting| <= FALLBACK_WAITERS && |s.fallbacks.writing| <= FALLBACK_SLOTS
  }

  /** Nothing is left behind: the last flush starts, and the worker finishes,
      only when the queue is closed and empty. */
  predicate Orderly<E(==)>(w: Worker<E>) {
    && (w.cancelled ==> w.closed)
    && (!w.phase.Running? ==> w.batch == [])
    && ((w.phase.Flushing? && w.phase.last) || w.phase.Finished? ==> w.closed && w.queue == [])
  }

  ghost predicate Inv<E(!new)>(s: System<E>) { Accounted(s) && Bounded(s) && Orderly(s.worker) }

  lemma HeadAndRest<E>(q: seq<E>)
    requires q != []
    ensures multiset(q) == multiset{q[0]} + multiset(q[1..])
  {
    assert q == [q[0]] + q[1..];
  }

  lemma WorkMoves<E>(w: Worker<E>, a: WorkerAction<E>, e: E)
    requires WorkEnabled(w, a) && Orderly(w)
    ensures WithWorker(WorkerAfter(w, a), e) + StoredByWork(a)[e] + LostByWork(w, a)[e] == WithWorker(w, e)
  {
    if a.Receive? {
      ReceiveMoves(w, e);
    } else if a.DropQueued? {
      HeadAndRest(w.queue);
    }
  }

  lemma ReceiveMoves<E>(w: Worker<E>, e: E)
    requires WorkEnabled(w, Receive)
    ensures WithWorker(WorkerAfter(w, Receive), e) == WithWorker(w, e)
  {
    HeadAndRest(w.queue);
    assert multiset(w.batch + [w.queue[0]]) == multiset(w.batch) + multiset{w.queue[0]};
  }

  lemma FallbackMoves<E>(f: Fallbacks<E>, a: FallbackAction<E>, e: E)
    requires FallbackEnabled(f, a)
    ensures WithFallback(FallbacksAfter(f, a), e) + StoredByFallback(a)[e] + LostByFallback(f, a)[e]
              == WithFallback(f, e)
  {
  }

  lemma ActKeepsAccount<E(!new)>(s: System<E>, a: Action<E>)
    requires Accounted(s) && Enabled(s, a) && Orderly(s.worker)
    ensures Accounted(Act(s, a))
  {
    var t := Act(s, a);
    forall e ensures t.ledger.submitted[e]
                  == WithWorker(t.worker, e) + WithFallback(t.fallbacks, e) + t.ledger.stored[e] + t.ledger.lost[e]
    {
      match a
      case Submit(x) => assert multiset(s.worker.queue + [x]) == multiset(s.worker.queue) + multiset{x};
      case Work(w) => WorkMoves(s.worker, w, e);
      case Fallback(f) => FallbackMoves(s.fallbacks, f, e);
      case _ =>
    }
  }

  lemma WorkKeepsOrder<E>(w: Worker<E>, a: WorkerAction<E>)
    requires Orderly(w) && WorkEnabled(w, a) && |w.batch| < BATCH_SIZE
    ensures Orderly(WorkerAfter(w, a))
    ensures |WorkerAfter(w, a).batch| < BATCH_SIZE && |WorkerAfter(w, a).queue| <= |w.queue|
  {
  }

  lemma FallbackKeepsSlots<E>(f: Fallbacks<E>, a: FallbackAction<E>)
    requires FallbackEnabled(f, a) && |f.waiting| <= FALLBACK_WAITERS && |f.writing| <= FALLBACK_SLOTS
    ensures var g := FallbacksAfter(f, a); |g.waiting| <= FALLBACK_WAITERS && |g.writing| <= FALLBACK_SLOTS
  {
  }

  lemma ActKeepsBounds<E>(s: System<E>, a: Action<E>)
    requires Bounded(s) && Orderly(s.worker) && Enabled(s, a)
    ensures Bounded(Act(s, a)) && Orderly(Act(s, a).worker)
  {
    match a
    case Work(w) => WorkKeepsOrder(s.worker, w);
    case Fallback(f) => FallbackKeepsSlots(s.fallbacks, f);
    case _ =>
  }

  lemma {:induction false} ReachableInv<E(!new)>(s: System<E>, actions: seq<Action<E>>, t: System<E>)
    requires Inv(s) && Reaches(s, actions, t)
    ensures Inv(t)
    decreases |actions|
  {
    if actions != [] {
      ActKeepsAccount(s, actions[0]);
      ActKeepsBounds(s, actions[0]);
      ReachableInv(Act(s, actions[0]), actions[1..], t);
    }
  }

  /** Conservation: in every interleaving of submissions, ticks, flushes,
      fallbacks, closing and cancelling, once the worker is done and every
      fallback has returned, each record was stored once or counted as dropped
      once, and nothing is left in the queue. */
  lemma EveryRecordAccountedFor<E(!new)>(actions: seq<Action<E>>, s: System<E>)
    requires Reaches(Begin(), actions, s) && s.worker.phase.Finished?
    requires s.fallbacks == Fallbacks(multiset{}, multiset{}, multiset{})
    ensures s.ledger.submitted == s.ledger.stored + s.ledger.lost
    ensures s.worker.queue == [] && s.worker.batch == []
  {
    ReachableInv(Begin(), actions, s);
    forall e ensures s.ledger.submitted[e] == (s.ledger.stored + s.ledger.lost)[e] { }
  }

  /** At every moment the queue, the batch and the fallback slots are within
      their limits, and no record is in two places or in none. */
  lemma AlwaysBounded<E(!new)>(actions: seq<Action<E>>, s: System<E>)
    requires Reaches(Begin(), actions, s)
    ensures Accounted(s)
    ensures |s.worker.queue| <= 2048 && |s.worker.batch| < 64
    ensures |s.fallbacks.waiting| <= 64 && |s.fallbacks.writing| <= 4
  {
    ReachableInv(Begin(), actions, s);
  }

  /** Nothing is refused before a limit is reached: the queue takes a record while
      it is open and holds fewer than 2048, a fallback waits while fewer than 64
      do and writes while fewer than 4 do, and a batch is flushed by its 64th
      record or by a tick, the last one by the end of the queue. */
  lemma LimitsAreExact<E(!new)>(s: System<E>, e: E)
    ensures Act(s, Submit(e)).worker.queue
         == if !s.worker.closed && |s.worker.queue| < 2048 then s.worker.queue + [e] else s.worker.queue
    ensures e in s.fallbacks.arrived ==>
              FallbacksAfter(s.fallbacks, WaitForSlot(e)).waiting
                == if |s.fallbacks.waiting| < 64 then s.fallbacks.waiting + multiset{e} else s.fallbacks.waiting
    ensures e in s.fallbacks.waiting ==> (FallbackEnabled(s.fallbacks, TakeSlot(e)) <==> |s.fallbacks.writing| < 4)
    ensures WorkEnabled(s.worker, Receive) && |s.worker.batch| < 64 ==>
              (WorkerAfter(s.worker, Receive).phase.Flushing? <==> |s.worker.batch| == 63)
  {}

  /** Once cancelled, the worker can always go on to finish: from any orderly
      cancelled state with an idle worker, dropping the queue ends it. */
  lemma {:induction false} CancelledWorkerFinishes<E(!new)>(s: System<E>)
    returns (actions: seq<Action<E>>, t: System<E>)
    requires Orderly(s.worker) && s.worker.cancelled && (s.worker.phase.Running? || s.worker.phase.Dropping?)
    ensures Reaches(s, actions, t) && t.worker.phase.Finished?
    ensures |actions| == |s.worker.queue| + if s.worker.phase.Running? then 2 else 1
    decreases |s.worker.queue|, if s.worker.phase.Running? then 1 else 0
  {
    var w := s.worker;
    var a: Action<E> := Work(if w.phase.Running? then Interrupt else if w.queue != [] then DropQueued else DropEnds);
    var u := Act(s, a);
    if a.w.DropEnds? {
      actions, t := [a] + [], u;
      OneMore(s, a, [], u);
    } else {
      var rest;
      rest, t := CancelledWorkerFinishes(u);
      actions := [a] + rest;
      OneMore(s, a, rest, t);
    }
  }

  // What a flush added to its two lists is its batch, cut in two.
  lemma FlushParts<E>(log: Recorder.Log<E>, entries: seq<E>, r: Recorder.Log<E>)
    returns (kept: multiset<E>, dropped: multiset<E>)
    requires Recorder.Accounts(log, entries, r)
    ensures multiset(r.stored) == multiset(log.stored) + kept && multiset(r.lost) == multiset(log.lost) + dropped
    ensures kept + dropped == multiset(entries)
  {
    kept, dropped := multiset(r.stored[|log.stored|..]), multiset(r.lost[|log.lost|..]);
    assert r.stored == log.stored + r.stored[|log.stored|..];
    assert r.lost == log.lost + r.lost[|log.lost|..];
    forall e ensures kept[e] + dropped[e] == multiset(entries)[e] {
      var all := multiset(r.stored) + multiset(r.lost);
      assert all[e] == multiset(log.stored)[e] + multiset(log.lost)[e] + multiset(entries)[e];
    }
  }

  function TwoParts<E>(kept: multiset<E>, dropped: multiset<E>): seq<Action<E>> {
    [Work(Store(kept))] + ([Work(Drop(dropped))] + ([Work(FlushEnds)] + []))
  }

  lemma TwoPartsEndFlush<E(!new)>(s: System<E>, kept: multiset<E>, dropped: multiset<E>) returns (t: System<E>)
    requires s.worker.phase.Flushing? && s.worker.phase.rest == kept + dropped
    ensures Reaches(s, TwoParts(kept, dropped), t)
    ensures t.ledger.stored == s.ledger.stored + kept && t.ledger.lost == s.ledger.lost + dropped
    ensures !t.worker.phase.Flushing? && t.worker.queue == s.worker.queue
  {
    var s1 := Act(s, Work(Store(kept)));
    assert s1.worker.phase.rest == dropped;
    var s2 := Act(s1, Work(Drop(dropped)));
    assert s2.worker.phase.rest == multiset{};
    t := Act(s2, Work(FlushEnds));
    OneMore(s2, Work(FlushEnds), [], t);
    OneMore(s1, Work(Drop(dropped)), [Work(FlushEnds)] + [], t);
    OneMore(s, Work(Store(kept)), [Work(Drop(dropped))] + ([Work(FlushEnds)] + []), t);
  }

  /** The flush of module Recorder is one of the flushes this protocol allows:
      it stores one part of the batch, drops the other, and leaves nothing. */
  lemma FlushRefinesProtocol<E(!new)>(repo: Recorder.Repository<E>, delays: nat, log: Recorder.Log<E>, entries: seq<E>,
                                      s: System<E>) returns (kept: multiset<E>, dropped: multiset<E>, t: System<E>)
    requires s.worker.phase.Flushing? && s.worker.phase.rest == multiset(entries)
    ensures var r := Recorder.Flush(repo, delays, log, entries);
            multiset(r.stored) == multiset(log.stored) + kept && multiset(r.lost) == multiset(log.lost) + dropped
    ensures Reaches(s, TwoParts(kept, dropped), t)
    ensures t.ledger.stored == s.ledger.stored + kept && t.ledger.lost == s.ledger.lost + dropped
    ensures !t.worker.phase.Flushing? && t.worker.queue == s.worker.queue
  {
    Recorder.FlushConserves(repo, delays, log, entries);
    kept, dropped := FlushParts(log, entries, Recorder.Flush(repo, delays, log, entries));
    t := TwoPartsEndFlush(s, kept, dropped);
  }

  lemma OneMore<E(!new)>(s: System<E>, a: Action<E>, rest: seq<Action<E>>, t: System<E>)
    requires Enabled(s, a) && Reaches(Act(s, a), rest, t)
    ensures Reaches(s, [a] + rest, t)
  {
    assert ([a] + rest)[1..] == rest;
  }
}
