/** The generation-guarded caches of internal/store/cache.go, their load gate
    (internal/store/load_gate.go) and the reader protocol around them
    (internal/store/apikeys.go, internal/store/upstreams.go, internal/store/pricing.go).

    `GenerationCache` and `LoadGate` are the program's objects. The second half
    interleaves any number of readers with writers that commit first and
    invalidate later. */
module CacheProtocol {
  import opened Options

  datatype Entry<V> = Entry(value: V, expires: int)

  datatype Cache<K, V> = Cache(entries: map<K, Entry<V>>, generation: nat)

  function Hit<K, V>(c: Cache<K, V>, key: K, now: int): Option<V> {
    if key in c.entries && c.entries[key].expires > now then Some(c.entries[key].value) else None
  }

  /** A store under a generation that has passed changes nothing; otherwise the
      new entry is in and every other entry was there before. */
  ghost predicate Stored<K(!new), V(!new)>(c: Cache<K, V>, d: Cache<K, V>, key: K, e: Entry<V>, generation: nat) {
    && d.generation == c.generation
    && (generation != c.generation ==> d == c)
    && (generation == c.generation ==>
          && key in d.entries && d.entries[key] == e
          && forall k | k in d.entries && k != key :: k in c.entries && d.entries[k] == c.entries[k])
  }

  lemma OneMoreEntry<K, V>(entries: map<K, V>, key: K, e: V)
    ensures |entries[key := e]| <= |entries| + 1
  {
    assert entries[key := e].Keys == entries.Keys + {key};
  }

  class GenerationCache<K(==, !new), V(!new)> {
    const limit: nat
    const ttl: int
    var entries: map<K, Entry<V>>
    var generation: nat
    ghost var storedAt: map<K, int>

    /** Every entry lives for ttl from the put that stored it. */
    ghost predicate Valid()
      reads this
    {
      && storedAt.Keys == entries.Keys
      && forall k | k in entries :: entries[k].expires == storedAt[k] + ttl
    }

    constructor (limit: nat, ttl: int)
      ensures this.limit == limit && this.ttl == ttl && View() == Cache(map[], 0) && Valid()
    {
      this.limit, this.ttl := limit, ttl;
      entries, generation, storedAt := map[], 0, map[];
    }

    ghost function View(): Cache<K, V>
      reads this
    {
      Cache(entries, generation)
    }

    method Get(key: K, now: int) returns (value: Option<V>, gen: nat)
      requires Valid()
      ensures value == Hit(View(), key, now) && gen == generation
      ensures value.Some? <==> key in entries && now - storedAt[key] < ttl
      ensures value.Some? ==> value.value == entries[key].value
    {
      gen := generation;
      if key in entries && entries[key].expires > now {
        value := Some(entries[key].value);
      } else {
        value := None;
      }
    }

    method Put(key: K, value: V, now: int, gen: nat)
      requires Valid()
      modifies this`entries, this`storedAt
      ensures Valid() && (gen == generation ==> key in storedAt && storedAt[key] == now)
      ensures forall k | k in entries && (k != key || gen != generation) ::
                k in old(storedAt) && storedAt[k] == old(storedAt)[k]
      ensures generation == old(generation)
      ensures gen != generation ==> entries == old(entries)
      ensures gen == generation ==>
                entries == (if |old(entries)| >= limit then map[] else old(entries))[key := Entry(value, now + ttl)]
      ensures limit > 0 && |old(entries)| <= limit ==> |entries| <= limit
      ensures Stored(old(View()), View(), key, Entry(value, now + ttl), gen)
    {
      if generation != gen { return; }
      if |entries| >= limit {
        entries, storedAt := map[], map[];
      }
      storedAt := storedAt[key := now];
      OneMoreEntry(entries, key, Entry(value, now + ttl));
      entries := entries[key := Entry(value, now + ttl)];
    }

    method Invalidate()
      modifies this
      ensures View() == Cache(map[], old(generation) + 1) && Valid()
    {
      entries, storedAt := map[], map[];
      generation := generation + 1;
    }
  }

  // ------------------------------------------------------------ load gate

  /** One attempt to become the loader of a key: either the caller now owns a
      fresh ticket, or it learns the ticket to wait for. */
  datatype Turn = Owner(ticket: nat) | WaitFor(ticket: nat)

  class LoadGate<K(==)> {
    var active: map<K, nat>
    var nextTicket: nat

    constructor ()
      ensures active == map[] && nextTicket == 0
    {
      active, nextTicket := map[], 0;
    }

    method TryAcquire(key: K) returns (turn: Turn)
      modifies this
      ensures key in old(active) ==>
                turn == WaitFor(old(active)[key]) && active == old(active) && nextTicket == old(nextTicket)
      ensures key !in old(active) ==>
                && turn == Owner(old(nextTicket)) && nextTicket == old(nextTicket) + 1
                && active == old(active)[key := turn.ticket]
    {
      if key in active {
        return WaitFor(active[key]);
      }
      turn := Owner(nextTicket);
      active := active[key := nextTicket];
      nextTicket := nextTicket + 1;
    }

    method Release(key: K)
      modifies this`active
      ensures active == old(active) - {key}
    {
      active := active - {key};
    }
  }

  // -------------------------------------------------- interleaved readers

  /** Where a reader is. A reader of a cache without a gate carries no ticket. A
      reader that has loaded knows which database it read, and `before` names the
      commits that had been invalidated by then. */
  datatype Phase<K, V> =
    | Missed(key: K)
    | Waiting(key: K, ticket: nat)
    | Holding(key: K, ticket: nat)
    | Checked(key: K, gate: Option<nat>, generation: nat)
    | Loaded(key: K, gate: Option<nat>, generation: nat, value: V, readAt: nat, before: set<nat>)
    | Leaving(key: K, gate: Option<nat>)
    | Finished

  /** `history` lists the database after each commit, the last one being current;
      `invalidated` names the commits whose writers have reached their
      invalidation; `readAt` says for every entry which of them it was read from. */
  datatype System<K, D, V> = System(
    history: seq<D>, invalidated: set<nat>, cache: Cache<K, V>, readAt: map<K, nat>,
    gate: map<K, nat>, nextTicket: nat, readers: map<nat, Phase<K, V>>)

  datatype Action<K, D, V> =
    | Commit(state: D)
    | Invalidate(commit: nat)
    | Begin(reader: nat, key: K)                   // first look-up, a miss
    | Acquire(reader: nat)                         // take the gate or start waiting
    | Wake(reader: nat)                            // the awaited ticket was closed
    | Cancel(reader: nat)                          // the caller's context ended
    | Recheck(reader: nat)                         // second look-up, a miss
    | SkipGate(reader: nat)                        // a cache without a gate
    | Load(reader: nat, value: V)                  // query the database
    | Abandon(reader: nat)                         // second look-up hit, or the query failed
    | Put(reader: nat, after: Cache<K, V>, expires: int)
    | Release(reader: nat)

  ghost predicate Enabled<K(!new), D(!new), V(!new)>(s: System<K, D, V>, a: Action<K, D, V>,
      answers: (D, K, V) -> bool) {
    match a
    case Commit(_) => true
    case Invalidate(i) => i < |s.history|
    case Begin(r, _) => r !in s.readers || s.readers[r].Finished?
    case Acquire(r) => r in s.readers && s.readers[r].Missed?
    case Wake(r) => r in s.readers && s.readers[r].Waiting? && !TicketOpen(s, s.readers[r].key, s.readers[r].ticket)
    case Cancel(r) => r in s.readers && (s.readers[r].Missed? || s.readers[r].Waiting?)
    case Recheck(r) => r in s.readers && s.readers[r].Holding?
    case SkipGate(r) => r in s.readers && s.readers[r].Missed?
    case Load(r, v) => r in s.readers && s.readers[r].Checked? && s.history != []
                       && answers(s.history[|s.history| - 1], s.readers[r].key, v)
    case Abandon(r) => r in s.readers && (s.readers[r].Holding? || s.readers[r].Checked?)
    case Put(r, after, expires) => r in s.readers && s.readers[r].Loaded?
                       && Stored(s.cache, after, s.readers[r].key,
                                 Entry(s.readers[r].value, expires), s.readers[r].generation)
    case Release(r) => r in s.readers && s.readers[r].Leaving?
  }

  predicate TicketOpen<K, D, V>(s: System<K, D, V>, key: K, ticket: nat) {
    key in s.gate && s.gate[key] == ticket
  }

  ghost function Act<K(!new), D(!new), V(!new)>(s: System<K, D, V>, a: Action<K, D, V>,
      answers: (D, K, V) -> bool): System<K, D, V>
    requires Enabled(s, a, answers)
  {
    match a
    case Commit(d) => s.(history := s.history + [d])
    case Invalidate(i) =>
      s.(invalidated := s.invalidated + {i}, cache := Cache(map[], s.cache.generation + 1), readAt := map[])
    case Begin(r, k) => s.(readers := s.readers[r := Missed(k)])
    case Acquire(r) =>
      var k := s.readers[r].key;
      if k in s.gate then s.(readers := s.readers[r := Waiting(k, s.gate[k])])
      else s.(gate := s.gate[k := s.nextTicket], nextTicket := s.nextTicket + 1,
              readers := s.readers[r := Holding(k, s.nextTicket)])
    case Wake(r) => s.(readers := s.readers[r := Missed(s.readers[r].key)])
    case Cancel(r) => s.(readers := s.readers[r := Finished])
    case Recheck(r) =>
      s.(readers := s.readers[r := Checked(s.readers[r].key, Some(s.readers[r].ticket), s.cache.generation)])
    case SkipGate(r) => s.(readers := s.readers[r := Checked(s.readers[r].key, None, s.cache.generation)])
    case Load(r, v) =>
      var p := s.readers[r];
      s.(readers := s.readers[r := Loaded(p.key, p.gate, p.generation, v, |s.history| - 1, s.invalidated)])
    case Abandon(r) =>
      var p := s.readers[r];
      s.(readers := s.readers[r := Leaving(p.key, if p.Holding? then Some(p.ticket) else p.gate)])
    case Put(r, after, _) =>
      var p := s.readers[r];
      s.(cache := after,
         readAt := if p.generation == s.cache.generation
                   then map k | k in after.entries && (k == p.key || k in s.readAt) ::
                          if k == p.key then p.readAt else s.readAt[k]
                   else s.readAt,
         readers := s.readers[r := Leaving(p.key, p.gate)])
    case Release(r) =>
      var p := s.readers[r];
      s.(gate := if p.gate.Some? then s.gate - {p.key} else s.gate, readers := s.readers[r := Finished])
  }

  function Start<K, D, V>(d: D): System<K, D, V> {
    System([d], {}, Cache(map[], 0), map[], map[], 0, map[])
  }

  ghost predicate Reaches<K(!new), D(!new), V(!new)>(s: System<K, D, V>, actions: seq<Action<K, D, V>>,
      t: System<K, D, V>, answers: (D, K, V) -> bool)
    decreases |actions|
  {
    if actions == [] then s == t
    else Enabled(s, actions[0], answers) && Reaches(Act(s, actions[0], answers), actions[1..], t, answers)
  }

  // ------------------------------------------------------------- coherence

  /** A value answers its key in the snapshot it was read from, and no
      invalidated commit is newer than that snapshot. */
  ghost predicate Fresh<K, D, V>(s: System<K, D, V>, key: K, value: V, readAt: nat, answers: (D, K, V) -> bool) {
    && readAt < |s.history| && answers(s.history[readAt], key, value)
    && forall i | i in s.invalidated :: i <= readAt
  }

  ghost predicate CacheInv<K(!new), D(!new), V(!new)>(s: System<K, D, V>, answers: (D, K, V) -> bool) {
    && s.history != [] && (forall i | i in s.invalidated :: i < |s.history|)
    && s.readAt.Keys == s.cache.entries.Keys
    && (forall k | k in s.cache.entries :: Fresh(s, k, s.cache.entries[k].value, s.readAt[k], answers))
    && (forall r | r in s.readers && s.readers[r].Loaded? && s.readers[r].generation == s.cache.generation ::
          Fresh(s, s.readers[r].key, s.readers[r].value, s.readers[r].readAt, answers))
    && (forall r | r in s.readers && (s.readers[r].Checked? || s.readers[r].Loaded?) ::
          s.readers[r].generation <= s.cache.generation)
  }

  /** What a reader has loaded answers the database it read, whatever has been
      committed or invalidated since. */
  ghost predicate LoadInv<K(!new), D(!new), V(!new)>(s: System<K, D, V>, answers: (D, K, V) -> bool) {
    && s.history != [] && (forall i | i in s.invalidated :: i < |s.history|)
    && forall r | r in s.readers && s.readers[r].Loaded? :: Snapshot(s.history, s.readers[r], answers)
  }

  ghost predicate Snapshot<K, D, V>(history: seq<D>, p: Phase<K, V>, answers: (D, K, V) -> bool)
    requires p.Loaded?
  {
    && p.readAt < |history| && answers(history[p.readAt], p.key, p.value)
    && forall i | i in p.before :: i <= p.readAt
  }

  lemma ActKeepsLoads<K(!new), D(!new), V(!new)>(s: System<K, D, V>, a: Action<K, D, V>, answers: (D, K, V) -> bool)
    requires LoadInv(s, answers) && Enabled(s, a, answers)
    ensures LoadInv(Act(s, a, answers), answers)
  {
    var t := Act(s, a, answers);
    forall r | r in t.readers && t.readers[r].Loaded? ensures Snapshot(t.history, t.readers[r], answers) {
      if r in s.readers && s.readers[r].Loaded? { assert Snapshot(s.history, s.readers[r], answers); }
    }
  }

  lemma {:induction false} LoadsAreSnapshots<K(!new), D(!new), V(!new)>(
    s: System<K, D, V>, actions: seq<Action<K, D, V>>, t: System<K, D, V>, answers: (D, K, V) -> bool)
    requires LoadInv(s, answers) && Reaches(s, actions, t, answers)
    ensures LoadInv(t, answers)
    decreases |actions|
  {
    if actions != [] {
      ActKeepsLoads(s, actions[0], answers);
      LoadsAreSnapshots(Act(s, actions[0], answers), actions[1..], t, answers);
    }
  }

  /** A reader that loads for itself, whatever happens to the cache meanwhile,
      holds the answer of one database, no older than any commit that had been
      invalidated when it loaded. */
  lemma LoaderIsCurrent<K(!new), D(!new), V(!new)>(
    d: D, actions: seq<Action<K, D, V>>, s: System<K, D, V>, r: nat, answers: (D, K, V) -> bool)
    requires Reaches(Start(d), actions, s, answers) && r in s.readers && s.readers[r].Loaded?
    ensures Snapshot(s.history, s.readers[r], answers)
  {
    LoadsAreSnapshots(Start(d), actions, s, answers);
  }

  lemma ActKeepsCache<K(!new), D(!new), V(!new)>(s: System<K, D, V>, a: Action<K, D, V>, answers: (D, K, V) -> bool)
    requires CacheInv(s, answers) && Enabled(s, a, answers)
    ensures CacheInv(Act(s, a, answers), answers)
  {
    var s' := Act(s, a, answers);
    match a
    case Commit(d) =>
      forall k | k in s'.cache.entries ensures Fresh(s', k, s'.cache.entries[k].value, s'.readAt[k], answers) {
        assert Fresh(s, k, s.cache.entries[k].value, s.readAt[k], answers);
      }
    case Put(r, after, expires) =>
      var p := s.readers[r];
      if p.generation == s.cache.generation {
        assert s'.readAt.Keys == after.entries.Keys;
        forall k | k in after.entries ensures Fresh(s', k, after.entries[k].value, s'.readAt[k], answers) {
          if k != p.key { assert Fresh(s, k, s.cache.entries[k].value, s.readAt[k], answers); }
        }
      }
    case _ =>
  }

  // ---------------------------------------------------------------- gate

  /** The ticket a reader must give back, if any. */
  function Ticket<K, V>(p: Phase<K, V>): Option<nat> {
    match p
    case Holding(_, t) => Some(t)
    case Checked(_, g, _) => g
    case Loaded(_, g, _, _, _, _) => g
    case Leaving(_, g) => g
    case _ => None
  }

  ghost predicate HoldsGate<K, D, V>(s: System<K, D, V>, r: nat, key: K, ticket: nat) {
    r in s.readers && Ticket(s.readers[r]) == Some(ticket) && s.readers[r].key == key
  }

  /** Every ticket still out is the one its key's gate waits for. */
  ghost predicate TicketsOpen<K(!new), D(!new), V(!new)>(s: System<K, D, V>) {
    forall r | r in s.readers && Ticket(s.readers[r]).Some? ::
      TicketOpen(s, s.readers[r].key, Ticket(s.readers[r]).value)
  }

  ghost predicate TicketsDiffer<K(!new), D(!new), V(!new)>(s: System<K, D, V>) {
    forall r, q | r in s.readers && q in s.readers && Ticket(s.readers[r]).Some?
                  && Ticket(s.readers[r]) == Ticket(s.readers[q]) :: r == q
  }

  /** Every closed gate has a reader that can open it. */
  ghost predicate GatesHeld<K(!new), D(!new), V(!new)>(s: System<K, D, V>) {
    forall k | k in s.gate :: s.gate[k] < s.nextTicket && exists r :: HoldsGate(s, r, k, s.gate[k])
  }

  ghost predicate GateInv<K(!new), D(!new), V(!new)>(s: System<K, D, V>) {
    TicketsOpen(s) && TicketsDiffer(s) && GatesHeld(s)
  }

  function TicketAt<K, D, V>(s: System<K, D, V>, r: nat): Option<nat> {
    if r in s.readers then Ticket(s.readers[r]) else None
  }

  // A reader moves on without taking or giving back a ticket.
  lemma KeepsTicket<K(!new), D(!new), V(!new)>(s: System<K, D, V>, t: System<K, D, V>, r: nat, p: Phase<K, V>)
    requires GateInv(s) && t.gate == s.gate && t.nextTicket == s.nextTicket
    requires t.readers == s.readers[r := p] && Ticket(p) == TicketAt(s, r)
    requires Ticket(p).Some? ==> p.key == s.readers[r].key
    ensures GateInv(t)
  {
    forall k | k in t.gate ensures exists q :: HoldsGate(t, q, k, t.gate[k]) {
      var q :| HoldsGate(s, q, k, s.gate[k]);
      assert HoldsGate(t, q, k, t.gate[k]);
    }
  }

  lemma TakesTicket<K(!new), D(!new), V(!new)>(s: System<K, D, V>, t: System<K, D, V>, r: nat, key: K)
    requires GateInv(s) && key !in s.gate && TicketAt(s, r).None?
    requires t.gate == s.gate[key := s.nextTicket] && t.nextTicket == s.nextTicket + 1
    requires t.readers == s.readers[r := Holding(key, s.nextTicket)]
    ensures GateInv(t)
  {
    assert HoldsGate(t, r, key, s.nextTicket);
    forall k | k in t.gate && k != key ensures exists q :: HoldsGate(t, q, k, t.gate[k]) {
      var q :| HoldsGate(s, q, k, s.gate[k]);
      assert HoldsGate(t, q, k, t.gate[k]);
    }
  }

  lemma OthersStayOpen<K(!new), D(!new), V(!new)>(s: System<K, D, V>, t: System<K, D, V>, r: nat)
    requires TicketsOpen(s) && TicketsDiffer(s) && TicketAt(s, r).Some?
    requires t.gate == s.gate - {s.readers[r].key} && t.readers == s.readers[r := Finished]
    ensures TicketsOpen(t) && TicketsDiffer(t)
  {
    forall q | q in t.readers && Ticket(t.readers[q]).Some?
      ensures TicketOpen(t, t.readers[q].key, Ticket(t.readers[q]).value)
    {
      assert q != r && Ticket(s.readers[q]) != Ticket(s.readers[r]);
    }
  }

  lemma GivesTicketBack<K(!new), D(!new), V(!new)>(s: System<K, D, V>, t: System<K, D, V>, r: nat)
    requires GateInv(s) && TicketAt(s, r).Some?
    requires t.gate == s.gate - {s.readers[r].key} && t.nextTicket == s.nextTicket
    requires t.readers == s.readers[r := Finished]
    ensures GateInv(t)
  {
    OthersStayOpen(s, t, r);
    forall k | k in t.gate ensures t.gate[k] < t.nextTicket && exists q :: HoldsGate(t, q, k, t.gate[k]) {
      var q :| HoldsGate(s, q, k, s.gate[k]);
      assert HoldsGate(t, q, k, t.gate[k]);
    }
  }

  lemma ActKeepsGate<K(!new), D(!new), V(!new)>(s: System<K, D, V>, a: Action<K, D, V>, answers: (D, K, V) -> bool)
    requires GateInv(s) && Enabled(s, a, answers)
    ensures GateInv(Act(s, a, answers))
  {
    var t := Act(s, a, answers);
    if a.Commit? || a.Invalidate? {
      SameGate(s, t);
    } else if a.Acquire? && s.readers[a.reader].key !in s.gate {
      TakesTicket(s, t, a.reader, s.readers[a.reader].key);
    } else if a.Release? && s.readers[a.reader].gate.Some? {
      GivesTicketBack(s, t, a.reader);
    } else {
      KeepsTicket(s, t, a.reader, t.readers[a.reader]);
    }
  }

  lemma SameGate<K(!new), D(!new), V(!new)>(s: System<K, D, V>, t: System<K, D, V>)
    requires GateInv(s) && t.gate == s.gate && t.nextTicket == s.nextTicket && t.readers == s.readers
    ensures GateInv(t)
  {
    forall k | k in t.gate ensures exists q :: HoldsGate(t, q, k, t.gate[k]) {
      var q :| HoldsGate(s, q, k, s.gate[k]);
      assert HoldsGate(t, q, k, t.gate[k]);
    }
  }

  lemma {:induction false} ReachableInv<K(!new), D(!new), V(!new)>(s: System<K, D, V>, actions: seq<Action<K, D, V>>,
      t: System<K, D, V>, answers: (D, K, V) -> bool)
    requires CacheInv(s, answers) && GateInv(s) && Reaches(s, actions, t, answers)
    ensures CacheInv(t, answers) && GateInv(t)
    decreases |actions|
  {
    if actions != [] {
      ActKeepsCache(s, actions[0], answers);
      ActKeepsGate(s, actions[0], answers);
      ReachableInv(Act(s, actions[0], answers), actions[1..], t, answers);
    }
  }

  /** Coherence: in every interleaving, whatever the cache would return was read
      from a database state no older than any invalidated commit; and once
      every committed writer has invalidated, it answers the current database. */
  lemma CacheIsCoherent<K(!new), D(!new), V(!new)>(d: D, actions: seq<Action<K, D, V>>, s: System<K, D, V>, key: K,
      now: int, answers: (D, K, V) -> bool)
    requires Reaches(Start(d), actions, s, answers) && Hit(s.cache, key, now).Some?
    ensures key in s.cache.entries && now < s.cache.entries[key].expires
    ensures exists readAt: nat :: readAt < |s.history|
              && answers(s.history[readAt], key, Hit(s.cache, key, now).value)
              && forall i | i in s.invalidated :: i <= readAt
    ensures (forall i: nat | 0 < i < |s.history| :: i in s.invalidated)
            ==> answers(s.history[|s.history| - 1], key, Hit(s.cache, key, now).value)
  {
    ReachableInv(Start(d), actions, s, answers);
    assert Fresh(s, key, s.cache.entries[key].value, s.readAt[key], answers);
    if (forall i: nat | 0 < i < |s.history| :: i in s.invalidated) && |s.history| > 1 {
      assert |s.history| - 1 in s.invalidated;
    }
  }

  /** Single flight: at most one gated reader per key is past the gate, so at
      most one load per key is in flight. */
  lemma OneLoadPerKey<K(!new), D(!new), V(!new)>(d: D, actions: seq<Action<K, D, V>>, s: System<K, D, V>, r: nat,
      q: nat, answers: (D, K, V) -> bool)
    requires Reaches(Start(d), actions, s, answers)
    requires r in s.readers && q in s.readers
    requires Ticket(s.readers[r]).Some? && Ticket(s.readers[q]).Some? && s.readers[r].key == s.readers[q].key
    ensures r == q
  {
    ReachableInv(Start(d), actions, s, answers);
  }

  ghost predicate CanPut<K(!new), D(!new), V(!new)>(s: System<K, D, V>, r: nat, answers: (D, K, V) -> bool) {
    exists after: Cache<K, V>, expires: int :: Enabled(s, Put(r, after, expires), answers)
  }

  lemma LoaderCanPut<K(!new), D(!new), V(!new)>(s: System<K, D, V>, r: nat, answers: (D, K, V) -> bool)
    requires r in s.readers && s.readers[r].Loaded?
    ensures CanPut(s, r, answers)
  {
    var p, c := s.readers[r], s.cache;
    var e := Entry(p.value, 0);
    var after := if p.generation == c.generation then Cache(c.entries[p.key := e], c.generation) else c;
    assert Stored(c, after, p.key, e, p.generation);
    assert Enabled(s, Put(r, after, 0), answers);
  }

  /** Nobody is stranded: a waiting reader can either be woken now, or the
      ticket it waits for is held by another reader that can still give it back. */
  lemma WaitersAreNotStranded<K(!new), D(!new), V(!new)>(d: D, actions: seq<Action<K, D, V>>, s: System<K, D, V>,
      r: nat, answers: (D, K, V) -> bool)
    requires Reaches(Start(d), actions, s, answers)
    requires r in s.readers && s.readers[r].Waiting?
    ensures || Enabled(s, Action<K, D, V>.Wake(r), answers)
            || exists q :: q != r && HoldsGate(s, q, s.readers[r].key, s.readers[r].ticket)
                           && (|| Enabled(s, Action<K, D, V>.Abandon(q), answers) || CanPut(s, q, answers)
                               || Enabled(s, Action<K, D, V>.Release(q), answers))
  {
    ReachableInv(Start(d), actions, s, answers);
    if TicketOpen(s, s.readers[r].key, s.readers[r].ticket) {
      var q :| HoldsGate(s, q, s.readers[r].key, s.readers[r].ticket);
      assert q != r;
      if s.readers[q].Loaded? { LoaderCanPut(s, q, answers); }
    }
  }
}
