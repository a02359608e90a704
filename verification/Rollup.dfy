/** Request logs and their roll-ups: RecordRequests of internal/store/logs.go and
    recordPreparedBatch of internal/store/log_batch.go.

    `LogStore` records a batch the way the program does: drop repeated ids,
    insert what is new, aggregate it in memory, add the aggregates to the rows.
    `RecordAll` records one request after another; the theorems compare the two
    and say what the roll-ups add up to. Costs are in 1e-8 USD, times in seconds. */
module Rollup {
  import opened Options

  datatype Request = Request(
    id: string, apiKey: int, group: Option<int>, upstream: Option<int>, protocol: string, model: string,
    status: int, errorCode: string, input: Option<int>, output: Option<int>, cached: Option<int>,
    cacheCreation: Option<int>, uncached: Option<int>, cost: Option<int>, createdAt: int)

  datatype Aggregate = Aggregate(
    requests: int, successes: int, input: int, output: int, cacheRead: int, cacheWrite: int,
    cacheWriteRequests: int, uncached: int, usageRequests: int, outputUsageRequests: int,
    cacheHits: int, cost: int, costKnown: int)

  const ZERO := Aggregate(0, 0, 0, 0, 0, 0, 0, 0, 0, 0, 0, 0, 0)

  function Add(a: Aggregate, b: Aggregate): Aggregate {
    Aggregate(a.requests + b.requests, a.successes + b.successes, a.input + b.input, a.output + b.output,
              a.cacheRead + b.cacheRead, a.cacheWrite + b.cacheWrite,
              a.cacheWriteRequests + b.cacheWriteRequests, a.uncached + b.uncached,
              a.usageRequests + b.usageRequests, a.outputUsageRequests + b.outputUsageRequests,
              a.cacheHits + b.cacheHits, a.cost + b.cost, a.costKnown + b.costKnown)
  }

  function Count(b: bool): int { if b then 1 else 0 }

  function AggregateRequest(e: Request): Aggregate {
    Aggregate(1, Count(200 <= e.status <= 399 && e.errorCode == ""),
              e.input.GetOr(0), e.output.GetOr(0), e.cached.GetOr(0), e.cacheCreation.GetOr(0),
              Count(e.cacheCreation.Some?), e.uncached.GetOr(0), Count(e.input.Some?), Count(e.output.Some?),
              Count(e.cached.GetOr(0) > 0), e.cost.GetOr(0), Count(e.cost.Some?))
  }

  datatype Lifetime = Lifetime(requests: int, costKnown: int, cost: int)

  const NO_LIFETIME := Lifetime(0, 0, 0)

  function AddLifetime(a: Lifetime, b: Lifetime): Lifetime {
    Lifetime(a.requests + b.requests, a.costKnown + b.costKnown, a.cost + b.cost)
  }

  function LifetimePart(a: Aggregate): Lifetime { Lifetime(a.requests, a.costKnown, a.cost) }

  /** A roll-up row; `period` counts days or hours since the epoch, in UTC. */
  datatype UsageKey = UsageKey(period: int, apiKey: int, group: int, upstream: int, protocol: string, model: string)

  datatype Tables = Tables(
    daily: map<UsageKey, Aggregate>, hourly: map<UsageKey, Aggregate>, lifetime: map<int, Lifetime>)

  const NO_TABLES := Tables(map[], map[], map[])

  datatype Db = Db(apiKeys: set<int>, upstreams: set<int>, logs: map<string, Request>, tables: Tables)

  /** The row the INSERT writes: references to rows that are gone become NULL (0, None). */
  function Stored(apiKeys: set<int>, upstreams: set<int>, e: Request): Request {
    e.(apiKey := if e.apiKey in apiKeys then e.apiKey else 0,
       upstream := if e.upstream.Some? && e.upstream.value in upstreams then e.upstream else None)
  }

  /** Only rows that keep both references are rolled up. */
  predicate Counted(row: Request) { row.apiKey != 0 && row.upstream.Some? }

  function KeyOf(e: Request, period: int): UsageKey
    requires e.upstream.Some?
  {
    UsageKey(period, e.apiKey, e.group.GetOr(0), e.upstream.value, e.protocol, e.model)
  }

  function DayKey(e: Request): UsageKey
    requires e.upstream.Some?
  {
    KeyOf(e, e.createdAt / 86400)
  }

  function HourKey(e: Request): UsageKey
    requires e.upstream.Some?
  {
    KeyOf(e, e.createdAt / 3600)
  }

  function Get<K>(m: map<K, Aggregate>, k: K): Aggregate { if k in m then m[k] else ZERO }

  function GetLifetime(m: map<int, Lifetime>, u: int): Lifetime { if u in m then m[u] else NO_LIFETIME }

  /** Insert or add to a row. */
  function Bump<K>(m: map<K, Aggregate>, k: K, v: Aggregate): map<K, Aggregate> { m[k := Add(Get(m, k), v)] }

  function BumpLifetime(m: map<int, Lifetime>, u: int, v: Lifetime): map<int, Lifetime> {
    m[u := AddLifetime(GetLifetime(m, u), v)]
  }

  /** A logged row enters its day, its hour and its upstream's lifetime. */
  function Roll(t: Tables, row: Request): Tables {
    if !Counted(row) then t
    else
      var v := AggregateRequest(row);
      Tables(Bump(t.daily, DayKey(row), v), Bump(t.hourly, HourKey(row), v),
             BumpLifetime(t.lifetime, row.upstream.value, LifetimePart(v)))
  }

  /** Recording one request: a known id changes nothing. */
  function RecordOne(db: Db, e: Request): Db {
    if e.id in db.logs then db
    else
      var row := Stored(db.apiKeys, db.upstreams, e);
      Db(db.apiKeys, db.upstreams, db.logs[e.id := row], Roll(db.tables, row))
  }

  function RecordAll(db: Db, entries: seq<Request>): Db {
    if entries == [] then db else RecordOne(RecordAll(db, entries[..|entries| - 1]), entries[|entries| - 1])
  }

  lemma RecordAllSnoc(db: Db, entries: seq<Request>, e: Request)
    ensures RecordAll(db, entries + [e]) == RecordOne(RecordAll(db, entries), e)
  {
    assert (entries + [e])[..|entries|] == entries;
  }

  // ------------------------------------------------ the program's object

  class LogStore {
    var apiKeys: set<int>
    var upstreams: set<int>
    var logs: map<string, Request>
    var tables: Tables

    ghost function View(): Db
      reads this
    {
      Db(apiKeys, upstreams, logs, tables)
    }

    method RecordRequests(entries: seq<Request>)
      modifies this
      ensures View() == RecordAll(old(View()), entries)
      ensures old(RollupsAddUp(View())) ==> RollupsAddUp(View())
    {
      ghost var before := View();
      if RollupsAddUp(before) { RecordAllAddsUp(before, entries); }
      var prepared := Prepare(entries);
      RepeatsChangeNothing(View(), entries);
      RecordPreparedBatch(prepared);
    }

    /** Keeps the first entry of every id. */
    method Prepare(entries: seq<Request>) returns (prepared: seq<Request>)
      ensures prepared == FirstOccurrences(entries)
    {
      prepared := [];
      var seen: set<string> := {};
      var i := 0;
      while i < |entries|
        invariant 0 <= i <= |entries|
        invariant prepared == FirstOccurrences(entries[..i])
        invariant seen == Ids(entries[..i])
      {
        assert entries[..i + 1][..i] == entries[..i];
        if entries[i].id !in seen {
          seen := seen + {entries[i].id};
          prepared := prepared + [entries[i]];
        }
        i := i + 1;
      }
      assert entries[..i] == entries;
    }

    method RecordPreparedBatch(prepared: seq<Request>)
      requires Distinct(prepared)
      modifies this
      ensures View() == RecordAll(old(View()), prepared)
    {
      ghost var before := View();
      var inserted := InsertRequestLogBatch(prepared);
      var values := AggregateBatch(before, prepared, inserted);
      var daily := UpsertUsageAggregates(tables.daily, values.daily);
      var hourly := UpsertUsageAggregates(tables.hourly, values.hourly);
      var lifetime := UpsertLifetimeAggregates(tables.lifetime, values.lifetime);
      SeparatesOnce(before.tables, values, RecordAll(before, prepared).tables, Tables(daily, hourly, lifetime));
      tables := Tables(daily, hourly, lifetime);
      RecordedIds(before, prepared);
    }

    /** One INSERT ... ON CONFLICT DO NOTHING; returns the rows it inserted. */
    method InsertRequestLogBatch(prepared: seq<Request>) returns (inserted: map<string, Request>)
      requires Distinct(prepared)
      modifies this`logs
      ensures logs == RecordAll(old(View()), prepared).logs
      ensures inserted.Keys == Ids(prepared) - old(logs).Keys
      ensures forall e | e in prepared && e.id in inserted :: inserted[e.id] == Stored(apiKeys, upstreams, e)
    {
      inserted := map[];
      ghost var before := View();
      NothingInserted(before, prepared);
      var i := 0;
      while i < |prepared|
        invariant 0 <= i <= |prepared|
        invariant InsertedUpTo(before, prepared, i, logs, inserted)
      {
        var row := Stored(apiKeys, upstreams, prepared[i]);
        InsertStep(before, prepared, i, logs, inserted);
        if row.id !in logs {
          inserted := inserted[row.id := row];
          logs := logs[row.id := row];
        }
        i := i + 1;
      }
      AllInserted(before, prepared, logs, inserted);
    }
  }

  /** Adds up in memory the rows that were inserted. */
  method AggregateBatch(ghost before: Db, prepared: seq<Request>, inserted: map<string, Request>)
    returns (values: Tables)
    requires Distinct(prepared)
    requires inserted.Keys == Ids(prepared) - before.logs.Keys
    requires forall e | e in prepared && e.id in inserted ::
               inserted[e.id] == Stored(before.apiKeys, before.upstreams, e)
    ensures Separates(before.tables, values, RecordAll(before, prepared).tables)
  {
    values := NO_TABLES;
    NothingAggregated(before, prepared);
    var i := 0;
    while i < |prepared|
      invariant 0 <= i <= |prepared|
      invariant AggregatedUpTo(before, prepared, i, values)
    {
      var e := prepared[i];
      AggregateStep(before, prepared, i, values);
      if e.id in inserted { values := Roll(values, inserted[e.id]); }
      i := i + 1;
    }
    assert prepared[..i] == prepared;
  }

  /** The upsert statement, row by row. */
  method UpsertUsageAggregates(table: map<UsageKey, Aggregate>, values: map<UsageKey, Aggregate>)
    returns (t: map<UsageKey, Aggregate>)
    ensures t.Keys == table.Keys + values.Keys
    ensures forall k | k in t :: t[k] == Add(Get(table, k), Get(values, k))
  {
    t := table;
    var rest := values.Keys;
    while rest != {}
      invariant rest <= values.Keys && t.Keys == table.Keys + (values.Keys - rest)
      invariant forall k | k in t :: t[k] == if k in rest then table[k] else Add(Get(table, k), Get(values, k))
      invariant forall k | k in rest && k in t :: k in table
      decreases rest
    {
      var k :| k in rest;
      t := Bump(t, k, values[k]);
      rest := rest - {k};
    }
  }

  method UpsertLifetimeAggregates(table: map<int, Lifetime>, values: map<int, Lifetime>) returns (t: map<int, Lifetime>)
    ensures t.Keys == table.Keys + values.Keys
    ensures forall u | u in t :: t[u] == AddLifetime(GetLifetime(table, u), GetLifetime(values, u))
  {
    t := map u | u in table.Keys + values.Keys :: AddLifetime(GetLifetime(table, u), GetLifetime(values, u));
  }

  // ------------------------------------------------- batches and repeats

  function Ids(entries: seq<Request>): set<string> { set e | e in entries :: e.id }

  predicate Distinct(entries: seq<Request>) {
    forall i, j | 0 <= i < j < |entries| :: entries[i].id != entries[j].id
  }

  function FirstOccurrences(entries: seq<Request>): (r: seq<Request>)
    ensures Ids(r) == Ids(entries) && Distinct(r)
  {
    if entries == [] then []
    else
      var b, e := entries[..|entries| - 1], entries[|entries| - 1];
      var r := FirstOccurrences(b);
      assert entries == b + [e];
      assert Ids(entries) == Ids(b) + {e.id};
      if e.id in Ids(b) then r
      else
        assert forall i | 0 <= i < |r| :: r[i].id in Ids(r);
        assert Ids(r + [e]) == Ids(r) + {e.id};
        r + [e]
  }

  lemma {:induction false} RecordedIds(db: Db, entries: seq<Request>)
    ensures RecordAll(db, entries).logs.Keys == db.logs.Keys + Ids(entries)
    ensures RecordAll(db, entries).apiKeys == db.apiKeys && RecordAll(db, entries).upstreams == db.upstreams
    decreases |entries|
  {
    if entries != [] {
      var b, e := entries[..|entries| - 1], entries[|entries| - 1];
      RecordedIds(db, b);
      assert entries == b + [e];
      assert Ids(entries) == Ids(b) + {e.id};
    }
  }

  /** Repeats inside a batch are recorded once. */
  lemma {:induction false} RepeatsChangeNothing(db: Db, entries: seq<Request>)
    ensures RecordAll(db, FirstOccurrences(entries)) == RecordAll(db, entries)
    decreases |entries|
  {
    if entries != [] {
      var b, e := entries[..|entries| - 1], entries[|entries| - 1];
      RepeatsChangeNothing(db, b);
      RecordedIds(db, b);
      if e.id !in Ids(b) { RecordAllSnoc(db, FirstOccurrences(b), e); }
    }
  }

  lemma IdsBefore(prepared: seq<Request>, i: nat)
    requires Distinct(prepared) && i < |prepared|
    ensures prepared[i].id !in Ids(prepared[..i])
    ensures prepared[i].id in Ids(prepared)
    ensures Ids(prepared[..i + 1]) == Ids(prepared[..i]) + {prepared[i].id}
  {
    assert prepared[..i + 1] == prepared[..i] + [prepared[i]];
    assert prepared[i] in prepared;
  }

  lemma RecordAllStep(db: Db, prepared: seq<Request>, i: nat)
    requires Distinct(prepared) && i < |prepared|
    ensures RecordAll(db, prepared[..i + 1]) == RecordOne(RecordAll(db, prepared[..i]), prepared[i])
    ensures prepared[i].id in RecordAll(db, prepared[..i]).logs <==> prepared[i].id in db.logs
    ensures prepared[i].id in Ids(prepared)
    ensures Ids(prepared[..i + 1]) == Ids(prepared[..i]) + {prepared[i].id}
    ensures RecordAll(db, prepared[..i]).apiKeys == db.apiKeys && RecordAll(db, prepared[..i]).upstreams == db.upstreams
  {
    IdsBefore(prepared, i);
    RecordedIds(db, prepared[..i]);
    assert prepared[..i + 1] == prepared[..i] + [prepared[i]];
    RecordAllSnoc(db, prepared[..i], prepared[i]);
  }

  ghost predicate InsertedUpTo(db: Db, prepared: seq<Request>, i: nat, logs: map<string, Request>,
      inserted: map<string, Request>)
    requires i <= |prepared|
  {
    && logs == RecordAll(db, prepared[..i]).logs
    && inserted.Keys == Ids(prepared[..i]) - db.logs.Keys
    && forall j | 0 <= j < i && prepared[j].id in inserted ::
         inserted[prepared[j].id] == Stored(db.apiKeys, db.upstreams, prepared[j])
  }

  lemma NothingInserted(db: Db, prepared: seq<Request>)
    ensures InsertedUpTo(db, prepared, 0, db.logs, map[])
  {
    assert prepared[..0] == [];
  }

  lemma AllInserted(db: Db, prepared: seq<Request>, logs: map<string, Request>, inserted: map<string, Request>)
    requires InsertedUpTo(db, prepared, |prepared|, logs, inserted)
    ensures logs == RecordAll(db, prepared).logs
    ensures inserted.Keys == Ids(prepared) - db.logs.Keys
    ensures forall e | e in prepared && e.id in inserted :: inserted[e.id] == Stored(db.apiKeys, db.upstreams, e)
  {
    assert prepared[..|prepared|] == prepared;
  }

  lemma InsertStep(db: Db, prepared: seq<Request>, i: nat, logs: map<string, Request>, inserted: map<string, Request>)
    requires Distinct(prepared) && i < |prepared| && InsertedUpTo(db, prepared, i, logs, inserted)
    ensures var row := Stored(db.apiKeys, db.upstreams, prepared[i]);
            if row.id in logs then InsertedUpTo(db, prepared, i + 1, logs, inserted)
            else InsertedUpTo(db, prepared, i + 1, logs[row.id := row], inserted[row.id := row])
  {
    RecordAllStep(db, prepared, i);
  }

  ghost predicate AggregatedUpTo(db: Db, prepared: seq<Request>, i: nat, values: Tables)
    requires i <= |prepared|
  {
    Separates(db.tables, values, RecordAll(db, prepared[..i]).tables)
  }

  lemma NothingAggregated(db: Db, prepared: seq<Request>)
    ensures AggregatedUpTo(db, prepared, 0, NO_TABLES)
  {
    NothingApart(db.tables.daily);
    NothingApart(db.tables.hourly);
    assert ApartLifetime(db.tables.lifetime, map[], db.tables.lifetime);
    assert prepared[..0] == [];
  }

  lemma NothingApart<K(!new)>(table: map<K, Aggregate>)
    ensures Apart(table, map[], table)
  {
    forall k | k in table ensures table[k] == Add(Get(table, k), ZERO) { AddZero(table[k]); }
  }

  // One step of the aggregation keeps the distance between the tables.
  lemma AggregateStep(db: Db, prepared: seq<Request>, i: nat, values: Tables)
    requires Distinct(prepared) && i < |prepared|
    requires AggregatedUpTo(db, prepared, i, values)
    ensures prepared[i].id in Ids(prepared) && prepared[i] in prepared
    ensures AggregatedUpTo(db, prepared, i + 1,
              if prepared[i].id in db.logs then values else Roll(values, Stored(db.apiKeys, db.upstreams, prepared[i])))
  {
    RecordAllStep(db, prepared, i);
    if prepared[i].id !in db.logs {
      SeparatesGrows(db.tables, values, RecordAll(db, prepared[..i]).tables,
          Stored(db.apiKeys, db.upstreams, prepared[i]));
    }
  }

  lemma AddAssoc(a: Aggregate, b: Aggregate, c: Aggregate)
    ensures Add(a, Add(b, c)) == Add(Add(a, b), c)
  {}

  lemma AddComm(a: Aggregate, b: Aggregate)
    ensures Add(a, b) == Add(b, a)
  {}

  lemma AddZero(a: Aggregate)
    ensures Add(ZERO, a) == a && Add(a, ZERO) == a
  {}

  /** `values` is what separates `table` from `target`. */
  ghost predicate Apart<K(!new)>(table: map<K, Aggregate>, values: map<K, Aggregate>, target: map<K, Aggregate>) {
    && target.Keys == table.Keys + values.Keys
    && forall k | k in target :: target[k] == Add(Get(table, k), Get(values, k))
  }

  ghost predicate ApartLifetime(table: map<int, Lifetime>, values: map<int, Lifetime>, target: map<int, Lifetime>) {
    && target.Keys == table.Keys + values.Keys
    && forall u | u in target :: target[u] == AddLifetime(GetLifetime(table, u), GetLifetime(values, u))
  }

  ghost predicate Separates(t: Tables, values: Tables, target: Tables) {
    && Apart(t.daily, values.daily, target.daily)
    && Apart(t.hourly, values.hourly, target.hourly)
    && ApartLifetime(t.lifetime, values.lifetime, target.lifetime)
  }

  lemma ApartGrows<K(!new)>(table: map<K, Aggregate>, values: map<K, Aggregate>, target: map<K, Aggregate>, k: K,
      v: Aggregate)
    requires Apart(table, values, target)
    ensures Apart(table, Bump(values, k, v), Bump(target, k, v))
  {
    AddZero(ZERO);
    assert Get(target, k) == Add(Get(table, k), Get(values, k));
    AddAssoc(Get(table, k), Get(values, k), v);
  }

  lemma ApartLifetimeGrows(table: map<int, Lifetime>, values: map<int, Lifetime>, target: map<int, Lifetime>, u: int,
      v: Lifetime)
    requires ApartLifetime(table, values, target)
    ensures ApartLifetime(table, BumpLifetime(values, u, v), BumpLifetime(target, u, v))
  {
    var values', target' := BumpLifetime(values, u, v), BumpLifetime(target, u, v);
    forall w | w in target' ensures target'[w] == AddLifetime(GetLifetime(table, w), GetLifetime(values', w)) {
      AddLifetimeAssoc(GetLifetime(table, u), GetLifetime(values, u), v);
      if w == u && u !in target { assert GetLifetime(table, u) == GetLifetime(values, u) == NO_LIFETIME; }
    }
  }

  lemma AddLifetimeAssoc(a: Lifetime, b: Lifetime, c: Lifetime)
    ensures AddLifetime(a, AddLifetime(b, c)) == AddLifetime(AddLifetime(a, b), c)
  {}

  lemma ApartLifetimeOnce(table: map<int, Lifetime>, values: map<int, Lifetime>, target: map<int, Lifetime>,
      other: map<int, Lifetime>)
    requires ApartLifetime(table, values, target) && ApartLifetime(table, values, other)
    ensures target == other
  {
    assert target.Keys == other.Keys;
    forall u | u in target ensures target[u] == other[u] {}
  }

  lemma SeparatesGrows(t: Tables, values: Tables, target: Tables, row: Request)
    requires Separates(t, values, target)
    ensures Separates(t, Roll(values, row), Roll(target, row))
  {
    if Counted(row) {
      var v := AggregateRequest(row);
      ApartGrows(t.daily, values.daily, target.daily, DayKey(row), v);
      ApartGrows(t.hourly, values.hourly, target.hourly, HourKey(row), v);
      ApartLifetimeGrows(t.lifetime, values.lifetime, target.lifetime, row.upstream.value, LifetimePart(v));
    }
  }

  lemma ApartOnce<K(!new)>(table: map<K, Aggregate>, values: map<K, Aggregate>, target: map<K, Aggregate>,
      other: map<K, Aggregate>)
    requires Apart(table, values, target) && Apart(table, values, other)
    ensures target == other
  {}

  lemma SeparatesOnce(t: Tables, values: Tables, target: Tables, other: Tables)
    requires Separates(t, values, target) && Separates(t, values, other)
    ensures target == other
  {
    ApartOnce(t.daily, values.daily, target.daily, other.daily);
    ApartOnce(t.hourly, values.hourly, target.hourly, other.hourly);
    ApartLifetimeOnce(t.lifetime, values.lifetime, target.lifetime, other.lifetime);
  }

  /** However a stream is cut into batches. */
  function RecordBatches(db: Db, batches: seq<seq<Request>>): Db {
    if batches == [] then db
    else RecordAll(RecordBatches(db, batches[..|batches| - 1]), batches[|batches| - 1])
  }

  function Flatten(batches: seq<seq<Request>>): seq<Request> {
    if batches == [] then [] else Flatten(batches[..|batches| - 1]) + batches[|batches| - 1]
  }

  lemma {:induction false} RecordAllCut(db: Db, a: seq<Request>, b: seq<Request>)
    ensures RecordAll(RecordAll(db, a), b) == RecordAll(db, a + b)
    decreases |b|
  {
    if b == [] {
      assert a + b == a;
    } else {
      var c, e := b[..|b| - 1], b[|b| - 1];
      RecordAllCut(db, a, c);
      assert (a + c) + [e] == a + b;
      RecordAllSnoc(db, a + c, e);
    }
  }

  lemma {:induction false} BatchesAreIrrelevant(db: Db, batches: seq<seq<Request>>)
    ensures RecordBatches(db, batches) == RecordAll(db, FirstOccurrences(Flatten(batches)))
    decreases |batches|
  {
    if batches != [] {
      var init := batches[..|batches| - 1];
      BatchesAreIrrelevant(db, init);
      RepeatsChangeNothing(db, Flatten(init));
      RecordAllCut(db, Flatten(init), batches[|batches| - 1]);
    }
    RepeatsChangeNothing(db, Flatten(batches));
  }

  lemma {:induction false} AllRepeats(entries: seq<Request>, again: seq<Request>)
    requires Ids(again) <= Ids(entries)
    ensures FirstOccurrences(entries + again) == FirstOccurrences(entries)
    decreases |again|
  {
    if again == [] {
      assert entries + again == entries;
    } else {
      var b, e := again[..|again| - 1], again[|again| - 1];
      assert again == b + [e];
      assert Ids(again) == Ids(b) + {e.id};
      AllRepeats(entries, b);
      assert (entries + again)[..|entries + again| - 1] == entries + b;
      assert Ids(entries + b) == Ids(entries) + Ids(b);
    }
  }

  /** Sending again what has been committed, in whatever pieces and places, changes nothing. */
  lemma ResubmissionChangesNothing(db: Db, batches: seq<seq<Request>>, again: seq<Request>, later: seq<seq<Request>>)
    requires Ids(again) <= Ids(Flatten(batches))
    ensures RecordBatches(db, batches + [again] + later) == RecordBatches(db, batches + later)
  {
    BatchesCut(db, batches + [again], later);
    BatchesCut(db, batches, later);
    assert (batches + [again])[..|batches|] == batches;
    BatchesAreIrrelevant(db, batches);
    BatchesAreIrrelevant(db, batches + [again]);
    AllRepeats(Flatten(batches), again);
  }

  lemma {:induction false} BatchesCut(db: Db, a: seq<seq<Request>>, b: seq<seq<Request>>)
    ensures RecordBatches(db, a + b) == RecordBatches(RecordBatches(db, a), b)
    decreases |b|
  {
    if b == [] {
      assert a + b == a;
    } else {
      var init := b[..|b| - 1];
      BatchesCut(db, a, init);
      assert (a + b)[..|a + b| - 1] == a + init;
    }
  }

  // --------------------------------------------- what the roll-ups add up to

  ghost function Sum<K(!new)>(m: map<K, Aggregate>): Aggregate
    decreases |m|
  {
    if m == map[] then ZERO
    else
      var k :| k in m;
      assert |m - {k}| < |m| by { SmallerWithout(m, k); }
      Add(m[k], Sum(m - {k}))
  }

  lemma SmallerWithout<K>(m: map<K, Aggregate>, k: K)
    requires k in m
    ensures |m - {k}| < |m|
  {
    assert m == (m - {k})[k := m[k]];
    assert k !in m - {k};
    assert (m - {k}).Keys == m.Keys - {k};
  }

  /** The sum does not depend on the order it is taken in. */
  lemma {:induction false} SumWithout<K(!new)>(m: map<K, Aggregate>, k: K)
    requires k in m
    ensures Sum(m) == Add(m[k], Sum(m - {k}))
    decreases |m|
  {
    SmallerWithout(m, k);
    var j :| j in m && Sum(m) == Add(m[j], Sum(m - {j}));
    if j != k {
      SmallerWithout(m, j);
      SumWithout(m - {j}, k);
      SumWithout(m - {k}, j);
      assert m - {j} - {k} == m - {k} - {j};
      var rest := Sum(m - {j} - {k});
      AddAssoc(m[j], m[k], rest);
      AddAssoc(m[k], m[j], rest);
      AddComm(m[j], m[k]);
    }
  }

  lemma SumPut<K(!new)>(m: map<K, Aggregate>, k: K, v: Aggregate)
    requires k !in m
    ensures Sum(m[k := v]) == Add(v, Sum(m))
  {
    SumWithout(m[k := v], k);
    assert m[k := v] - {k} == m;
  }

  lemma SumBump<K(!new)>(m: map<K, Aggregate>, k: K, v: Aggregate)
    ensures Sum(Bump(m, k, v)) == Add(Sum(m), v)
  {
    var rest := m - {k};
    assert Bump(m, k, v) == rest[k := Add(Get(m, k), v)];
    SumPut(rest, k, Add(Get(m, k), v));
    if k in m {
      SumWithout(m, k);
    } else {
      assert rest == m;
    }
  }

  /** The rows of `m` that belong to `g`. */
  ghost function Group<K(!new), G>(m: map<K, Aggregate>, of: K -> G, g: G): map<K, Aggregate> {
    map k | k in m && of(k) == g :: m[k]
  }

  lemma GroupBump<K(!new), G>(m: map<K, Aggregate>, k: K, v: Aggregate, of: K -> G, g: G)
    ensures Sum(Group(Bump(m, k, v), of, g))
         == if of(k) == g then Add(Sum(Group(m, of, g)), v) else Sum(Group(m, of, g))
  {
    if of(k) == g {
      assert Group(Bump(m, k, v), of, g) == Bump(Group(m, of, g), k, v);
      SumBump(Group(m, of, g), k, v);
    } else {
      assert Group(Bump(m, k, v), of, g) == Group(m, of, g);
    }
  }

  function DayOf(hour: UsageKey): UsageKey { hour.(period := hour.period / 24) }

  function UpstreamOf(k: UsageKey): int { k.upstream }

  /** The rows of the three roll-up tables. */
  datatype Cell = DayCell(key: UsageKey) | HourCell(key: UsageKey) | LifeCell(upstream: int)

  predicate Belongs(row: Request, cell: Cell) {
    && Counted(row)
    && match cell
       case DayCell(k) => DayKey(row) == k
       case HourCell(k) => HourKey(row) == k
       case LifeCell(u) => row.upstream.value == u
  }

  /** The logged requests behind one roll-up row. */
  ghost function Behind(logs: map<string, Request>, cell: Cell): map<string, Aggregate> {
    map id | id in logs && Belongs(logs[id], cell) :: AggregateRequest(logs[id])
  }

  /** Roll-ups agree with the log, and with each other. */
  ghost predicate RollupsAddUp(db: Db) {
    && (forall k :: LogsAddUp(db.logs, db.tables, k))
    && (forall u :: LifetimeAddsUp(db.logs, db.tables, u))
    && (forall k, u :: TablesAddUp(db.tables, k, u))
  }

  ghost predicate LogsAddUp(logs: map<string, Request>, t: Tables, k: UsageKey) {
    Get(t.daily, k) == Sum(Behind(logs, DayCell(k))) && Get(t.hourly, k) == Sum(Behind(logs, HourCell(k)))
  }

  ghost predicate LifetimeAddsUp(logs: map<string, Request>, t: Tables, u: int) {
    GetLifetime(t.lifetime, u) == LifetimePart(Sum(Behind(logs, LifeCell(u))))
  }

  /** A day is the sum of its hours, a lifetime the sum of its upstream's days. */
  ghost predicate TablesAddUp(t: Tables, k: UsageKey, u: int) {
    && Get(t.daily, k) == Sum(Group(t.hourly, DayOf, k))
    && GetLifetime(t.lifetime, u) == LifetimePart(Sum(Group(t.daily, UpstreamOf, u)))
  }

  lemma EmptyAddsUp(apiKeys: set<int>, upstreams: set<int>)
    ensures RollupsAddUp(Db(apiKeys, upstreams, map[], NO_TABLES))
  {
    var none: map<UsageKey, Aggregate> := map[];
    forall k: UsageKey, u: int
      ensures Behind(map[], DayCell(k)) == map[] && Behind(map[], HourCell(k)) == map[]
      ensures Behind(map[], LifeCell(u)) == map[]
      ensures Group(none, DayOf, k) == none && Group(none, UpstreamOf, u) == none
    {}
  }

  lemma BehindLogged(logs: map<string, Request>, row: Request, cell: Cell)
    requires row.id !in logs
    ensures Sum(Behind(logs[row.id := row], cell))
         == if Belongs(row, cell) then Add(Sum(Behind(logs, cell)), AggregateRequest(row)) else Sum(Behind(logs, cell))
  {
    var was := Behind(logs, cell);
    if Belongs(row, cell) {
      var v := AggregateRequest(row);
      assert Behind(logs[row.id := row], cell) == was[row.id := v];
      SumPut(was, row.id, v);
      AddComm(v, Sum(was));
    } else {
      assert Behind(logs[row.id := row], cell) == was;
    }
  }

  lemma HoursMakeDays(row: Request)
    requires Counted(row)
    ensures DayOf(HourKey(row)) == DayKey(row)
  {}

  lemma RollKeepsSums(t: Tables, row: Request, k: UsageKey, u: int)
    requires TablesAddUp(t, k, u)
    ensures TablesAddUp(Roll(t, row), k, u)
  {
    if Counted(row) {
      var v := AggregateRequest(row);
      HoursMakeDays(row);
      DayGrows(t.daily, t.hourly, HourKey(row), v, k);
      LifetimeGrows(t.lifetime, t.daily, DayKey(row), v, u);
    }
  }

  lemma DayGrows(daily: map<UsageKey, Aggregate>, hourly: map<UsageKey, Aggregate>, hour: UsageKey, v: Aggregate,
      k: UsageKey)
    requires Get(daily, k) == Sum(Group(hourly, DayOf, k))
    ensures Get(Bump(daily, DayOf(hour), v), k) == Sum(Group(Bump(hourly, hour, v), DayOf, k))
  {
    GroupBump(hourly, hour, v, DayOf, k);
  }

  lemma LifetimeGrows(lifetime: map<int, Lifetime>, daily: map<UsageKey, Aggregate>, day: UsageKey, v: Aggregate,
      u: int)
    requires GetLifetime(lifetime, u) == LifetimePart(Sum(Group(daily, UpstreamOf, u)))
    ensures GetLifetime(BumpLifetime(lifetime, day.upstream, LifetimePart(v)), u)
         == LifetimePart(Sum(Group(Bump(daily, day, v), UpstreamOf, u)))
  {
    GroupBump(daily, day, v, UpstreamOf, u);
  }

  lemma RollKeepsLogSums(logs: map<string, Request>, t: Tables, row: Request, k: UsageKey)
    requires row.id !in logs && LogsAddUp(logs, t, k)
    ensures LogsAddUp(logs[row.id := row], Roll(t, row), k)
  {
    BehindLogged(logs, row, DayCell(k));
    BehindLogged(logs, row, HourCell(k));
  }

  lemma RollKeepsLifetimes(logs: map<string, Request>, t: Tables, row: Request, u: int)
    requires row.id !in logs && LifetimeAddsUp(logs, t, u)
    ensures LifetimeAddsUp(logs[row.id := row], Roll(t, row), u)
  {
    BehindLogged(logs, row, LifeCell(u));
    if Counted(row) {
      LifetimePartAdds(Sum(Behind(logs, LifeCell(u))), AggregateRequest(row));
      LifetimeRow(t.lifetime, row.upstream.value, LifetimePart(AggregateRequest(row)), u);
    }
  }

  lemma LifetimePartAdds(a: Aggregate, b: Aggregate)
    ensures LifetimePart(Add(a, b)) == AddLifetime(LifetimePart(a), LifetimePart(b))
  {}

  lemma LifetimeRow(m: map<int, Lifetime>, w: int, v: Lifetime, u: int)
    ensures GetLifetime(BumpLifetime(m, w, v), u)
         == if u == w then AddLifetime(GetLifetime(m, u), v) else GetLifetime(m, u)
  {}

  lemma RecordOneAddsUp(db: Db, e: Request)
    requires RollupsAddUp(db)
    ensures RollupsAddUp(RecordOne(db, e))
  {
    if e.id !in db.logs {
      var row := Stored(db.apiKeys, db.upstreams, e);
      forall k: UsageKey ensures LogsAddUp(RecordOne(db, e).logs, RecordOne(db, e).tables, k) {
        RollKeepsLogSums(db.logs, db.tables, row, k);
      }
      forall u: int ensures LifetimeAddsUp(RecordOne(db, e).logs, RecordOne(db, e).tables, u) {
        RollKeepsLifetimes(db.logs, db.tables, row, u);
      }
      forall k: UsageKey, u: int ensures TablesAddUp(RecordOne(db, e).tables, k, u) {
        RollKeepsSums(db.tables, row, k, u);
      }
    }
  }

  lemma {:induction false} RecordAllAddsUp(db: Db, entries: seq<Request>)
    requires RollupsAddUp(db)
    ensures RollupsAddUp(RecordAll(db, entries))
    decreases |entries|
  {
    if entries != [] {
      RecordAllAddsUp(db, entries[..|entries| - 1]);
      RecordOneAddsUp(RecordAll(db, entries[..|entries| - 1]), entries[|entries| - 1]);
    }
  }

  /** From an empty log, every batching of every stream leaves roll-ups that add up. */
  lemma RollupsAlwaysAddUp(apiKeys: set<int>, upstreams: set<int>, batches: seq<seq<Request>>)
    ensures RollupsAddUp(RecordBatches(Db(apiKeys, upstreams, map[], NO_TABLES), batches))
  {
    EmptyAddsUp(apiKeys, upstreams);
    BatchesAreIrrelevant(Db(apiKeys, upstreams, map[], NO_TABLES), batches);
    RecordAllAddsUp(Db(apiKeys, upstreams, map[], NO_TABLES), FirstOccurrences(Flatten(batches)));
  }
}
