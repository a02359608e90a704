/** What every cell of the roll-ups holds, column by column and in plain terms of
    the logged requests: how many there are, how many of a kind, or the sum of one
    of their counts. And what a logged row holds of its request. */
module RollupCells {
  import opened Options
  import opened Rollup

  /** The rows of a usage key: known key and upstream, and a time within its period
      of so many seconds since the epoch. */
  function RowsOf(logs: map<string, Request>, k: UsageKey, seconds: int): set<string> {
    set id | id in logs
             && logs[id].apiKey == k.apiKey && logs[id].apiKey != 0 && logs[id].upstream == Some(k.upstream)
             && (if logs[id].group.Some? then logs[id].group.value else 0) == k.group
             && logs[id].protocol == k.protocol && logs[id].model == k.model
             && seconds * k.period <= logs[id].createdAt < seconds * (k.period + 1)
  }

  function RowsOfUpstream(logs: map<string, Request>, u: int): set<string> {
    set id | id in logs && logs[id].apiKey != 0 && logs[id].upstream == Some(u)
  }

  /** The columns that are sums of what the rows report. */
  datatype Column = Input | Output | CacheRead | CacheWrite | Uncached | Cost

  function Reported(row: Request, c: Column): Option<int> {
    match c
    case Input => row.input
    case Output => row.output
    case CacheRead => row.cached
    case CacheWrite => row.cacheCreation
    case Uncached => row.uncached
    case Cost => row.cost
  }

  ghost function Total(logs: map<string, Request>, ids: set<string>, c: Column): int
    requires ids <= logs.Keys
  {
    if ids == {} then 0
    else
      var id :| id in ids;
      (if Reported(logs[id], c).Some? then Reported(logs[id], c).value else 0) + Total(logs, ids - {id}, c)
  }

  /** Every column of a daily or hourly row, for the requests behind it. */
  ghost predicate Holds(a: Aggregate, logs: map<string, Request>, ids: set<string>)
    requires ids <= logs.Keys
  {
    && a.requests == |ids|
    && a.successes == |set id | id in ids && 200 <= logs[id].status <= 399 && logs[id].errorCode == ""|
    && a.cacheHits == |set id | id in ids && logs[id].cached.Some? && logs[id].cached.value > 0|
    && a.cacheWriteRequests == |set id | id in ids && logs[id].cacheCreation.Some?|
    && a.usageRequests == |set id | id in ids && logs[id].input.Some?|
    && a.outputUsageRequests == |set id | id in ids && logs[id].output.Some?|
    && a.costKnown == |set id | id in ids && logs[id].cost.Some?|
    && a.input == Total(logs, ids, Input) && a.output == Total(logs, ids, Output)
    && a.cacheRead == Total(logs, ids, CacheRead) && a.cacheWrite == Total(logs, ids, CacheWrite)
    && a.uncached == Total(logs, ids, Uncached) && a.cost == Total(logs, ids, Cost)
  }

  // ------------------------------------------------------ sums and counts

  lemma {:induction false} TotalWithout(logs: map<string, Request>, ids: set<string>, id: string, c: Column)
    requires ids <= logs.Keys && id in ids
    ensures Total(logs, ids, c)
         == (if Reported(logs[id], c).Some? then Reported(logs[id], c).value else 0) + Total(logs, ids - {id}, c)
    decreases |ids|
  {
    var j :| j in ids && Total(logs, ids, c)
           == (if Reported(logs[j], c).Some? then Reported(logs[j], c).value else 0) + Total(logs, ids - {j}, c);
    if j != id {
      TotalWithout(logs, ids - {j}, id, c);
      TotalWithout(logs, ids - {id}, j, c);
      assert ids - {j} - {id} == ids - {id} - {j};
    }
  }

  lemma CountWithout(ids: set<string>, some: set<string>, id: string)
    requires id in ids && some <= ids
    ensures |some| == (if id in some then 1 else 0) + |some - {id}|
  {}

  /** One row more: each column moves by what the row reports. */
  lemma SumMoves(logs: map<string, Request>, ids: set<string>, id: string, c: Column)
    requires ids <= logs.Keys && id in ids
    ensures var v, a := AggregateRequest(logs[id]), Total(logs, ids, c) - Total(logs, ids - {id}, c);
            a == match c
                 case Input => v.input
                 case Output => v.output
                 case CacheRead => v.cacheRead
                 case CacheWrite => v.cacheWrite
                 case Uncached => v.uncached
                 case Cost => v.cost
  {
    TotalWithout(logs, ids, id, c);
  }

  lemma SumsHold(logs: map<string, Request>, ids: set<string>, id: string, a: Aggregate)
    requires ids <= logs.Keys && id in ids && Holds(a, logs, ids - {id})
    ensures var b := Add(AggregateRequest(logs[id]), a);
            && b.input == Total(logs, ids, Input) && b.output == Total(logs, ids, Output)
            && b.cacheRead == Total(logs, ids, CacheRead) && b.cacheWrite == Total(logs, ids, CacheWrite)
            && b.uncached == Total(logs, ids, Uncached) && b.cost == Total(logs, ids, Cost)
  {
    SumMoves(logs, ids, id, Input);
    SumMoves(logs, ids, id, Output);
    SumMoves(logs, ids, id, CacheRead);
    SumMoves(logs, ids, id, CacheWrite);
    SumMoves(logs, ids, id, Uncached);
    SumMoves(logs, ids, id, Cost);
  }

  /** The kinds of requests that are counted. */
  datatype Kind = Success | Hit | WroteCache | WithInput | WithOutput | WithCost

  predicate IsKind(row: Request, kind: Kind) {
    match kind
    case Success => 200 <= row.status <= 399 && row.errorCode == ""
    case Hit => row.cached.Some? && row.cached.value > 0
    case WroteCache => row.cacheCreation.Some?
    case WithInput => row.input.Some?
    case WithOutput => row.output.Some?
    case WithCost => row.cost.Some?
  }

  function OfKind(logs: map<string, Request>, ids: set<string>, kind: Kind): set<string>
    requires ids <= logs.Keys
  {
    set id | id in ids && IsKind(logs[id], kind)
  }

  function CountOf(a: Aggregate, kind: Kind): int {
    match kind
    case Success => a.successes
    case Hit => a.cacheHits
    case WroteCache => a.cacheWriteRequests
    case WithInput => a.usageRequests
    case WithOutput => a.outputUsageRequests
    case WithCost => a.costKnown
  }

  lemma CountMoves(logs: map<string, Request>, ids: set<string>, id: string, kind: Kind)
    requires ids <= logs.Keys && id in ids
    ensures |OfKind(logs, ids, kind)| == CountOf(AggregateRequest(logs[id]), kind) + |OfKind(logs, ids - {id}, kind)|
  {
    CountWithout(ids, OfKind(logs, ids, kind), id);
    assert OfKind(logs, ids, kind) - {id} == OfKind(logs, ids - {id}, kind);
  }

  ghost predicate Counts(a: Aggregate, logs: map<string, Request>, ids: set<string>)
    requires ids <= logs.Keys
  {
    a.requests == |ids| && forall kind: Kind :: CountOf(a, kind) == |OfKind(logs, ids, kind)|
  }

  lemma CountsHold(logs: map<string, Request>, ids: set<string>, id: string, a: Aggregate)
    requires ids <= logs.Keys && id in ids && Counts(a, logs, ids - {id})
    ensures Counts(Add(AggregateRequest(logs[id]), a), logs, ids)
  {
    var b := Add(AggregateRequest(logs[id]), a);
    forall kind: Kind ensures CountOf(b, kind) == |OfKind(logs, ids, kind)| {
      CountMoves(logs, ids, id, kind);
      assert CountOf(b, kind) == CountOf(AggregateRequest(logs[id]), kind) + CountOf(a, kind);
    }
  }

  lemma KindsAreCounts(a: Aggregate, logs: map<string, Request>, ids: set<string>)
    requires ids <= logs.Keys && a.requests == |ids|
    requires a.input == Total(logs, ids, Input) && a.output == Total(logs, ids, Output)
    requires a.cacheRead == Total(logs, ids, CacheRead) && a.cacheWrite == Total(logs, ids, CacheWrite)
    requires a.uncached == Total(logs, ids, Uncached) && a.cost == Total(logs, ids, Cost)
    ensures Counts(a, logs, ids) <==> Holds(a, logs, ids)
  {
    assert OfKind(logs, ids, Success)
        == set id | id in ids && 200 <= logs[id].status <= 399 && logs[id].errorCode == "";
    assert OfKind(logs, ids, Hit) == set id | id in ids && logs[id].cached.Some? && logs[id].cached.value > 0;
    assert OfKind(logs, ids, WroteCache) == set id | id in ids && logs[id].cacheCreation.Some?;
    assert OfKind(logs, ids, WithInput) == set id | id in ids && logs[id].input.Some?;
    assert OfKind(logs, ids, WithOutput) == set id | id in ids && logs[id].output.Some?;
    assert OfKind(logs, ids, WithCost) == set id | id in ids && logs[id].cost.Some?;
    assert CountOf(a, Success) == a.successes && CountOf(a, Hit) == a.cacheHits;
    assert CountOf(a, WroteCache) == a.cacheWriteRequests && CountOf(a, WithInput) == a.usageRequests;
    assert CountOf(a, WithOutput) == a.outputUsageRequests && CountOf(a, WithCost) == a.costKnown;
  }

  lemma {:induction false} SumHolds(logs: map<string, Request>, ids: set<string>, m: map<string, Aggregate>)
    requires ids <= logs.Keys && m.Keys == ids && forall id | id in ids :: m[id] == AggregateRequest(logs[id])
    ensures Holds(Sum(m), logs, ids)
    decreases |ids|
  {
    if ids == {} {
      assert m == map[];
      forall kind: Kind ensures CountOf(ZERO, kind) == |OfKind(logs, ids, kind)| {
        assert OfKind(logs, ids, kind) == {};
      }
      KindsAreCounts(ZERO, logs, ids);
    } else {
      var id :| id in ids;
      var rest := Sum(m - {id});
      SumWithout(m, id);
      SumHolds(logs, ids - {id}, m - {id});
      KindsAreCounts(rest, logs, ids - {id});
      SumsHold(logs, ids, id, rest);
      CountsHold(logs, ids, id, rest);
      KindsAreCounts(Sum(m), logs, ids);
    }
  }

  // --------------------------------------------------------- the theorems

  lemma PeriodOf(at: int, period: int, seconds: int)
    requires seconds == 3600 || seconds == 86400
    ensures at / seconds == period <==> seconds * period <= at < seconds * (period + 1)
  {}

  lemma RowsBehind(logs: map<string, Request>, k: UsageKey)
    ensures Behind(logs, DayCell(k)).Keys == RowsOf(logs, k, 86400)
    ensures Behind(logs, HourCell(k)).Keys == RowsOf(logs, k, 3600)
  {
    forall id | id in logs
      ensures Belongs(logs[id], DayCell(k)) <==> id in RowsOf(logs, k, 86400)
      ensures Belongs(logs[id], HourCell(k)) <==> id in RowsOf(logs, k, 3600)
    {
      PeriodOf(logs[id].createdAt, k.period, 86400);
      PeriodOf(logs[id].createdAt, k.period, 3600);
    }
  }

  /** Wherever the roll-ups add up, and that is after every run from an empty log,
      each cell of a daily and an hourly row is the count, or the sum, of just the
      requests it stands for. */
  lemma CellsAreCounts(db: Db, k: UsageKey)
    requires RollupsAddUp(db)
    ensures Holds(Get(db.tables.daily, k), db.logs, RowsOf(db.logs, k, 86400))
    ensures Holds(Get(db.tables.hourly, k), db.logs, RowsOf(db.logs, k, 3600))
  {
    assert LogsAddUp(db.logs, db.tables, k);
    RowsBehind(db.logs, k);
    SumHolds(db.logs, RowsOf(db.logs, k, 86400), Behind(db.logs, DayCell(k)));
    SumHolds(db.logs, RowsOf(db.logs, k, 3600), Behind(db.logs, HourCell(k)));
  }

  /** Every batching of every stream, from an empty log. */
  lemma CellsOfAnyStream(apiKeys: set<int>, upstreams: set<int>, batches: seq<seq<Request>>, k: UsageKey)
    ensures var db := RecordBatches(Db(apiKeys, upstreams, map[], NO_TABLES), batches);
            && Holds(Get(db.tables.daily, k), db.logs, RowsOf(db.logs, k, 86400))
            && Holds(Get(db.tables.hourly, k), db.logs, RowsOf(db.logs, k, 3600))
  {
    RollupsAlwaysAddUp(apiKeys, upstreams, batches);
    CellsAreCounts(RecordBatches(Db(apiKeys, upstreams, map[], NO_TABLES), batches), k);
  }

  /** And a lifetime row counts all requests of its upstream. */
  lemma LifetimesAreCounts(db: Db, u: int)
    requires RollupsAddUp(db)
    ensures var ids, life := RowsOfUpstream(db.logs, u), GetLifetime(db.tables.lifetime, u);
            && life.requests == |ids|
            && life.costKnown == |set id | id in ids && db.logs[id].cost.Some?|
            && life.cost == Total(db.logs, ids, Cost)
  {
    assert LifetimeAddsUp(db.logs, db.tables, u);
    assert Behind(db.logs, LifeCell(u)).Keys == RowsOfUpstream(db.logs, u);
    SumHolds(db.logs, RowsOfUpstream(db.logs, u), Behind(db.logs, LifeCell(u)));
  }

  /** A logged row is its request, but for a key or an upstream that is gone. */
  ghost predicate LoggedAs(db: Db, e: Request, row: Request) {
    && row.apiKey == (if e.apiKey in db.apiKeys then e.apiKey else 0)
    && row.upstream == (if e.upstream.Some? && e.upstream.value !in db.upstreams then None else e.upstream)
    && row.(apiKey := e.apiKey, upstream := e.upstream) == e
  }

  /** The log of a stream: one row for each id, that of its first request. */
  lemma {:induction false} FirstRequestIsLogged(db: Db, entries: seq<Request>, i: nat)
    requires i < |entries| && entries[i].id !in db.logs
    requires forall j | 0 <= j < i :: entries[j].id != entries[i].id
    ensures entries[i].id in RecordAll(db, entries).logs
    ensures LoggedAs(db, entries[i], RecordAll(db, entries).logs[entries[i].id])
    decreases |entries|
  {
    var init := entries[..|entries| - 1];
    RecordedIds(db, init);
    if i == |init| {
      assert entries[i].id !in Ids(init);
    } else {
      assert init[i] == entries[i];
      FirstRequestIsLogged(db, init, i);
    }
  }

  lemma {:induction false} OldRowsStay(db: Db, entries: seq<Request>, id: string)
    requires id in db.logs
    ensures id in RecordAll(db, entries).logs && RecordAll(db, entries).logs[id] == db.logs[id]
    decreases |entries|
  {
    if entries != [] { OldRowsStay(db, entries[..|entries| - 1], id); }
  }
}
