/** The pricing cache of internal/store/pricing.go. An entry holds either the
    whole price history of a model or one window of it in which the selected
    rate cannot change. Prices are timed in microseconds, look-ups in nanoseconds. */
module Pricing {
  import opened Options
  import opened CacheProtocol

  const MAX_HISTORY := 256
  const MAX_ENTRIES := 1024
  const TTL := 30_000_000_000

  datatype Rates = Rates(input: int, output: int, cacheRead: int, cacheWrite: int)

  datatype Price = Price(model: string, rates: Rates, validFrom: int, validTo: Option<int>)

  /** The price table: the profile of each upstream, its model aliases, and the
      prices of each profile. */
  datatype Tariff = Tariff(
    profiles: map<int, int>, aliases: map<int, map<string, string>>, prices: map<int, set<Price>>)

  datatype Key = Key(upstream: int, model: string)

  /** UNIQUE(profile_id, model, valid_from). */
  ghost predicate WellFormed(d: Tariff) {
    forall profile, p, q | profile in d.prices && p in d.prices[profile] && q in d.prices[profile]
      && p.model == q.model && p.validFrom == q.validFrom :: p == q
  }

  function Alias(d: Tariff, key: Key): string {
    if key.upstream in d.aliases && key.model in d.aliases[key.upstream] then d.aliases[key.upstream][key.model]
    else key.model
  }

  function Candidates(d: Tariff, key: Key): set<Price> {
    if key.upstream in d.profiles && d.profiles[key.upstream] in d.prices then
      set p | p in d.prices[d.profiles[key.upstream]] && (p.model == key.model || p.model == Alias(d, key))
    else {}
  }

  predicate ValidAt(p: Price, t: int) {
    p.validFrom <= t && (p.validTo.None? || t < p.validTo.value)
  }

  /** The exact model before its alias, then the latest start first. */
  predicate Before(key: Key, p: Price, q: Price) {
    if (p.model == key.model) != (q.model == key.model) then p.model == key.model
    else p.validFrom > q.validFrom
  }

  /** Direct selection: the first valid candidate. */
  ghost predicate Selected(d: Tariff, key: Key, t: int, p: Price) {
    && p in Candidates(d, key) && ValidAt(p, t)
    && forall q | q in Candidates(d, key) && ValidAt(q, t) :: q == p || Before(key, p, q)
  }

  ghost function DirectRate(d: Tariff, key: Key, t: int): Option<Rates> {
    if p :| Selected(d, key, t, p) then Some(p.rates) else None
  }

  // Two different candidates are always ordered one way or the other, never both.
  lemma CandidatesAreOrdered(d: Tariff, key: Key, p: Price, q: Price)
    requires WellFormed(d) && p in Candidates(d, key) && q in Candidates(d, key) && p != q
    ensures Before(key, p, q) <==> !Before(key, q, p)
  {
    var profile := d.profiles[key.upstream];
    assert p in d.prices[profile] && q in d.prices[profile];
  }

  lemma DirectIs(d: Tariff, key: Key, t: int, p: Price)
    requires WellFormed(d) && Selected(d, key, t, p)
    ensures DirectRate(d, key, t) == Some(p.rates)
  {
    forall q | Selected(d, key, t, q) ensures q == p {
      if q != p { CandidatesAreOrdered(d, key, p, q); }
    }
  }

  // -------------------------------------------------------------- entries

  datatype PriceEntry = PriceEntry(prices: seq<Price>, partial: bool, from: Option<int>, to: Option<int>)

  predicate Covers(e: PriceEntry, t: int) {
    !e.partial || ((e.from.None? || e.from.value <= t) && (e.to.None? || t < e.to.value))
  }

  /** The first listed price that is valid. */
  function FirstValid(prices: seq<Price>, t: int): Option<Rates>
    decreases |prices|
  {
    if prices == [] then None
    else if ValidAt(prices[0], t) then Some(prices[0].rates)
    else FirstValid(prices[1..], t)
  }

  /** An entry answers its key: everywhere it covers, its first valid price is
      the direct selection. */
  ghost predicate Answers(d: Tariff, key: Key, e: PriceEntry) {
    forall t: int | Covers(e, t) :: FirstValid(e.prices, t) == DirectRate(d, key, t)
  }

  ghost predicate Listed(d: Tariff, key: Key, prices: seq<Price>) {
    && (forall i, j | 0 <= i < j < |prices| :: Before(key, prices[i], prices[j]))
    && (forall p :: p in prices <==> p in Candidates(d, key))
  }

  lemma {:induction false} FirstValidIndex(prices: seq<Price>, t: int) returns (i: nat)
    ensures i <= |prices| && forall k | 0 <= k < i :: !ValidAt(prices[k], t)
    ensures i < |prices| ==> ValidAt(prices[i], t) && FirstValid(prices, t) == Some(prices[i].rates)
    ensures i == |prices| ==> FirstValid(prices, t) == None
    decreases |prices|
  {
    if prices == [] || ValidAt(prices[0], t) {
      i := 0;
    } else {
      var j := FirstValidIndex(prices[1..], t);
      i := j + 1;
      assert forall k | 1 <= k < i :: prices[k] == prices[1..][k - 1];
    }
  }

  /** A full history in query order answers every time. */
  lemma HistoryAnswers(d: Tariff, key: Key, prices: seq<Price>)
    requires WellFormed(d) && Listed(d, key, prices)
    ensures Answers(d, key, PriceEntry(prices, false, None, None))
  {
    forall t: int ensures FirstValid(prices, t) == DirectRate(d, key, t) {
      var i := FirstValidIndex(prices, t);
      if i < |prices| {
        forall q | q in Candidates(d, key) && ValidAt(q, t) ensures q == prices[i] || Before(key, prices[i], q) {
          var j :| 0 <= j < |prices| && prices[j] == q;
        }
        DirectIs(d, key, t, prices[i]);
      } else {
        forall p ensures !Selected(d, key, t, p) {
          if p in Candidates(d, key) { assert p in prices; }
        }
      }
    }
  }

  // -------------------------------------------------------------- windows

  /** The times at which some candidate starts or stops being valid. */
  function Boundaries(cands: set<Price>): set<int> {
    (set p | p in cands :: p.validFrom) + (set p | p in cands && p.validTo.Some? :: p.validTo.value)
  }

  ghost predicate LastAtMost(bs: set<int>, t: int, m: Option<int>) {
    match m
    case None => forall b | b in bs :: b > t
    case Some(x) => x in bs && x <= t && forall b | b in bs && b <= t :: b <= x
  }

  ghost predicate FirstAfter(bs: set<int>, t: int, m: Option<int>) {
    match m
    case None => forall b | b in bs :: b <= t
    case Some(x) => x in bs && x > t && forall b | b in bs && b > t :: x <= b
  }

  /** Between consecutive boundaries no candidate changes its validity. */
  lemma ValidityIsConstant(d: Tariff, key: Key, at: int, t: int, from: Option<int>, to: Option<int>, p: Price)
    requires LastAtMost(Boundaries(Candidates(d, key)), at, from) && FirstAfter(Boundaries(Candidates(d, key)), at, to)
    requires (from.Some? ==> from.value <= t) && (to.Some? ==> t < to.value)
    requires p in Candidates(d, key)
    ensures ValidAt(p, at) <==> ValidAt(p, t)
  {
    var bs := Boundaries(Candidates(d, key));
    assert p.validFrom in bs;
    if p.validTo.Some? { assert p.validTo.value in bs; }
  }

  function WindowEntry(selected: Option<Price>, from: Option<int>, to: Option<int>): PriceEntry {
    PriceEntry(
      if selected.Some? then
        [selected.value.(validFrom := from.GetOr(selected.value.validFrom), validTo := to)]
      else [],
      true, from, to)
  }

  /** A window of the history answers every time inside it, and covers the time
      it was loaded for; an empty window answers too. */
  lemma WindowAnswers(d: Tariff, key: Key, at: int, selected: Option<Price>, from: Option<int>, to: Option<int>)
    requires WellFormed(d)
    requires LastAtMost(Boundaries(Candidates(d, key)), at, from) && FirstAfter(Boundaries(Candidates(d, key)), at, to)
    requires match selected case Some(p) => Selected(d, key, at, p) case None => forall p :: !Selected(d, key, at, p)
    ensures Covers(WindowEntry(selected, from, to), at)
    ensures Answers(d, key, WindowEntry(selected, from, to))
  {
    var e := WindowEntry(selected, from, to);
    forall t: int | Covers(e, t) ensures FirstValid(e.prices, t) == DirectRate(d, key, t) {
      forall p | p in Candidates(d, key) ensures ValidAt(p, at) <==> ValidAt(p, t) {
        ValidityIsConstant(d, key, at, t, from, to, p);
      }
      match selected {
        case Some(p) =>
          assert p.validFrom in Boundaries(Candidates(d, key));
          assert Selected(d, key, t, p);
          DirectIs(d, key, t, p);
        case None =>
          forall p ensures !Selected(d, key, t, p) {
            if Selected(d, key, t, p) { assert Selected(d, key, at, p); }
          }
      }
    }
  }

  // -------------------------------------------------------------- queries

  predicate IsFirst(key: Key, s: set<Price>, p: Price) {
    p in s && forall q | q in s :: q == p || Before(key, p, q)
  }

  // A non-empty set of candidates has a first one.
  lemma {:induction false} FirstExists(d: Tariff, key: Key, s: set<Price>)
    requires WellFormed(d) && s != {} && s <= Candidates(d, key)
    ensures exists p :: IsFirst(key, s, p)
    decreases |s|
  {
    var x :| x in s;
    var rest := s - {x};
    if rest == {} {
      assert s == {x};
      assert IsFirst(key, s, x);
    } else {
      FirstExists(d, key, rest);
      var p :| IsFirst(key, rest, p);
      CandidatesAreOrdered(d, key, x, p);
      assert s == rest + {x};
      assert IsFirst(key, s, if Before(key, x, p) then x else p);
    }
  }

  /** The history query: the candidates in order, at most `limit` of them. */
  method QueryHistory(d: Tariff, key: Key, limit: nat) returns (rows: seq<Price>)
    requires WellFormed(d)
    ensures |rows| == if |Candidates(d, key)| < limit then |Candidates(d, key)| else limit
    ensures |rows| < limit ==> Listed(d, key, rows)
  {
    var rest := Candidates(d, key);
    rows := [];
    while |rows| < limit && rest != {}
      invariant |rows| <= limit && rest <= Candidates(d, key) && |rows| + |rest| == |Candidates(d, key)|
      invariant forall i, j | 0 <= i < j < |rows| :: Before(key, rows[i], rows[j])
      invariant forall i, q | 0 <= i < |rows| && q in rest :: Before(key, rows[i], q)
      invariant forall p :: p in rows || p in rest <==> p in Candidates(d, key)
      decreases limit - |rows|
    {
      FirstExists(d, key, rest);
      var p :| p in rest && IsFirst(key, rest, p);
      rows := rows + [p];
      rest := rest - {p};
    }
  }

  lemma BoundariesOfOneMore(cands: set<Price>, p: Price)
    ensures Boundaries(cands + {p})
         == if p.validTo.Some? then Boundaries(cands) + {p.validFrom} + {p.validTo.value}
            else Boundaries(cands) + {p.validFrom}
  {
  }

  /** The later of `m` and `b` among those not after `t`. */
  function LaterAtMost(m: Option<int>, b: int, t: int): Option<int> {
    if b <= t && (m.None? || m.value < b) then Some(b) else m
  }

  function EarlierAfter(m: Option<int>, b: int, t: int): Option<int> {
    if b > t && (m.None? || b < m.value) then Some(b) else m
  }

  lemma ConsiderBoundary(bs: set<int>, t: int, from: Option<int>, to: Option<int>, b: int)
    requires LastAtMost(bs, t, from) && FirstAfter(bs, t, to)
    ensures LastAtMost(bs + {b}, t, LaterAtMost(from, b, t))
    ensures FirstAfter(bs + {b}, t, EarlierAfter(to, b, t))
  {
  }

  method QueryBounds(cands: set<Price>, t: int) returns (from: Option<int>, to: Option<int>)
    ensures LastAtMost(Boundaries(cands), t, from) && FirstAfter(Boundaries(cands), t, to)
  {
    from, to := None, None;
    var rest := cands;
    while rest != {}
      invariant rest <= cands
      invariant LastAtMost(Boundaries(cands - rest), t, from) && FirstAfter(Boundaries(cands - rest), t, to)
      decreases rest
    {
      var p :| p in rest;
      BoundariesOfOneMore(cands - rest, p);
      assert cands - (rest - {p}) == (cands - rest) + {p};
      ghost var bs := Boundaries(cands - rest);
      ConsiderBoundary(bs, t, from, to, p.validFrom);
      from, to := LaterAtMost(from, p.validFrom, t), EarlierAfter(to, p.validFrom, t);
      if p.validTo.Some? {
        ConsiderBoundary(bs + {p.validFrom}, t, from, to, p.validTo.value);
        from, to := LaterAtMost(from, p.validTo.value, t), EarlierAfter(to, p.validTo.value, t);
      }
      rest := rest - {p};
    }
    assert cands - rest == cands;
  }

  method QuerySelected(d: Tariff, key: Key, at: int) returns (selected: Option<Price>)
    requires WellFormed(d)
    ensures match selected case Some(p) => Selected(d, key, at, p) case None => forall p :: !Selected(d, key, at, p)
  {
    var valid := set p | p in Candidates(d, key) && ValidAt(p, at);
    if valid == {} {
      assert forall p | p in Candidates(d, key) && ValidAt(p, at) :: p in valid;
      return None;
    }
    FirstExists(d, key, valid);
    var p :| p in valid && IsFirst(key, valid, p);
    forall q | q in Candidates(d, key) && ValidAt(q, at) ensures q == p || Before(key, p, q) {
      assert q in valid;
    }
    selected := Some(p);
  }

  method LoadPricingWindow(d: Tariff, key: Key, at: int) returns (e: PriceEntry)
    requires WellFormed(d)
    ensures Answers(d, key, e) && Covers(e, at) && e.partial && |e.prices| <= 1
  {
    var selected := QuerySelected(d, key, at);
    var from, to := QueryBounds(Candidates(d, key), at);
    e := WindowEntry(selected, from, to);
    WindowAnswers(d, key, at, selected, from, to);
  }

  method LoadPricingHistory(d: Tariff, key: Key, at: int) returns (e: PriceEntry)
    requires WellFormed(d)
    ensures Answers(d, key, e) && Covers(e, at) && |e.prices| <= 256
    ensures e.partial <==> |Candidates(d, key)| > 256
  {
    var rows := QueryHistory(d, key, MAX_HISTORY + 1);
    if |rows| > MAX_HISTORY {
      e := LoadPricingWindow(d, key, at);
      return;
    }
    HistoryAnswers(d, key, rows);
    e := PriceEntry(rows, false, None, None);
  }

  method SelectPricingRate(e: PriceEntry, at: int) returns (rate: Option<Rates>)
    ensures rate == FirstValid(e.prices, at)
  {
    var i := 0;
    while i < |e.prices|
      invariant 0 <= i <= |e.prices|
      invariant FirstValid(e.prices[i..], at) == FirstValid(e.prices, at)
    {
      assert e.prices[i..][1..] == e.prices[i + 1..];
      if ValidAt(e.prices[i], at) {
        return Some(e.prices[i].rates);
      }
      i := i + 1;
    }
    rate := None;
  }

  /** Round to the database's precision, halves up. */
  function RoundToMicroseconds(ns: int): int { (ns + 500) / 1000 }

  /** `at` microseconds is the look-up time of `ns` nanoseconds in the precision of
      the table: the nearest microsecond, the later one of two. */
  predicate Nearest(at: int, ns: int) { -500 < 1000 * at - ns <= 500 }

  // ------------------------------------- direct selection in plain terms

  /** A price that is valid at a time: started by then, and not ended. */
  predicate Runs(p: Price, t: int) { p.validFrom <= t && (p.validTo.Some? ==> t < p.validTo.value) }

  /** `model` has the price `p`, and no price of it that is valid started later. */
  ghost predicate LatestOf(prices: set<Price>, model: string, t: int, p: Price) {
    && p in prices && p.model == model && Runs(p, t)
    && forall q | q in prices && q.model == model && Runs(q, t) :: q.validFrom <= p.validFrom
  }

  ghost predicate NoneOf(prices: set<Price>, model: string, t: int) {
    forall q | q in prices && q.model == model :: !Runs(q, t)
  }

  /** A valid price of the model itself is charged, the one that started last. */
  lemma ExactModelIsCharged(d: Tariff, key: Key, t: int, p: Price)
    requires WellFormed(d) && key.upstream in d.profiles && d.profiles[key.upstream] in d.prices
    requires LatestOf(d.prices[d.profiles[key.upstream]], key.model, t, p)
    ensures DirectRate(d, key, t) == Some(p.rates)
  {
    forall q | q in Candidates(d, key) && ValidAt(q, t) ensures q == p || Before(key, p, q) {
      assert Runs(q, t);
      if q != p { CandidatesAreOrdered(d, key, p, q); }
    }
    DirectIs(d, key, t, p);
  }

  /** Without one, a valid price of the model's alias is charged. */
  lemma AliasIsCharged(d: Tariff, key: Key, t: int, alias: string, p: Price)
    requires WellFormed(d) && key.upstream in d.profiles && d.profiles[key.upstream] in d.prices
    requires key.upstream in d.aliases && key.model in d.aliases[key.upstream]
    requires d.aliases[key.upstream][key.model] == alias
    requires NoneOf(d.prices[d.profiles[key.upstream]], key.model, t)
    requires LatestOf(d.prices[d.profiles[key.upstream]], alias, t, p)
    ensures DirectRate(d, key, t) == Some(p.rates)
  {
    forall q | q in Candidates(d, key) && ValidAt(q, t) ensures q == p || Before(key, p, q) {
      assert Runs(q, t);
      if q != p { CandidatesAreOrdered(d, key, p, q); }
    }
    DirectIs(d, key, t, p);
  }

  /** Otherwise there is no rate: neither model nor alias has a valid price, or the
      upstream has no price profile. */
  lemma NothingIsCharged(d: Tariff, key: Key, t: int)
    requires key.upstream in d.profiles && d.profiles[key.upstream] in d.prices ==>
               && NoneOf(d.prices[d.profiles[key.upstream]], key.model, t)
               && (key.upstream in d.aliases && key.model in d.aliases[key.upstream] ==>
                     NoneOf(d.prices[d.profiles[key.upstream]], d.aliases[key.upstream][key.model], t))
    ensures DirectRate(d, key, t) == None
  {
    forall p ensures !Selected(d, key, t, p) {
      if Selected(d, key, t, p) { assert Runs(p, t); }
    }
  }

  /** An open price of the model that has started by the nanosecond of the look-up
      is charged, if no other one starts before the next microsecond is over. */
  lemma OpenPriceIsCharged(d: Tariff, key: Key, ns: int, at: int, p: Price)
    requires WellFormed(d) && key.upstream in d.profiles && d.profiles[key.upstream] in d.prices
    requires p in d.prices[d.profiles[key.upstream]] && p.model == key.model && p.validTo.None?
    requires Nearest(at, ns) && 1000 * p.validFrom <= ns
    requires forall q | q in d.prices[d.profiles[key.upstream]] && q.model == key.model ::
               q.validFrom <= p.validFrom || 1000 * q.validFrom > ns + 500
    ensures DirectRate(d, key, at) == Some(p.rates)
  {
    ExactModelIsCharged(d, key, at, p);
  }

  function Unexpired(m: map<Key, Entry<PriceEntry>>, now: int): map<Key, Entry<PriceEntry>> {
    map k | k in m && m[k].expires > now :: m[k]
  }

  /** What stays when an entry is stored: all if there are fewer than 1024, else
      the unexpired ones if they are fewer, else none. */
  function Kept(m: map<Key, Entry<PriceEntry>>, now: int): map<Key, Entry<PriceEntry>> {
    if |m| < 1024 then m else if |Unexpired(m, now)| < 1024 then Unexpired(m, now) else map[]
  }

  // ------------------------------------------------ the program's object

  class PricingCache {
    var entries: map<Key, Entry<PriceEntry>>
    var generation: nat

    constructor ()
      ensures View() == Cache(map[], 0)
    {
      entries, generation := map[], 0;
    }

    ghost function View(): Cache<Key, PriceEntry>
      reads this
    {
      Cache(entries, generation)
    }

    /** Every entry, expired or not, answers the table. */
    ghost predicate Coherent(d: Tariff)
      reads this
    {
      forall k | k in entries :: Answers(d, k, entries[k].value)
    }

    /** The look-up under the key's load gate, while the table stays as it is.
        `now` is the time of the second look-up. */
    method PricingRate(d: Tariff, key: Key, ns: int, now: int) returns (rate: Option<Rates>)
      requires WellFormed(d) && |entries| <= 1024
      modifies this`entries
      ensures old(Coherent(d)) ==> Coherent(d) && exists at :: Nearest(at, ns) && rate == DirectRate(d, key, at)
      ensures |entries| <= 1024
      ensures (exists at :: Nearest(at, ns) && key in old(entries) && now < old(entries)[key].expires
                            && Covers(old(entries)[key].value, at))
              || (key in entries && entries[key].expires == now + 30_000_000_000
                  && (entries[key].value.partial <==>
                        (key in old(entries) && old(entries)[key].value.partial) || |Candidates(d, key)| > 256))
      ensures entries == old(entries)
              || exists e :: Answers(d, key, e) && Stored(old(View()), View(), key, Entry(e, now + TTL), generation)
    {
      var at := RoundToMicroseconds(ns);
      assert Nearest(at, ns);
      if key in entries && entries[key].expires > now && Covers(entries[key].value, at) {
        rate := SelectPricingRate(entries[key].value, at);
        return;
      }
      var loadedAt := generation;
      var e: PriceEntry;
      if key in entries && entries[key].value.partial {
        e := LoadPricingWindow(d, key, at);
      } else {
        e := LoadPricingHistory(d, key, at);
      }
      StoreEntry(key, e, now, loadedAt);
      rate := SelectPricingRate(e, at);
    }

    method StoreEntry(key: Key, e: PriceEntry, now: int, loadedAt: nat)
      requires |entries| <= 1024
      modifies this`entries
      ensures Stored(old(View()), View(), key, Entry(e, now + TTL), loadedAt)
      ensures |entries| <= 1024
      ensures loadedAt == generation ==> entries == Kept(old(entries), now)[key := Entry(e, now + TTL)]
    {
      if loadedAt != generation { return; }
      MakeRoom(now);
      OneMoreEntry(entries, key, Entry(e, now + TTL));
      entries := entries[key := Entry(e, now + TTL)];
    }

    /** A full cache loses its expired entries or, if none is, all. */
    method MakeRoom(now: int)
      requires |entries| <= 1024
      modifies this`entries
      ensures entries == Kept(old(entries), now) && |entries| < 1024
    {
      if |entries| < MAX_ENTRIES { return; }
      ghost var all := entries;
      var rest := entries.Keys;
      while rest != {}
        invariant rest <= all.Keys && entries.Keys <= all.Keys
        invariant forall k | k in all :: k in entries <==> k in rest || all[k].expires > now
        invariant forall k | k in entries :: entries[k] == all[k]
        decreases rest
      {
        var k :| k in rest;
        if k in entries && entries[k].expires <= now { entries := entries - {k}; }
        rest := rest - {k};
      }
      assert entries == Unexpired(all, now);
      if |entries| >= MAX_ENTRIES {
        entries := map[];
      }
    }

    method Invalidate()
      modifies this
      ensures View() == Cache(map[], old(generation) + 1)
    {
      entries := map[];
      generation := generation + 1;
    }
  }

  /** With concurrent readers and writers: whatever the pricing cache returns
      was selected directly from a table no older than any invalidated commit,
      and from the current one once all writers have invalidated. */
  lemma PricingCacheIsCoherent(d: Tariff, actions: seq<Action<Key, Tariff, PriceEntry>>,
                               s: System<Key, Tariff, PriceEntry>, key: Key, now: int, at: int)
    requires Reaches(Start(d), actions, s, (t, k, e) => Answers(t, k, e))
    requires Hit(s.cache, key, now).Some? && Covers(Hit(s.cache, key, now).value, at)
    ensures exists i: nat :: i < |s.history| && (forall c | c in s.invalidated :: c <= i)
              && FirstValid(Hit(s.cache, key, now).value.prices, at) == DirectRate(s.history[i], key, at)
    ensures (forall i: nat | 0 < i < |s.history| :: i in s.invalidated)
            ==> FirstValid(Hit(s.cache, key, now).value.prices, at) == DirectRate(s.history[|s.history| - 1], key, at)
  {
    CacheIsCoherent(d, actions, s, key, now, (t, k, e) => Answers(t, k, e));
  }

  /** A reader that misses and loads for itself selects directly from one price
      table, no older than any commit invalidated when it loaded, however the
      cache and the table change under it. */
  lemma LoaderSelectsDirectly(d: Tariff, actions: seq<Action<Key, Tariff, PriceEntry>>,
                              s: System<Key, Tariff, PriceEntry>, r: nat, at: int)
    requires Reaches(Start(d), actions, s, (t, k, e) => Answers(t, k, e))
    requires r in s.readers && s.readers[r].Loaded? && Covers(s.readers[r].value, at)
    ensures var p := s.readers[r];
            && p.readAt < |s.history| && (forall c | c in p.before :: c <= p.readAt)
            && FirstValid(p.value.prices, at) == DirectRate(s.history[p.readAt], p.key, at)
  {
    LoaderIsCurrent(d, actions, s, r, (t, k, e) => Answers(t, k, e));
  }
}
