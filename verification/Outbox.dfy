/** The notification outbox of internal/store/notifications.go: rows leased
    under a fencing version. Every SQL statement is one atomic step over the
    table and one clock; times are seconds.

    `Outbox` is the store with its table; the functions before it are the
    statements on values; the lemmas after it are about whole runs with any
    number of workers. */
module Outbox {
  import opened Options

  datatype Row = Row(
    channel: Option<int>, payload: string, attempts: int, version: nat, nextAt: int, deadAt: Option<int>)

  /** The table, its id sequence, the channels (enabled or not) and now(). */
  datatype Db = Db(clock: int, nextId: nat, rows: map<nat, Row>, channels: map<int, bool>)

  /** What a claim hands out: the row's id and the version it was leased under. */
  datatype Token = Token(id: nat, version: nat)

  function LeaseSeconds(attempts: int): int {
    var grown := if attempts * 60 > 60 then attempts * 60 else 60;
    if grown < 900 then grown else 900
  }

  predicate Due(db: Db, id: nat) {
    id in db.rows && db.rows[id].deadAt.None? && db.rows[id].nextAt <= db.clock
  }

  /** The guard every lease-holder's statement carries. */
  predicate Owned(db: Db, t: Token) {
    && t.id in db.rows && db.rows[t.id].version == t.version
    && db.rows[t.id].deadAt.None? && db.rows[t.id].nextAt > db.clock
  }

  function NewRow(channel: Option<int>, payload: string, notBefore: int): Row {
    Row(channel, payload, 0, 0, notBefore, None)
  }

  /** The events that are archived when they are enqueued. */
  const ARCHIVED_TYPES: set<string> :=
    {"error_rate", "latency", "low_balance", "balance_unavailable", "client_error_rate", "login_failure",
     "new_login_ip"}

  function Insert(db: Db, channel: Option<int>, payload: string, notBefore: int): Db {
    db.(rows := db.rows[db.nextId := NewRow(channel, payload, notBefore)], nextId := db.nextId + 1)
  }

  function InsertAll(db: Db, channels: seq<int>, payload: string, notBefore: int): Db
    decreases |channels|
  {
    if channels == [] then db
    else InsertAll(Insert(db, Some(channels[0]), payload, notBefore), channels[1..], payload, notBefore)
  }

  /** One transaction: a row per channel, or one without a channel; an unknown
      channel breaks the foreign key and nothing is inserted. */
  function EnqueueSpec(db: Db, channels: seq<int>, payload: string, notBefore: int): Db {
    if channels == [] then Insert(db, None, payload, notBefore)
    else if exists c | c in channels :: c !in db.channels then db
    else InsertAll(db, channels, payload, notBefore)
  }

  function Leased(r: Row, now: int): Row {
    r.(attempts := r.attempts + 1, version := r.version + 1, nextAt := now + LeaseSeconds(r.attempts + 1))
  }

  /** The claim statement, for the due rows among `picked`. */
  function ClaimSpec(db: Db, picked: set<nat>): Db {
    db.(rows := map id | id in db.rows ::
                  if id in picked && Due(db, id) then Leased(db.rows[id], db.clock) else db.rows[id])
  }

  function TokensOf(db: Db, picked: set<nat>): set<Token> {
    set id | id in picked && Due(db, id) :: Token(id, db.rows[id].version + 1)
  }

  function RenewSpec(db: Db, t: Token): Db {
    if Owned(db, t) then db.(rows := db.rows[t.id := db.rows[t.id].(nextAt := db.clock + 60)]) else db
  }

  datatype Verdict = Complete | Fail(nextAttempt: int) | Dead

  function SettleSpec(db: Db, t: Token, v: Verdict): Db {
    if !Owned(db, t) then db
    else
      var r := db.rows[t.id];
      match v
      case Complete => db.(rows := db.rows - {t.id})
      case Fail(next) => db.(rows := db.rows[t.id := r.(nextAt := next, version := r.version + 1)])
      case Dead => db.(rows := db.rows[t.id := r.(deadAt := Some(db.clock), version := r.version + 1)])
  }

  predicate Retryable(db: Db, id: nat) {
    && id in db.rows && db.rows[id].deadAt.Some? && db.rows[id].channel.Some?
    && db.rows[id].channel.value in db.channels && db.channels[db.rows[id].channel.value]
  }

  function RetryDeadSpec(db: Db, id: nat): Db {
    if !Retryable(db, id) then db
    else
      var r := db.rows[id];
      db.(rows := db.rows[id := r.(attempts := 0, deadAt := None, nextAt := db.clock, version := r.version + 1)])
  }

  /** A dead letter can be retried exactly while its channel is enabled; it is due
      at once then, with all its attempts before it, and no other row changes. */
  lemma RetryStartsOver(db: Db, id: nat)
    requires id in db.rows
    ensures var d, was := RetryDeadSpec(db, id), db.rows[id];
            && d.rows.Keys == db.rows.Keys
            && forall other | other in db.rows && other != id :: d.rows[other] == db.rows[other]
    ensures var d, was := RetryDeadSpec(db, id), db.rows[id];
            if && was.deadAt.Some? && was.channel.Some?
               && was.channel.value in db.channels && db.channels[was.channel.value]
            then d.rows[id] == Row(was.channel, was.payload, 0, was.version + 1, db.clock, None) && Due(d, id)
            else d == db
  {}

  /** A claim leases exactly the due rows it picks: one attempt more, and a minute
      for each attempt so far, at least one and at most fifteen. */
  lemma ClaimLeases(db: Db, picked: set<nat>, id: nat)
    requires id in db.rows
    ensures var r, was := ClaimSpec(db, picked).rows[id], db.rows[id];
            if id in picked && was.deadAt.None? && was.nextAt <= db.clock then
              && r.attempts == was.attempts + 1 && r.version == was.version + 1
              && r.nextAt == db.clock
                             + (if r.attempts <= 1 then 60 else if r.attempts >= 15 then 900 else 60 * r.attempts)
              && r.payload == was.payload && r.channel == was.channel && r.deadAt == None
            else r == was
  {}

  /** Deleting a channel cascades to its rows. */
  function DeleteChannelSpec(db: Db, c: int): Db {
    db.(channels := db.channels - {c},
        rows := map id | id in db.rows && db.rows[id].channel != Some(c) :: db.rows[id])
  }

  // ------------------------------------------------ the program's object

  datatype Job = Job(id: nat, version: nat, attempts: int, channel: Option<int>, payload: string)

  predicate Precedes(db: Db, a: nat, b: nat)
    requires a in db.rows && b in db.rows
  {
    db.rows[a].nextAt < db.rows[b].nextAt || (db.rows[a].nextAt == db.rows[b].nextAt && a <= b)
  }

  // A non-empty set of rows has a first one in (next_attempt_at, id) order.
  lemma {:induction false} FirstExists(db: Db, s: set<nat>)
    requires s != {} && s <= db.rows.Keys
    ensures exists a :: a in s && forall b | b in s :: Precedes(db, a, b)
    decreases |s|
  {
    var x :| x in s;
    var rest := s - {x};
    if rest == {} {
      assert s == {x};
      assert Precedes(db, x, x);
    } else {
      FirstExists(db, rest);
      var a :| a in rest && forall b | b in rest :: Precedes(db, a, b);
      var first := if Precedes(db, x, a) then x else a;
      assert s == rest + {x};
      assert first in s && forall b | b in s :: Precedes(db, first, b);
    }
  }

  ghost predicate InOrder(db: Db, order: seq<nat>) {
    && (forall i | 0 <= i < |order| :: order[i] in db.rows)
    && (forall i, j | 0 <= i < j < |order| :: order[i] != order[j] && Precedes(db, order[i], order[j]))
  }

  /** `order` is the first `n` unlocked due rows in (next_attempt_at, id) order. */
  ghost predicate Selection(db: Db, order: seq<nat>, n: nat, locked: set<nat>) {
    && InOrder(db, order) && |order| <= n
    && (forall i | 0 <= i < |order| :: Due(db, order[i]) && order[i] !in locked)
    && (forall other | Due(db, other) && other !in locked && other !in order ::
          |order| == n && forall i | 0 <= i < |order| :: Precedes(db, order[i], other))
  }

  function JobOf(rows: map<nat, Row>, id: nat): Job
    requires id in rows
  {
    Job(id, rows[id].version, rows[id].attempts, rows[id].channel, rows[id].payload)
  }

  function JobIds(jobs: seq<Job>): seq<nat> {
    seq(|jobs|, i requires 0 <= i < |jobs| => jobs[i].id)
  }

  class Outbox {
    var clock: int
    var nextId: nat
    var rows: map<nat, Row>
    var channels: map<int, bool>
    var archive: seq<string>

    function View(): Db
      reads this
    {
      Db(clock, nextId, rows, channels)
    }

    /** One transaction, with the archive row of an alert; `typ` is the type field of the payload. */
    method EnqueueNotificationsForChannels(channelIDs: seq<int>, payload: string, typ: Option<string>, notBefore: int)
      returns (ok: bool)
      modifies this
      ensures View() == EnqueueSpec(old(View()), channelIDs, payload, notBefore)
      ensures ok <==> forall c | c in channelIDs :: c in old(channels)
      ensures archive == old(archive) + if ok && typ.Some? && typ.value in ARCHIVED_TYPES then [payload] else []
    {
      if exists c | c in channelIDs :: c !in channels {
        return false;
      }
      if typ.Some? && typ.value in ARCHIVED_TYPES {
        archive := archive + [payload];
      }
      if |channelIDs| == 0 {
        rows := rows[nextId := NewRow(None, payload, notBefore)];
        nextId := nextId + 1;
        return true;
      }
      var i := 0;
      while i < |channelIDs|
        invariant 0 <= i <= |channelIDs| && channels == old(channels) && clock == old(clock)
        invariant archive == old(archive) + if typ.Some? && typ.value in ARCHIVED_TYPES then [payload] else []
        invariant InsertAll(View(), channelIDs[i..], payload, notBefore)
                  == InsertAll(old(View()), channelIDs, payload, notBefore)
      {
        assert channelIDs[i..][1..] == channelIDs[i + 1..];
        rows := rows[nextId := NewRow(Some(channelIDs[i]), payload, notBefore)];
        nextId := nextId + 1;
        i := i + 1;
      }
      ok := true;
    }

    /** The rows a claim selects: the first `n` due ones, in order, that no
        other transaction has locked. */
    method PickDue(n: nat, locked: set<nat>) returns (order: seq<nat>)
      ensures Selection(View(), order, n, locked)
    {
      var candidates := set id | id in rows && Due(View(), id) && id !in locked;
      ghost var all := candidates;
      order := [];
      while |order| < n && candidates != {}
        invariant |order| <= n && candidates <= all
        invariant forall i | 0 <= i < |order| :: order[i] in all && order[i] !in candidates
        invariant forall id | id in all :: id in candidates || id in order
        invariant InOrder(View(), order)
        invariant forall i, other | 0 <= i < |order| && other in candidates :: Precedes(View(), order[i], other)
        decreases n - |order|
      {
        FirstExists(View(), candidates);
        var id :| id in candidates && forall b | b in candidates :: Precedes(View(), id, b);
        candidates := candidates - {id};
        order := order + [id];
      }
    }

    /** Leases the picked rows in one statement. */
    method ClaimNotificationJobs(limit: int, locked: set<nat>) returns (jobs: seq<Job>)
      modifies this`rows
      ensures Selection(old(View()), JobIds(jobs), if limit <= 0 then 20 else limit, locked)
      ensures View() == ClaimSpec(old(View()), set id | id in JobIds(jobs))
      ensures forall i | 0 <= i < |jobs| ::
                Owned(View(), Token(jobs[i].id, jobs[i].version)) && jobs[i] == JobOf(rows, jobs[i].id)
    {
      var order := PickDue(if limit <= 0 then 20 else limit, locked);
      ghost var before := View();
      var picked := set id | id in order;
      rows := map id | id in rows :: if id in picked && Due(View(), id) then Leased(rows[id], clock) else rows[id];
      jobs := seq(|order|, i requires 0 <= i < |order| && order[i] in rows reads this => JobOf(rows, order[i]));
      assert JobIds(jobs) == order;
      assert View() == ClaimSpec(before, picked);
    }

    method RenewNotification(t: Token) returns (ok: bool)
      modifies this`rows
      ensures View() == RenewSpec(old(View()), t) && ok == Owned(old(View()), t)
    {
      ok := Owned(View(), t);
      if ok {
        rows := rows[t.id := rows[t.id].(nextAt := clock + 60)];
      }
    }

    method CompleteNotification(t: Token) returns (ok: bool)
      modifies this`rows
      ensures View() == SettleSpec(old(View()), t, Complete) && ok == Owned(old(View()), t)
    {
      ok := Owned(View(), t);
      if ok {
        rows := rows - {t.id};
      }
    }

    method FailNotification(t: Token, nextAttempt: int) returns (ok: bool)
      modifies this`rows
      ensures View() == SettleSpec(old(View()), t, Fail(nextAttempt)) && ok == Owned(old(View()), t)
    {
      ok := Owned(View(), t);
      if ok {
        var r := rows[t.id];
        rows := rows[t.id := r.(nextAt := nextAttempt, version := r.version + 1)];
      }
    }

    method DeadNotification(t: Token) returns (ok: bool)
      modifies this`rows
      ensures View() == SettleSpec(old(View()), t, Dead) && ok == Owned(old(View()), t)
    {
      ok := Owned(View(), t);
      if ok {
        var r := rows[t.id];
        rows := rows[t.id := r.(deadAt := Some(clock), version := r.version + 1)];
      }
    }

    method RetryDeadNotification(id: nat) returns (ok: bool)
      modifies this`rows
      ensures View() == RetryDeadSpec(old(View()), id) && ok == Retryable(old(View()), id)
    {
      ok := Retryable(View(), id);
      if ok {
        var r := rows[id];
        rows := rows[id := r.(attempts := 0, deadAt := None, nextAt := clock, version := r.version + 1)];
      }
    }
  }

  // ------------------------------------------------------------ whole runs

  datatype Op =
    | Enqueue(channelIDs: seq<int>, payload: string, notBefore: int)
    | Claim(picked: set<nat>)
    | Renew(token: Token)
    | Settle(token: Token, verdict: Verdict)
    | RetryDead(id: nat)
    | SetChannel(channel: int, enabled: bool)
    | DeleteChannel(channel: int)
    | Tick(seconds: nat)

  function Execute(db: Db, op: Op): Db {
    match op
    case Enqueue(cs, payload, notBefore) => EnqueueSpec(db, cs, payload, notBefore)
    case Claim(picked) => ClaimSpec(db, picked)
    case Renew(t) => RenewSpec(db, t)
    case Settle(t, v) => SettleSpec(db, t, v)
    case RetryDead(id) => RetryDeadSpec(db, id)
    case SetChannel(c, enabled) => db.(channels := db.channels[c := enabled])
    case DeleteChannel(c) => DeleteChannelSpec(db, c)
    case Tick(s) => db.(clock := db.clock + s)
  }

  /** The table with the history of a run: every token ever issued, the verdicts
      that took effect in order, and how rows left the table. */
  datatype World = World(db: Db, issued: set<Token>, settled: seq<Token>, completed: set<nat>, cascaded: set<nat>)

  const EMPTY_DB := Db(0, 0, map[], map[])
  const START := World(EMPTY_DB, {}, [], {}, {})

  function RowsOfChannel(db: Db, c: int): set<nat> { set id | id in db.rows && db.rows[id].channel == Some(c) }

  function Step(w: World, op: Op): World {
    World(Execute(w.db, op),
          w.issued + (if op.Claim? then TokensOf(w.db, op.picked) else {}),
          w.settled + (if op.Settle? && Owned(w.db, op.token) then [op.token] else []),
          w.completed + (if op.Settle? && op.verdict == Complete && Owned(w.db, op.token) then {op.token.id} else {}),
          w.cascaded + (if op.DeleteChannel? then RowsOfChannel(w.db, op.channel) else {}))
  }

  function RunFrom(w: World, ops: seq<Op>): World
    decreases |ops|
  {
    if ops == [] then w else RunFrom(Step(w, ops[0]), ops[1..])
  }

  predicate Live(db: Db, id: nat) { id in db.rows && db.rows[id].deadAt.None? }
  predicate DeadLettered(db: Db, id: nat) { id in db.rows && db.rows[id].deadAt.Some? }

  /** No token ever issued is ahead of its row. */
  ghost predicate VersionsInv(w: World) {
    && (forall id | id in w.db.rows :: id < w.db.nextId)
    && (forall t | t in w.issued :: 0 < t.version && t.id < w.db.nextId)
    && (forall t | t in w.issued && t.id in w.db.rows :: t.version <= w.db.rows[t.id].version)
  }

  /** A token whose verdict took effect is behind its row for good. */
  ghost predicate SettledInv(w: World) {
    && (forall i | 0 <= i < |w.settled| && w.settled[i].id in w.db.rows ::
          w.settled[i].version < w.db.rows[w.settled[i].id].version)
    && (forall i | 0 <= i < |w.settled| :: w.settled[i].id < w.db.nextId)
    && (forall i, j | 0 <= i < j < |w.settled| :: w.settled[i] != w.settled[j])
  }

  /** Every id ever enqueued is in the table, completed or cascaded, in exactly one way. */
  ghost predicate AccountInv(w: World) {
    && w.db.rows.Keys !! w.completed !! w.cascaded
    && (forall id: nat :: id < w.db.nextId <==> id in w.db.rows || id in w.completed || id in w.cascaded)
  }

  ghost predicate Inv(w: World) { VersionsInv(w) && SettledInv(w) && AccountInv(w) }

  // Inserting rows keeps the old ones and adds exactly the new ids.
  lemma {:induction false} InsertAllRows(db: Db, channels: seq<int>, payload: string, notBefore: int)
    requires forall id | id in db.rows :: id < db.nextId
    ensures var r := InsertAll(db, channels, payload, notBefore);
            && r.clock == db.clock && r.channels == db.channels && r.nextId == db.nextId + |channels|
            && (forall id | id in db.rows :: id in r.rows && r.rows[id] == db.rows[id])
            && (forall id: nat :: id in r.rows <==> id in db.rows || db.nextId <= id < r.nextId)
            && (forall id: nat | db.nextId <= id < r.nextId :: r.rows[id].version == 0)
    decreases |channels|
  {
    if channels != [] {
      var one := Insert(db, Some(channels[0]), payload, notBefore);
      InsertAllRows(one, channels[1..], payload, notBefore);
      assert db.nextId in one.rows && one.rows[db.nextId].version == 0;
    }
  }

  /** Enqueueing for known channels adds one row per channel, in order, untried and
      due from `notBefore` on, or one row without a channel, and changes no other. */
  lemma EnqueueAdds(db: Db, channels: seq<int>, payload: string, notBefore: int)
    requires (forall id | id in db.rows :: id < db.nextId) && forall c | c in channels :: c in db.channels
    ensures var d := EnqueueSpec(db, channels, payload, notBefore);
            && d.nextId == db.nextId + (if channels == [] then 1 else |channels|)
            && (forall id | id in db.rows :: id in d.rows && d.rows[id] == db.rows[id])
            && (forall id: nat :: id in d.rows <==> id in db.rows || db.nextId <= id < d.nextId)
            && (forall i | 0 <= i < |channels| ::
                  d.rows[db.nextId + i] == Row(Some(channels[i]), payload, 0, 0, notBefore, None))
            && (channels == [] ==> d.rows[db.nextId] == Row(None, payload, 0, 0, notBefore, None))
  {
    InsertAllRows(db, channels, payload, notBefore);
    InsertedRows(db, channels, payload, notBefore);
  }

  lemma {:induction false} InsertedRows(db: Db, channels: seq<int>, payload: string, notBefore: int)
    requires forall id | id in db.rows :: id < db.nextId
    ensures var r := InsertAll(db, channels, payload, notBefore);
            forall i | 0 <= i < |channels| ::
              && db.nextId + i in r.rows
              && r.rows[db.nextId + i] == Row(Some(channels[i]), payload, 0, 0, notBefore, None)
    decreases |channels|
  {
    if channels != [] {
      var one := Insert(db, Some(channels[0]), payload, notBefore);
      InsertAllRows(one, channels[1..], payload, notBefore);
      InsertedRows(one, channels[1..], payload, notBefore);
      forall i | 0 <= i < |channels|
        ensures var r := InsertAll(db, channels, payload, notBefore);
                && db.nextId + i in r.rows
                && r.rows[db.nextId + i] == Row(Some(channels[i]), payload, 0, 0, notBefore, None)
      {
        if i > 0 { assert channels[i] == channels[1..][i - 1]; } else { assert db.nextId in one.rows; }
      }
    }
  }

  // What any statement may do to a row: keep it, advance its version, or renew it.
  ghost predicate RowMoves(db: Db, d: Db, op: Op, id: nat)
    requires id in db.rows && id in d.rows
  {
    || d.rows[id] == db.rows[id]
    || d.rows[id].version == db.rows[id].version + 1
    || (op == Renew(Token(id, db.rows[id].version)) && Owned(db, op.token)
        && d.rows[id] == db.rows[id].(nextAt := db.clock + 60))
  }

  lemma ExecuteEffect(db: Db, op: Op)
    requires forall id | id in db.rows :: id < db.nextId
    ensures var d := Execute(db, op);
            && db.nextId <= d.nextId && db.clock <= d.clock
            && (forall id: nat | db.nextId <= id < d.nextId :: id in d.rows)
            && (forall id | id in d.rows :: id < d.nextId)
            && (forall id | id in d.rows && id !in db.rows :: db.nextId <= id)
            && (forall id | id in db.rows && id in d.rows :: RowMoves(db, d, op, id))
  {
    match op
    case Enqueue(cs, payload, notBefore) => InsertAllRows(db, cs, payload, notBefore);
    case _ =>
  }

  lemma StepKeepsVersions(w: World, op: Op)
    requires VersionsInv(w)
    ensures VersionsInv(Step(w, op))
    ensures op.Claim? ==> TokensOf(w.db, op.picked) !! w.issued
  {
    ExecuteEffect(w.db, op);
  }

  lemma SettleAdvances(db: Db, t: Token, v: Verdict)
    requires Owned(db, t)
    ensures var d := SettleSpec(db, t, v); t.id in d.rows ==> d.rows[t.id].version == t.version + 1
  {
  }

  lemma StepKeepsSettled(w: World, op: Op)
    requires VersionsInv(w) && SettledInv(w)
    ensures SettledInv(Step(w, op))
  {
    ExecuteEffect(w.db, op);
    if op.Settle? && Owned(w.db, op.token) {
      SettleAdvances(w.db, op.token, op.verdict);
    }
  }

  lemma StepKeepsAccount(w: World, op: Op)
    requires VersionsInv(w) && AccountInv(w)
    ensures AccountInv(Step(w, op))
  {
    match op
    case Enqueue(cs, payload, notBefore) =>
      InsertAllRows(w.db, cs, payload, notBefore);
    case _ =>
  }

  lemma {:induction false} RunKeepsInv(w: World, ops: seq<Op>)
    requires Inv(w)
    ensures Inv(RunFrom(w, ops))
    decreases |ops|
  {
    if ops != [] {
      StepKeepsVersions(w, ops[0]);
      StepKeepsSettled(w, ops[0]);
      StepKeepsAccount(w, ops[0]);
      RunKeepsInv(Step(w, ops[0]), ops[1..]);
    }
  }

  /** Fencing, part one: every claim in every run issues tokens never issued
      before, and no token's verdict takes effect twice. */
  lemma TokensAreUnique(ops: seq<Op>, op: Op)
    ensures var w := RunFrom(START, ops);
            && (op.Claim? ==> TokensOf(w.db, op.picked) !! w.issued)
            && (op.Settle? && Owned(w.db, op.token) ==> op.token !in w.settled)
            && (forall i, j | 0 <= i < j < |w.settled| :: w.settled[i] != w.settled[j])
  {
    RunKeepsInv(START, ops);
    var w := RunFrom(START, ops);
    StepKeepsVersions(w, op);
  }

  /** Fencing, part two: a token that has lost its lease, by expiry, by a newer
      claim, by a verdict or by dead-letter and manual retry, never owns the
      row again, so no statement under it changes anything. */
  lemma {:induction false} StaleForever(w: World, ops: seq<Op>, t: Token)
    requires Inv(w) && t in w.issued && !Owned(w.db, t)
    ensures !Owned(RunFrom(w, ops).db, t)
    ensures forall v: Verdict :: SettleSpec(RunFrom(w, ops).db, t, v) == RunFrom(w, ops).db
    ensures RenewSpec(RunFrom(w, ops).db, t) == RunFrom(w, ops).db
    decreases |ops|
  {
    if ops != [] {
      var op := ops[0];
      StepKeepsVersions(w, op);
      StepKeepsSettled(w, op);
      StepKeepsAccount(w, op);
      ExecuteEffect(w.db, op);
      StaleForever(Step(w, op), ops[1..], t);
    }
  }

  /** A lease is exclusive, and for good: in every run the token that owns a row
      is the newest ever issued for it, and every other token of the row, however
      it came to lose it, stays without effect whatever happens later. */
  lemma OneOwner(ops: seq<Op>, later: seq<Op>, t: Token, u: Token)
    requires var w := RunFrom(START, ops);
             t in w.issued && u in w.issued && t.id == u.id && t != u && Owned(w.db, t)
    ensures u.version < t.version
    ensures var d := RunFrom(RunFrom(START, ops), later).db;
            !Owned(d, u) && RenewSpec(d, u) == d && forall v: Verdict :: SettleSpec(d, u, v) == d
  {
    RunKeepsInv(START, ops);
    StaleForever(RunFrom(START, ops), later, u);
  }

  predicate ExactlyOne(a: bool, b: bool, c: bool, d: bool) {
    (a || b || c || d) && !(a && b) && !(a && c) && !(a && d) && !(b && c) && !(b && d) && !(c && d)
  }

  /** Conservation: in every run each enqueued notification is exactly one of
      live, dead-lettered, completed, or gone with its deleted channel. */
  lemma EveryRowAccountedFor(ops: seq<Op>, id: nat)
    ensures var w := RunFrom(START, ops);
            id < w.db.nextId <==>
            ExactlyOne(Live(w.db, id), DeadLettered(w.db, id), id in w.completed, id in w.cascaded)
  {
    RunKeepsInv(START, ops);
    var w := RunFrom(START, ops);
    assert id in w.db.rows <==> id in w.db.rows.Keys;
  }

  /** Renewals and verdicts come from the holders of claimed jobs. */
  predicate FromClaim(w: World, op: Op) { op.Renew? || op.Settle? ==> op.token in w.issued }

  ghost predicate FromClaims(w: World, ops: seq<Op>)
    decreases |ops|
  {
    ops != [] ==> FromClaim(w, ops[0]) && FromClaims(Step(w, ops[0]), ops[1..])
  }

  /** `t` is the newest claim of its row, and its verdict took effect. */
  ghost predicate LastClaim(w: World, t: Token) {
    t in w.issued && t in w.settled && forall u | u in w.issued && u.id == t.id :: u.version <= t.version
  }

  ghost predicate ClaimInv(w: World) {
    && (forall t | t in w.settled :: t in w.issued)
    && (forall id | id in w.completed :: exists t: Token :: t.id == id && LastClaim(w, t))
  }

  lemma StepKeepsClaims(w: World, op: Op)
    requires Inv(w) && ClaimInv(w) && FromClaim(w, op)
    ensures ClaimInv(Step(w, op))
  {
    var w' := Step(w, op);
    forall id | id in w'.completed ensures exists t: Token :: t.id == id && LastClaim(w', t) {
      if id in w.completed {
        var t: Token :| t.id == id && LastClaim(w, t);
        assert id !in w.db.rows.Keys;
        assert LastClaim(w', t);
      } else {
        assert LastClaim(w', op.token);
      }
    }
  }

  lemma {:induction false} RunKeepsClaims(w: World, ops: seq<Op>)
    requires Inv(w) && ClaimInv(w) && FromClaims(w, ops)
    ensures ClaimInv(RunFrom(w, ops))
    decreases |ops|
  {
    if ops != [] {
      StepKeepsVersions(w, ops[0]);
      StepKeepsSettled(w, ops[0]);
      StepKeepsAccount(w, ops[0]);
      StepKeepsClaims(w, ops[0]);
      RunKeepsClaims(Step(w, ops[0]), ops[1..]);
    }
  }

  /** A row is completed by the verdict of its newest claim, and never claimed
      again: in every run where only claimed jobs are settled, each completed id
      has a token that was issued, settled, and is the newest one of the id. (A
      row scheduled for later that nobody has claimed would also yield to version
      0, which no claim issues.) */
  lemma CompletedWasClaimed(ops: seq<Op>, id: nat)
    requires FromClaims(START, ops) && id in RunFrom(START, ops).completed
    ensures exists t: Token :: t.id == id && LastClaim(RunFrom(START, ops), t)
  {
    RunKeepsClaims(START, ops);
  }
}
