/** The life of a notification over many rounds of the delivery worker: how often
    it is tried, how long it waits in between, and when it is given up. Numbers
    are spelled out here. Rounds of one worker, with time passing in between. */
module Retries {
  import opened Options
  import opened Outbox
  import opened Worker
  import Delivery

  /** A round: the time since the last one, the jobs claimed and how deliveries go. */
  datatype Round = Round(wait: nat, jobs: seq<Job>, courier: Courier)

  function Waited(db: Db, r: Round): Db { db.(clock := db.clock + r.wait) }

  function AfterClaim(db: Db, r: Round): Db { ClaimSpec(Waited(db, r), set j | j in r.jobs :: j.id) }

  function AfterRound(db: Db, decode: Decoder, r: Round): Db { Work(AfterClaim(db, r), decode, r.jobs, r.courier) }

  /** What a claim returns, in a round that respects the delivery time. */
  ghost predicate Proper(db: Db, r: Round) {
    && Claimed(AfterClaim(db, r), r.jobs) && Prompt(r.courier)
    && forall j | j in r.jobs :: Due(Waited(db, r), j.id)
  }

  /** The turn of a job's group. */
  ghost predicate Turn(decode: Decoder, r: Round, j: Job, i: nat) {
    i < |Keys(decode, r.jobs)| && KeyOf(decode, j) == Some(Keys(decode, r.jobs)[i])
  }

  /** The job is delivered in its group's turn, from `start` to `end`. */
  ghost predicate Tried(db: Db, decode: Decoder, r: Round, j: Job, start: int, end: int, failed: bool) {
    exists i: nat :: Turn(decode, r, j, i) && TriedAt(AfterClaim(db, r), decode, r, j, i, start, end, failed)
  }

  ghost predicate TriedAt(claimed: Db, decode: Decoder, r: Round, j: Job, i: nat, start: int, end: int, failed: bool)
    requires Turn(decode, r, j, i)
  {
    var before, report := BeforeTurn(claimed, decode, r.jobs, r.courier, i), ReportOf(claimed, decode, r, j, i);
    && Owned(before, TokenOf(j)) && start == before.clock
    && end == start + report.elapsed && failed == report.failed
  }

  /** The report of the delivery that the job is part of. */
  function ReportOf(claimed: Db, decode: Decoder, r: Round, j: Job, i: nat): Report
    requires i < |Keys(decode, r.jobs)|
  {
    var before := BeforeTurn(claimed, decode, r.jobs, r.courier, i);
    r.courier(before.clock, Keys(decode, r.jobs)[i], Renewed(before, Members(decode, r.jobs, KeyOf(decode, j))))
  }

  lemma ClaimedJob(db: Db, r: Round, j: Job)
    requires Proper(db, r) && j in r.jobs
    ensures j.id in db.rows && db.rows[j.id].deadAt.None? && j.id in AfterClaim(db, r).rows
    ensures j.attempts == db.rows[j.id].attempts + 1
    ensures AfterClaim(db, r).rows[j.id] == Leased(db.rows[j.id], db.clock + r.wait)
  {
    assert Due(Waited(db, r), j.id);
  }

  /** One try. A failed one leaves the row live with one attempt more, due again
      10 s after the first failure, 60 s after the second and 300 s after the
      third and fourth; the fifth failure ends in the dead letters. A successful
      one removes the row. */
  lemma OneTry(db: Db, decode: Decoder, r: Round, j: Job, start: int, end: int, failed: bool)
    requires Proper(db, r) && j in r.jobs && Tried(db, decode, r, j, start, end, failed)
    ensures j.id in db.rows && db.rows[j.id].deadAt.None? && start <= end <= start + 20
    ensures var d, was := AfterRound(db, decode, r), db.rows[j.id];
            && (j.id in d.rows <==> failed)
            && (failed ==>
                  && d.rows[j.id].attempts == was.attempts + 1
                  && d.rows[j.id].payload == was.payload && d.rows[j.id].channel == was.channel
                  && d.rows[j.id].deadAt == (if was.attempts >= 4 then Some(end) else None)
                  && (was.attempts <= 0 ==> d.rows[j.id].nextAt == end + 10)
                  && (was.attempts == 1 ==> d.rows[j.id].nextAt == end + 60)
                  && (2 <= was.attempts <= 3 ==> d.rows[j.id].nextAt == end + 300))
  {
    ClaimedJob(db, r, j);
    TryIsSettled(db, decode, r, j, start, end, failed);
    SettledInNumbers(db.rows[j.id], db.clock + r.wait, start, end, failed);
  }

  lemma TryIsSettled(db: Db, decode: Decoder, r: Round, j: Job, start: int, end: int, failed: bool)
    requires Proper(db, r) && j in r.jobs && Tried(db, decode, r, j, start, end, failed)
    requires j.id in AfterClaim(db, r).rows
    ensures start <= end <= start + Delivery.DELIVERY_TIMEOUT
    ensures RowOf(AfterRound(db, decode, r), j.id)
         == SettledRow(AfterClaim(db, r).rows[j.id].(nextAt := start + 60), j.attempts, failed, end)
  {
    var i: nat :| Turn(decode, r, j, i) && TriedAt(AfterClaim(db, r), decode, r, j, i, start, end, failed);
    TurnOutcome(AfterClaim(db, r), decode, r, j, i);
    TurnIsSettled(AfterClaim(db, r), decode, r, j, i, start, end, failed);
  }

  lemma TurnIsSettled(claimed: Db, decode: Decoder, r: Round, j: Job, i: nat, start: int, end: int, failed: bool)
    requires Prompt(r.courier) && j.id in claimed.rows
    requires Turn(decode, r, j, i) && TriedAt(claimed, decode, r, j, i, start, end, failed)
    requires RowOf(BeforeTurn(claimed, decode, r.jobs, r.courier, i), j.id) == RowOf(claimed, j.id)
    ensures start <= end <= start + Delivery.DELIVERY_TIMEOUT
    ensures Outcome(claimed, decode, r, j, i)
         == SettledRow(claimed.rows[j.id].(nextAt := start + 60), j.attempts, failed, end)
  {
    OutcomeInTurn(claimed, decode, r, j, i);
  }

  /** What the turn of its group makes of the job's row. */
  function Outcome(claimed: Db, decode: Decoder, r: Round, j: Job, i: nat): Option<Row>
    requires i < |Keys(decode, r.jobs)|
  {
    AfterTurn(BeforeTurn(claimed, decode, r.jobs, r.courier, i), Keys(decode, r.jobs)[i],
              Members(decode, r.jobs, KeyOf(decode, j)), r.courier, j)
  }

  lemma TurnOutcome(claimed: Db, decode: Decoder, r: Round, j: Job, i: nat)
    requires Claimed(claimed, r.jobs) && Prompt(r.courier) && j in r.jobs && Turn(decode, r, j, i)
    ensures RowOf(Work(claimed, decode, r.jobs, r.courier), j.id) == Outcome(claimed, decode, r, j, i)
    ensures RowOf(BeforeTurn(claimed, decode, r.jobs, r.courier, i), j.id) == RowOf(claimed, j.id)
  {
    EveryJobIsSettled(claimed, decode, r.jobs, r.courier, j, i);
  }

  lemma OutcomeInTurn(claimed: Db, decode: Decoder, r: Round, j: Job, i: nat)
    requires Prompt(r.courier) && j.id in claimed.rows && i < |Keys(decode, r.jobs)|
    requires Owned(BeforeTurn(claimed, decode, r.jobs, r.courier, i), TokenOf(j))
    requires RowOf(BeforeTurn(claimed, decode, r.jobs, r.courier, i), j.id) == RowOf(claimed, j.id)
    ensures var start := BeforeTurn(claimed, decode, r.jobs, r.courier, i).clock;
            var report := ReportOf(claimed, decode, r, j, i);
            && report.elapsed <= Delivery.DELIVERY_TIMEOUT
            && Outcome(claimed, decode, r, j, i)
               == SettledRow(claimed.rows[j.id].(nextAt := start + 60), j.attempts,
                             report.failed, start + report.elapsed)
  {
    var before, key := BeforeTurn(claimed, decode, r.jobs, r.courier, i), Keys(decode, r.jobs)[i];
    AfterTurnOf(before, key, Members(decode, r.jobs, KeyOf(decode, j)), r.courier, j, claimed.rows[j.id]);
  }

  lemma AfterTurnOf(before: Db, key: GroupKey, jobs: seq<Job>, courier: Courier, j: Job, row: Row)
    requires Owned(before, TokenOf(j)) && RowOf(before, j.id) == Some(row) && Prompt(courier)
    ensures var report := courier(before.clock, key, Renewed(before, jobs));
            && report.elapsed <= Delivery.DELIVERY_TIMEOUT
            && AfterTurn(before, key, jobs, courier, j)
               == SettledRow(row.(nextAt := before.clock + 60), j.attempts,
                             report.failed, before.clock + report.elapsed)
  {}

  lemma SettledInNumbers(was: Row, claimed: int, start: int, end: int, failed: bool)
    requires was.deadAt.None?
    ensures var r := SettledRow(Leased(was, claimed).(nextAt := start + 60), was.attempts + 1, failed, end);
            && (r.Some? <==> failed)
            && (failed ==>
                  && r.value.attempts == was.attempts + 1
                  && r.value.payload == was.payload && r.value.channel == was.channel
                  && r.value.deadAt == (if was.attempts >= 4 then Some(end) else None)
                  && (was.attempts <= 0 ==> r.value.nextAt == end + 10)
                  && (was.attempts == 1 ==> r.value.nextAt == end + 60)
                  && (2 <= was.attempts <= 3 ==> r.value.nextAt == end + 300))
  {}

  // ------------------------------------------------------------ many rounds

  function RunRounds(db: Db, decode: Decoder, rounds: seq<Round>): Db
    decreases |rounds|
  {
    if rounds == [] then db else RunRounds(AfterRound(db, decode, rounds[0]), decode, rounds[1..])
  }

  /** How many rounds claimed the row. */
  function Tries(rounds: seq<Round>, id: nat): nat
    decreases |rounds|
  {
    if rounds == [] then 0 else (if Concerns(rounds[0].jobs, id) then 1 else 0) + Tries(rounds[1..], id)
  }

  ghost predicate IsTried(db: Db, decode: Decoder, r: Round, j: Job) {
    exists start, end, failed :: Tried(db, decode, r, j, start, end, failed)
  }

  /** Every claim of the row leads to a delivery: the payload decodes and the
      lease lasts until the group's turn. */
  ghost predicate LeaseLasts(db: Db, decode: Decoder, r: Round, id: nat) {
    Proper(db, r) && forall j | j in r.jobs && j.id == id :: IsTried(db, decode, r, j)
  }

  ghost predicate LeasesLast(db: Db, decode: Decoder, rounds: seq<Round>, id: nat)
    decreases |rounds|
  {
    rounds != [] ==>
      LeaseLasts(db, decode, rounds[0], id) && LeasesLast(AfterRound(db, decode, rounds[0]), decode, rounds[1..], id)
  }

  ghost predicate SucceedsIn(db: Db, decode: Decoder, r: Round, id: nat) {
    exists j, start, end :: j in r.jobs && j.id == id && Tried(db, decode, r, j, start, end, false)
  }

  ghost predicate Succeeds(db: Db, decode: Decoder, rounds: seq<Round>, id: nat)
    decreases |rounds|
  {
    && rounds != []
    && (SucceedsIn(db, decode, rounds[0], id) || Succeeds(AfterRound(db, decode, rounds[0]), decode, rounds[1..], id))
  }

  lemma IdleRound(db: Db, decode: Decoder, r: Round, id: nat)
    requires !Concerns(r.jobs, id)
    ensures RowOf(AfterRound(db, decode, r), id) == RowOf(db, id)
  {
    UnclaimedRowsStay(AfterClaim(db, r), decode, r.jobs, r.courier, id);
  }

  /** A round that claims the row finds it live, and ends it or counts an attempt. */
  lemma BusyRound(db: Db, decode: Decoder, r: Round, id: nat)
    requires LeaseLasts(db, decode, r, id) && Concerns(r.jobs, id)
    ensures id in db.rows && db.rows[id].deadAt.None?
    ensures var d := AfterRound(db, decode, r);
            && (SucceedsIn(db, decode, r, id) <==> id !in d.rows)
            && (id in d.rows ==>
                  && d.rows[id].attempts == db.rows[id].attempts + 1
                  && (d.rows[id].deadAt.Some? <==> d.rows[id].attempts >= 5))
  {
    var j :| j in r.jobs && j.id == id;
    var start, end, failed :| Tried(db, decode, r, j, start, end, failed);
    OneTry(db, decode, r, j, start, end, failed);
    if SucceedsIn(db, decode, r, id) {
      var k, s, e :| k in r.jobs && k.id == id && Tried(db, decode, r, k, s, e, false);
      OneTry(db, decode, r, k, s, e, false);
    }
  }

  /** The whole life of a notification: it leaves the table exactly when a
      delivery succeeds; until then every claim is one attempt, there are at most
      five of them, and the row is dead exactly after the fifth. */
  lemma {:induction false} LifeOfANotification(db: Db, decode: Decoder, rounds: seq<Round>, id: nat)
    requires LeasesLast(db, decode, rounds, id) && id in db.rows
    requires 0 <= db.rows[id].attempts <= 5 && (db.rows[id].deadAt.Some? <==> db.rows[id].attempts == 5)
    ensures var d := RunRounds(db, decode, rounds);
            && (id !in d.rows <==> Succeeds(db, decode, rounds, id))
            && (id in d.rows ==>
                  && d.rows[id].attempts == db.rows[id].attempts + Tries(rounds, id) <= 5
                  && (d.rows[id].deadAt.Some? <==> d.rows[id].attempts == 5))
    decreases |rounds|
  {
    if rounds != [] {
      var r, d := rounds[0], AfterRound(db, decode, rounds[0]);
      if Concerns(r.jobs, id) {
        BusyRound(db, decode, r, id);
        if id in d.rows {
          LifeOfANotification(d, decode, rounds[1..], id);
        } else {
          GoneForGood(d, decode, rounds[1..], id);
        }
      } else {
        IdleRound(db, decode, r, id);
        assert RowOf(d, id) == Some(db.rows[id]);
        LifeOfANotification(d, decode, rounds[1..], id);
      }
    }
  }

  lemma {:induction false} GoneForGood(db: Db, decode: Decoder, rounds: seq<Round>, id: nat)
    requires LeasesLast(db, decode, rounds, id) && id !in db.rows
    ensures id !in RunRounds(db, decode, rounds).rows && Tries(rounds, id) == 0
    decreases |rounds|
  {
    if rounds != [] {
      if Concerns(rounds[0].jobs, id) { BusyRound(db, decode, rounds[0], id); }
      IdleRound(db, decode, rounds[0], id);
      assert RowOf(AfterRound(db, decode, rounds[0]), id) == None;
      GoneForGood(AfterRound(db, decode, rounds[0]), decode, rounds[1..], id);
    }
  }

  /** Retrying a dead letter by hand starts all over: five more attempts. */
  lemma RetriedByHand(db: Db, decode: Decoder, rounds: seq<Round>, id: nat)
    requires Retryable(db, id) && LeasesLast(RetryDeadSpec(db, id), decode, rounds, id)
    ensures var d := RunRounds(RetryDeadSpec(db, id), decode, rounds);
            && (id !in d.rows <==> Succeeds(RetryDeadSpec(db, id), decode, rounds, id))
            && (id in d.rows ==>
                  && d.rows[id].attempts == Tries(rounds, id) <= 5
                  && (d.rows[id].deadAt.Some? <==> Tries(rounds, id) == 5))
  {
    LifeOfANotification(RetryDeadSpec(db, id), decode, rounds, id);
  }
}
