/** One round of RunNotificationWorker (internal/app/notifications.go): claim,
    complete what does not decode, group, then renew, deliver and settle group
    by group. Time passes only in deliveries; other workers are the business of
    module Delivery, this one says what becomes of every claimed job. */
module Worker {
  import opened Options
  import opened Outbox
  import Delivery

  const BATCH_SIZE := 5

  /** What a payload decodes to, as far as grouping looks at it. */
  datatype Content = Content(typ: string, state: string, severity: string)

  datatype GroupKey = GroupKey(content: Content, channel: Option<int>)

  type Decoder = string -> Option<Content>

  /** How long a delivery took and whether it failed. */
  datatype Report = Report(elapsed: nat, failed: bool)

  type Courier = (int, GroupKey, seq<Job>) -> Report

  /** The delivery context ends every delivery. */
  ghost predicate Prompt(courier: Courier) {
    forall now, key, jobs :: courier(now, key, jobs).elapsed <= Delivery.DELIVERY_TIMEOUT
  }

  function TokenOf(j: Job): Token { Token(j.id, j.version) }

  function KeyOf(decode: Decoder, j: Job): Option<GroupKey> {
    match decode(j.payload)
    case None => None
    case Some(c) => Some(GroupKey(c, j.channel))
  }

  // ------------------------------------------------------------- grouping

  /** The jobs of one group, in claim order. */
  function Members(decode: Decoder, jobs: seq<Job>, key: Option<GroupKey>): seq<Job> {
    if jobs == [] then []
    else
      var r := Members(decode, jobs[..|jobs| - 1], key);
      if KeyOf(decode, jobs[|jobs| - 1]) == key then r + [jobs[|jobs| - 1]] else r
  }

  /** The groups in the order of their first jobs. */
  function Keys(decode: Decoder, jobs: seq<Job>): (r: seq<GroupKey>)
    ensures forall a, b | 0 <= a < b < |r| :: r[a] != r[b]
  {
    if jobs == [] then []
    else
      var r := Keys(decode, jobs[..|jobs| - 1]);
      var last := KeyOf(decode, jobs[|jobs| - 1]);
      if last.None? || last.value in r then r else r + [last.value]
  }

  // ------------------------------------------------------------ one group

  function RenewAll(db: Db, jobs: seq<Job>): Db {
    if jobs == [] then db else RenewSpec(RenewAll(db, jobs[..|jobs| - 1]), TokenOf(jobs[|jobs| - 1]))
  }

  /** The jobs whose renewal succeeds. */
  function Renewed(db: Db, jobs: seq<Job>): seq<Job> {
    if jobs == [] then []
    else
      var init, j := jobs[..|jobs| - 1], jobs[|jobs| - 1];
      if Owned(RenewAll(db, init), TokenOf(j)) then Renewed(db, init) + [j] else Renewed(db, init)
  }

  function SettleAll(db: Db, jobs: seq<Job>, failed: bool): Db {
    if jobs == [] then db
    else
      var j := jobs[|jobs| - 1];
      SettleSpec(SettleAll(db, jobs[..|jobs| - 1], failed), TokenOf(j),
          Delivery.VerdictFor(failed, j.attempts, db.clock))
  }

  function RunGroup(db: Db, key: GroupKey, jobs: seq<Job>, courier: Courier): Db {
    var ready := Renewed(db, jobs);
    var d := RenewAll(db, jobs);
    if ready == [] then d
    else
      var report := courier(d.clock, key, ready);
      SettleAll(d.(clock := d.clock + report.elapsed), ready, report.failed)
  }

  function RunGroups(db: Db, decode: Decoder, jobs: seq<Job>, keys: seq<GroupKey>, courier: Courier): Db {
    if keys == [] then db
    else
      var key := keys[|keys| - 1];
      RunGroup(RunGroups(db, decode, jobs, keys[..|keys| - 1], courier), key, Members(decode, jobs, Some(key)), courier)
  }

  lemma RunGroupsStep(db: Db, decode: Decoder, jobs: seq<Job>, keys: seq<GroupKey>, i: nat, courier: Courier)
    requires i < |keys|
    ensures RunGroups(db, decode, jobs, keys[..i + 1], courier)
         == RunGroup(RunGroups(db, decode, jobs, keys[..i], courier), keys[i],
                     Members(decode, jobs, Some(keys[i])), courier)
  {
    assert keys[..i + 1][..i] == keys[..i];
  }

  function CompleteAll(db: Db, jobs: seq<Job>): Db {
    if jobs == [] then db else SettleSpec(CompleteAll(db, jobs[..|jobs| - 1]), TokenOf(jobs[|jobs| - 1]), Complete)
  }

  /** Everything after the claim. */
  function Work(db: Db, decode: Decoder, jobs: seq<Job>, courier: Courier): Db {
    RunGroups(CompleteAll(db, Members(decode, jobs, None)), decode, jobs, Keys(decode, jobs), courier)
  }

  // ------------------------------------------------- the program's worker

  class NotificationWorker {
    const store: Outbox
    const decode: Decoder
    const courier: Courier

    constructor (store: Outbox, decode: Decoder, courier: Courier)
      ensures this.store == store && this.decode == decode && this.courier == courier
    {
      this.store, this.decode, this.courier := store, decode, courier;
    }

    /** One round; `full` says that more jobs may be due. */
    method Run(locked: set<nat>) returns (full: bool, ghost jobs: seq<Job>)
      modifies store
      ensures Selection(old(store.View()), JobIds(jobs), 5, locked)
      ensures Claimed(ClaimSpec(old(store.View()), set id | id in JobIds(jobs)), jobs)
      ensures store.View() == Work(ClaimSpec(old(store.View()), set id | id in JobIds(jobs)), decode, jobs, courier)
      ensures full <==> |jobs| == 5
    {
      ghost var start := store.View();
      var claimed := store.ClaimNotificationJobs(BATCH_SIZE, locked);
      jobs := claimed;
      JobsAreClaimed(start, store.View(), BATCH_SIZE, locked, jobs);
      var groups, order := GroupJobs(claimed);
      DeliverGroups(claimed, groups, order);
      full := |claimed| == BATCH_SIZE;
    }

    method DeliverGroups(jobs: seq<Job>, groups: map<GroupKey, seq<Job>>, order: seq<GroupKey>)
      requires Grouped(decode, jobs, groups, order)
      modifies store
      ensures store.View() == RunGroups(old(store.View()), decode, jobs, order, courier)
    {
      ghost var start := store.View();
      var i := 0;
      while i < |order|
        invariant 0 <= i <= |order|
        invariant store.View() == RunGroups(start, decode, jobs, order[..i], courier)
      {
        RunGroupsStep(start, decode, jobs, order, i, courier);
        DeliverGroup(order[i], groups[order[i]]);
        i := i + 1;
      }
      assert order[..i] == order;
    }

    method GroupJobs(jobs: seq<Job>) returns (groups: map<GroupKey, seq<Job>>, order: seq<GroupKey>)
      modifies store`rows
      ensures store.View() == CompleteAll(old(store.View()), Members(decode, jobs, None))
      ensures Grouped(decode, jobs, groups, order) && order == Keys(decode, jobs)
    {
      groups, order := map[], [];
      ghost var start := store.View();
      var i := 0;
      while i < |jobs|
        invariant 0 <= i <= |jobs|
        invariant store.View() == CompleteAll(start, Members(decode, jobs[..i], None))
        invariant Grouped(decode, jobs[..i], groups, order)
      {
        GroupedGrows(decode, jobs[..i], jobs[i], groups, order);
        InvalidGrows(start, decode, jobs[..i], jobs[i]);
        assert jobs[..i + 1] == jobs[..i] + [jobs[i]];
        groups, order := Place(jobs[i], groups, order);
        i := i + 1;
      }
      assert jobs[..i] == jobs;
    }

    /** A job joins its group; one that does not decode is completed. */
    method Place(job: Job, groups: map<GroupKey, seq<Job>>, order: seq<GroupKey>)
      returns (groups': map<GroupKey, seq<Job>>, order': seq<GroupKey>)
      modifies store`rows
      ensures KeyOf(decode, job).None? ==>
                && groups' == groups && order' == order
                && store.View() == SettleSpec(old(store.View()), TokenOf(job), Complete)
      ensures KeyOf(decode, job).Some? ==>
                && groups' == GroupsWith(groups, KeyOf(decode, job).value, job)
                && order' == OrderWith(order, KeyOf(decode, job).value) && store.View() == old(store.View())
    {
      groups', order' := groups, order;
      var key := KeyOf(decode, job);
      if key.None? {
        var _ := store.CompleteNotification(TokenOf(job));
      } else {
        groups', order' := GroupsWith(groups, key.value, job), OrderWith(order, key.value);
      }
    }

    method DeliverGroup(key: GroupKey, jobs: seq<Job>)
      modifies store
      ensures store.View() == RunGroup(old(store.View()), key, jobs, courier)
    {
      var ready := RenewJobs(jobs);
      if ready == [] { return; }
      var report := courier(store.clock, key, ready);
      store.clock := store.clock + report.elapsed;
      SettleJobs(ready, report.failed);
    }

    method RenewJobs(jobs: seq<Job>) returns (ready: seq<Job>)
      modifies store`rows
      ensures store.View() == RenewAll(old(store.View()), jobs) && ready == Renewed(old(store.View()), jobs)
    {
      ready := [];
      var i := 0;
      while i < |jobs|
        invariant 0 <= i <= |jobs|
        invariant store.View() == RenewAll(old(store.View()), jobs[..i])
        invariant ready == Renewed(old(store.View()), jobs[..i])
      {
        assert jobs[..i + 1][..i] == jobs[..i];
        var ok := store.RenewNotification(TokenOf(jobs[i]));
        if ok { ready := ready + [jobs[i]]; }
        i := i + 1;
      }
      assert jobs[..i] == jobs;
    }

    method SettleJobs(jobs: seq<Job>, failed: bool)
      modifies store`rows
      ensures store.View() == SettleAll(old(store.View()), jobs, failed)
    {
      var i := 0;
      while i < |jobs|
        invariant 0 <= i <= |jobs|
        invariant store.View() == SettleAll(old(store.View()), jobs[..i], failed)
        invariant store.clock == old(store.clock)
      {
        assert jobs[..i + 1][..i] == jobs[..i];
        var token, attempts := TokenOf(jobs[i]), jobs[i].attempts;
        if !failed {
          var _ := store.CompleteNotification(token);
        } else if attempts >= Delivery.MAX_ATTEMPTS {
          var _ := store.DeadNotification(token);
        } else {
          var _ := store.FailNotification(token, store.clock + Delivery.RetryDelay(attempts));
        }
        i := i + 1;
      }
      assert jobs[..i] == jobs;
    }
  }

  function OrderWith(order: seq<GroupKey>, key: GroupKey): seq<GroupKey> {
    if key in order then order else order + [key]
  }

  function GroupsWith(groups: map<GroupKey, seq<Job>>, key: GroupKey, job: Job): map<GroupKey, seq<Job>> {
    groups[key := (if key in groups then groups[key] else []) + [job]]
  }

  /** Every job is in the group of its key, in claim order. */
  ghost predicate Grouped(decode: Decoder, jobs: seq<Job>, groups: map<GroupKey, seq<Job>>, order: seq<GroupKey>) {
    && order == Keys(decode, jobs)
    && (forall k :: k in groups <==> k in order)
    && forall k | k in groups :: groups[k] == Members(decode, jobs, Some(k))
  }

  lemma GroupedGrows(decode: Decoder, jobs: seq<Job>, job: Job, groups: map<GroupKey, seq<Job>>, order: seq<GroupKey>)
    requires Grouped(decode, jobs, groups, order)
    ensures var key := KeyOf(decode, job);
            if key.None? then Grouped(decode, jobs + [job], groups, order)
            else Grouped(decode, jobs + [job], GroupsWith(groups, key.value, job), OrderWith(order, key.value))
  {
    var key := KeyOf(decode, job);
    KeysGrow(decode, jobs, job);
    if key.Some? {
      var grown := GroupsWith(groups, key.value, job);
      KeysCover(decode, jobs, key.value);
      forall k | k in grown ensures grown[k] == Members(decode, jobs + [job], Some(k)) {
        MembersGrow(decode, jobs, job, Some(k));
      }
    } else {
      forall k | k in groups ensures groups[k] == Members(decode, jobs + [job], Some(k)) {
        MembersGrow(decode, jobs, job, Some(k));
      }
    }
  }

  lemma InvalidGrows(db: Db, decode: Decoder, jobs: seq<Job>, job: Job)
    ensures var done := CompleteAll(db, Members(decode, jobs, None));
            CompleteAll(db, Members(decode, jobs + [job], None))
              == if KeyOf(decode, job).None? then SettleSpec(done, TokenOf(job), Complete) else done
  {
    var m := Members(decode, jobs, None);
    MembersGrow(decode, jobs, job, None);
    assert (m + [job])[..|m|] == m;
  }

  // What a claim returns is leased, row by row.
  lemma JobsAreClaimed(db: Db, d: Db, n: nat, locked: set<nat>, jobs: seq<Job>)
    requires Selection(db, JobIds(jobs), n, locked) && d == ClaimSpec(db, set id | id in JobIds(jobs))
    requires forall i | 0 <= i < |jobs| :: Owned(d, TokenOf(jobs[i])) && jobs[i] == JobOf(d.rows, jobs[i].id)
    ensures Claimed(d, jobs)
  {
    forall i | 0 <= i < |jobs| ensures d.rows[jobs[i].id].nextAt == d.clock + LeaseSeconds(jobs[i].attempts) {
      assert JobIds(jobs)[i] == jobs[i].id && jobs[i].id in JobIds(jobs);
      assert Due(db, JobIds(jobs)[i]);
    }
    forall a, b | 0 <= a < b < |jobs| ensures jobs[a].id != jobs[b].id {
      assert JobIds(jobs)[a] != JobIds(jobs)[b];
    }
  }

  lemma MembersGrow(decode: Decoder, jobs: seq<Job>, job: Job, k: Option<GroupKey>)
    ensures Members(decode, jobs + [job], k) == Members(decode, jobs, k) + if KeyOf(decode, job) == k then [job] else []
  {
    assert (jobs + [job])[..|jobs|] == jobs;
  }

  lemma KeysGrow(decode: Decoder, jobs: seq<Job>, job: Job)
    ensures var key := KeyOf(decode, job);
            Keys(decode, jobs + [job])
              == if key.None? || key.value in Keys(decode, jobs) then Keys(decode, jobs)
                 else Keys(decode, jobs) + [key.value]
  {
    assert (jobs + [job])[..|jobs|] == jobs;
  }

  /** Every job that decodes has its group, and every group a job. */
  lemma {:induction false} KeysCover(decode: Decoder, jobs: seq<Job>, k: GroupKey)
    ensures k in Keys(decode, jobs) <==> Members(decode, jobs, Some(k)) != []
    decreases |jobs|
  {
    if jobs != [] { KeysCover(decode, jobs[..|jobs| - 1], k); }
  }

  // -------------------------------------------- what becomes of every job

  /** The jobs are distinct rows, each leased to its token for its lease time. */
  ghost predicate Claimed(db: Db, jobs: seq<Job>) {
    && DistinctIds(jobs)
    && forall j | j in jobs ::
         && Owned(db, TokenOf(j)) && db.rows[j.id].attempts == j.attempts
         && db.rows[j.id].nextAt == db.clock + LeaseSeconds(j.attempts)
  }

  predicate DistinctIds(jobs: seq<Job>) { forall a, b | 0 <= a < b < |jobs| :: jobs[a].id != jobs[b].id }

  /** The row of `id`, if there is one. */
  function RowOf(db: Db, id: nat): Option<Row> { if id in db.rows then Some(db.rows[id]) else None }

  predicate Concerns(jobs: seq<Job>, id: nat) { exists j :: j in jobs && j.id == id }

  lemma {:induction false} OthersKeepTheirRows(db: Db, jobs: seq<Job>, failed: bool, id: nat)
    requires !Concerns(jobs, id)
    ensures RowOf(RenewAll(db, jobs), id) == RowOf(db, id) && RenewAll(db, jobs).clock == db.clock
    ensures RowOf(SettleAll(db, jobs, failed), id) == RowOf(db, id) && SettleAll(db, jobs, failed).clock == db.clock
    ensures RowOf(CompleteAll(db, jobs), id) == RowOf(db, id) && CompleteAll(db, jobs).clock == db.clock
    decreases |jobs|
  {
    if jobs != [] {
      var init, last := jobs[..|jobs| - 1], jobs[|jobs| - 1];
      assert last in jobs && forall j | j in init :: j in jobs;
      OthersKeepTheirRows(db, init, failed, id);
    }
  }

  lemma LastIsAlone(jobs: seq<Job>)
    requires jobs != [] && DistinctIds(jobs)
    ensures DistinctIds(jobs[..|jobs| - 1]) && !Concerns(jobs[..|jobs| - 1], jobs[|jobs| - 1].id)
  {}

  /** Renewal succeeds exactly for the jobs that still own their rows. */
  lemma {:induction false} RenewalIsOwnership(db: Db, jobs: seq<Job>, j: Job)
    requires DistinctIds(jobs) && j in jobs
    ensures j in Renewed(db, jobs) <==> Owned(db, TokenOf(j))
    ensures RowOf(RenewAll(db, jobs), j.id) == RowOf(RenewSpec(db, TokenOf(j)), j.id)
    ensures RenewAll(db, jobs).clock == db.clock
    decreases |jobs|
  {
    var init, last := jobs[..|jobs| - 1], jobs[|jobs| - 1];
    LastIsAlone(jobs);
    OthersKeepTheirRows(db, init, false, last.id);
    RenewedAreJobs(db, init);
    if j == last {
      assert j !in init;
    } else {
      assert j in init;
      RenewalIsOwnership(db, init, j);
      assert j.id != last.id;
    }
  }

  lemma {:induction false} RenewedAreJobs(db: Db, jobs: seq<Job>)
    ensures forall j | j in Renewed(db, jobs) :: j in jobs
    ensures DistinctIds(jobs) ==> DistinctIds(Renewed(db, jobs))
    decreases |jobs|
  {
    if jobs != [] {
      RenewedAreJobs(db, jobs[..|jobs| - 1]);
      var r := Renewed(db, jobs[..|jobs| - 1]);
      assert forall a | 0 <= a < |r| :: r[a] in r;
    }
  }

  lemma {:induction false} VerdictsAreIndependent(db: Db, jobs: seq<Job>, failed: bool, j: Job)
    requires DistinctIds(jobs) && j in jobs
    ensures RowOf(SettleAll(db, jobs, failed), j.id)
         == RowOf(SettleSpec(db, TokenOf(j), Delivery.VerdictFor(failed, j.attempts, db.clock)), j.id)
    ensures RowOf(CompleteAll(db, jobs), j.id) == RowOf(SettleSpec(db, TokenOf(j), Complete), j.id)
    decreases |jobs|
  {
    var init, last := jobs[..|jobs| - 1], jobs[|jobs| - 1];
    LastIsAlone(jobs);
    OthersKeepTheirRows(db, init, failed, last.id);
    if j != last {
      assert j in init;
      VerdictsAreIndependent(db, init, failed, j);
      assert j.id != last.id;
    }
  }

  /** What a verdict at time `now` makes of a leased row. */
  function SettledRow(r: Row, attempts: int, failed: bool, now: int): Option<Row> {
    match Delivery.VerdictFor(failed, attempts, now)
    case Complete => None
    case Fail(next) => Some(r.(nextAt := next, version := r.version + 1))
    case Dead => Some(r.(deadAt := Some(now), version := r.version + 1))
  }

  /** The row after its group's turn: renewed, then settled under the delivery's
      outcome, which the renewal outlasts; or left alone because the lease ran out. */
  function AfterTurn(before: Db, key: GroupKey, jobs: seq<Job>, courier: Courier, j: Job): Option<Row> {
    if !Owned(before, TokenOf(j)) then RowOf(before, j.id)
    else
      var report := courier(before.clock, key, Renewed(before, jobs));
      var renewed := before.rows[j.id].(nextAt := before.clock + 60);
      SettledRow(renewed, j.attempts, report.failed, before.clock + report.elapsed)
  }

  lemma GroupIsSettled(db: Db, key: GroupKey, jobs: seq<Job>, courier: Courier, j: Job)
    requires DistinctIds(jobs) && j in jobs && Prompt(courier)
    ensures RowOf(RunGroup(db, key, jobs, courier), j.id) == AfterTurn(db, key, jobs, courier, j)
  {
    var ready, d := Renewed(db, jobs), RenewAll(db, jobs);
    RenewalIsOwnership(db, jobs, j);
    RenewedAreJobs(db, jobs);
    if ready != [] {
      var report := courier(d.clock, key, ready);
      var e := d.(clock := d.clock + report.elapsed);
      if j in ready {
        VerdictsAreIndependent(e, ready, report.failed, j);
      } else {
        NotReady(db, jobs, j);
        OthersKeepTheirRows(e, ready, report.failed, j.id);
      }
    }
  }

  lemma NotReady(db: Db, jobs: seq<Job>, j: Job)
    requires DistinctIds(jobs) && j in jobs && j !in Renewed(db, jobs)
    ensures !Concerns(Renewed(db, jobs), j.id)
  {
    RenewedAreJobs(db, jobs);
    forall i | i in Renewed(db, jobs) ensures i.id != j.id { SameIdSameJob(jobs, i, j); }
  }

  lemma SameIdSameJob(jobs: seq<Job>, a: Job, b: Job)
    requires DistinctIds(jobs) && a in jobs && b in jobs
    ensures a.id == b.id ==> a == b
  {}

  lemma GroupLeavesOthers(db: Db, key: GroupKey, jobs: seq<Job>, courier: Courier, id: nat)
    requires !Concerns(jobs, id)
    ensures RowOf(RunGroup(db, key, jobs, courier), id) == RowOf(db, id)
  {
    OthersKeepTheirRows(db, jobs, false, id);
    RenewedAreJobs(db, jobs);
    var ready, d := Renewed(db, jobs), RenewAll(db, jobs);
    if ready != [] {
      var report := courier(d.clock, key, ready);
      OthersKeepTheirRows(d.(clock := d.clock + report.elapsed), ready, report.failed, id);
    }
  }

  lemma {:induction false} SettlingTakesNoTime(db: Db, jobs: seq<Job>, failed: bool)
    ensures RenewAll(db, jobs).clock == SettleAll(db, jobs, failed).clock == CompleteAll(db, jobs).clock == db.clock
    decreases |jobs|
  {
    if jobs != [] { SettlingTakesNoTime(db, jobs[..|jobs| - 1], failed); }
  }

  lemma GroupTakes(db: Db, key: GroupKey, jobs: seq<Job>, courier: Courier)
    requires Prompt(courier)
    ensures db.clock <= RunGroup(db, key, jobs, courier).clock <= db.clock + Delivery.DELIVERY_TIMEOUT
  {
    var ready, d := Renewed(db, jobs), RenewAll(db, jobs);
    SettlingTakesNoTime(db, jobs, false);
    if ready != [] {
      var report := courier(d.clock, key, ready);
      SettlingTakesNoTime(d.(clock := d.clock + report.elapsed), ready, report.failed);
    }
  }

  lemma {:induction false} GroupsTake(db: Db, decode: Decoder, jobs: seq<Job>, keys: seq<GroupKey>, courier: Courier)
    requires Prompt(courier)
    ensures var end := RunGroups(db, decode, jobs, keys, courier).clock;
            db.clock <= end <= db.clock + Delivery.DELIVERY_TIMEOUT * |keys|
    decreases |keys|
  {
    if keys != [] {
      var init, key := keys[..|keys| - 1], keys[|keys| - 1];
      GroupsTake(db, decode, jobs, init, courier);
      GroupTakes(RunGroups(db, decode, jobs, init, courier), key, Members(decode, jobs, Some(key)), courier);
    }
  }

  /** A job's row is touched in the turn of its own group only. */
  lemma {:induction false} OtherGroupsLeaveIt(db: Db, decode: Decoder, jobs: seq<Job>, keys: seq<GroupKey>,
      courier: Courier, id: nat)
    requires forall k | k in keys :: !Concerns(Members(decode, jobs, Some(k)), id)
    ensures RowOf(RunGroups(db, decode, jobs, keys, courier), id) == RowOf(db, id)
    decreases |keys|
  {
    if keys != [] {
      var init, key := keys[..|keys| - 1], keys[|keys| - 1];
      assert key in keys && forall k | k in init :: k in keys;
      OtherGroupsLeaveIt(db, decode, jobs, init, courier, id);
      GroupLeavesOthers(RunGroups(db, decode, jobs, init, courier), key, Members(decode, jobs, Some(key)), courier, id);
    }
  }

  lemma {:induction false} LaterGroupsLeaveIt(db: Db, decode: Decoder, jobs: seq<Job>, keys: seq<GroupKey>, n: nat,
      courier: Courier, id: nat)
    requires n <= |keys| && forall i | n <= i < |keys| :: !Concerns(Members(decode, jobs, Some(keys[i])), id)
    ensures RowOf(RunGroups(db, decode, jobs, keys, courier), id)
              == RowOf(RunGroups(db, decode, jobs, keys[..n], courier), id)
    decreases |keys|
  {
    if n == |keys| {
      assert keys[..n] == keys;
    } else {
      var init, key := keys[..|keys| - 1], keys[|keys| - 1];
      assert init[..n] == keys[..n];
      LaterGroupsLeaveIt(db, decode, jobs, init, n, courier, id);
      GroupLeavesOthers(RunGroups(db, decode, jobs, init, courier), key, Members(decode, jobs, Some(key)), courier, id);
    }
  }

  lemma {:induction false} MembersAre(decode: Decoder, jobs: seq<Job>, key: Option<GroupKey>)
    ensures forall j :: j in Members(decode, jobs, key) <==> j in jobs && KeyOf(decode, j) == key
    decreases |jobs|
  {
    if jobs != [] {
      MembersAre(decode, jobs[..|jobs| - 1], key);
      assert jobs == jobs[..|jobs| - 1] + [jobs[|jobs| - 1]];
    }
  }

  /** What is sent together belongs together: two jobs are in one group exactly if
      both decode, to the same type, state and severity, for the same channel. */
  lemma GroupsAreAlike(decode: Decoder, jobs: seq<Job>, a: Job, b: Job)
    requires a in jobs && b in jobs
    ensures (exists key: GroupKey :: a in Members(decode, jobs, Some(key)) && b in Members(decode, jobs, Some(key)))
       <==> decode(a.payload).Some? && decode(a.payload) == decode(b.payload) && a.channel == b.channel
  {
    forall key: GroupKey
      ensures a in Members(decode, jobs, Some(key)) <==> KeyOf(decode, a) == Some(key)
      ensures b in Members(decode, jobs, Some(key)) <==> KeyOf(decode, b) == Some(key)
    {
      MembersAre(decode, jobs, Some(key));
    }
    if decode(a.payload).Some? {
      var key := KeyOf(decode, a).value;
      assert a in Members(decode, jobs, Some(key));
    }
  }

  lemma {:induction false} MembersAreDistinct(decode: Decoder, jobs: seq<Job>, key: Option<GroupKey>)
    requires DistinctIds(jobs)
    ensures DistinctIds(Members(decode, jobs, key))
    decreases |jobs|
  {
    if jobs != [] {
      var init := jobs[..|jobs| - 1];
      MembersAreDistinct(decode, init, key);
      LastIsAlone(jobs);
      MembersAre(decode, init, key);
      var r := Members(decode, init, key);
      assert forall a | 0 <= a < |r| :: r[a] in r;
    }
  }

  lemma NotInOtherGroup(decode: Decoder, jobs: seq<Job>, j: Job, key: Option<GroupKey>)
    requires DistinctIds(jobs) && j in jobs && key != KeyOf(decode, j)
    ensures !Concerns(Members(decode, jobs, key), j.id)
  {
    MembersAre(decode, jobs, key);
    forall m | m in Members(decode, jobs, key) ensures m.id != j.id { SameIdSameJob(jobs, m, j); }
  }

  /** What the table looks like when the i-th group's turn comes. */
  function BeforeTurn(db: Db, decode: Decoder, jobs: seq<Job>, courier: Courier, i: nat): Db
    requires i <= |Keys(decode, jobs)|
  {
    RunGroups(CompleteAll(db, Members(decode, jobs, None)), decode, jobs, Keys(decode, jobs)[..i], courier)
  }

  lemma UntilItsTurn(db: Db, decode: Decoder, jobs: seq<Job>, courier: Courier, j: Job, i: nat)
    requires DistinctIds(jobs) && Prompt(courier) && j in jobs
    requires i < |Keys(decode, jobs)| && KeyOf(decode, j) == Some(Keys(decode, jobs)[i])
    ensures var before := BeforeTurn(db, decode, jobs, courier, i);
            && RowOf(before, j.id) == RowOf(db, j.id)
            && db.clock <= before.clock <= db.clock + Delivery.DELIVERY_TIMEOUT * i
  {
    var invalid, keys := Members(decode, jobs, None), Keys(decode, jobs)[..i];
    var start := CompleteAll(db, invalid);
    NotInOtherGroup(decode, jobs, j, None);
    OthersKeepTheirRows(db, invalid, false, j.id);
    forall k | k in keys ensures !Concerns(Members(decode, jobs, Some(k)), j.id) {
      NotInOtherGroup(decode, jobs, j, Some(k));
    }
    OtherGroupsLeaveIt(start, decode, jobs, keys, courier, j.id);
    GroupsTake(start, decode, jobs, keys, courier);
  }

  lemma LeaseAtTurn(db: Db, before: Db, jobs: seq<Job>, j: Job, i: nat)
    requires Claimed(db, jobs) && j in jobs && RowOf(before, j.id) == RowOf(db, j.id)
    requires before.clock <= db.clock + Delivery.DELIVERY_TIMEOUT * i
    ensures Owned(before, TokenOf(j)) <==> before.clock < db.clock + LeaseSeconds(j.attempts)
    ensures Delivery.DELIVERY_TIMEOUT * i < LeaseSeconds(j.attempts) ==> Owned(before, TokenOf(j))
  {}

  lemma FromItsTurn(db: Db, decode: Decoder, jobs: seq<Job>, courier: Courier, j: Job, i: nat)
    requires DistinctIds(jobs) && j in jobs
    requires i < |Keys(decode, jobs)| && KeyOf(decode, j) == Some(Keys(decode, jobs)[i])
    ensures RowOf(Work(db, decode, jobs, courier), j.id)
         == RowOf(RunGroup(BeforeTurn(db, decode, jobs, courier, i), Keys(decode, jobs)[i],
                           Members(decode, jobs, KeyOf(decode, j)), courier), j.id)
  {
    var keys := Keys(decode, jobs);
    assert keys[..i + 1][..i] == keys[..i];
    forall k | i + 1 <= k < |keys| ensures !Concerns(Members(decode, jobs, Some(keys[k])), j.id) {
      NotInOtherGroup(decode, jobs, j, Some(keys[k]));
    }
    LaterGroupsLeaveIt(CompleteAll(db, Members(decode, jobs, None)), decode, jobs, keys, i + 1, courier, j.id);
  }

  /** Every claimed job of a group is delivered and settled once, in its group's
      turn, unless its lease has run out by then; which it cannot have while the
      turns before it fit into the lease. */
  lemma EveryJobIsSettled(db: Db, decode: Decoder, jobs: seq<Job>, courier: Courier, j: Job, i: nat)
    requires Claimed(db, jobs) && Prompt(courier) && j in jobs
    requires i < |Keys(decode, jobs)| && KeyOf(decode, j) == Some(Keys(decode, jobs)[i])
    ensures var before := BeforeTurn(db, decode, jobs, courier, i);
            && RowOf(Work(db, decode, jobs, courier), j.id)
               == AfterTurn(before, Keys(decode, jobs)[i], Members(decode, jobs, KeyOf(decode, j)), courier, j)
            && RowOf(before, j.id) == RowOf(db, j.id)
            && (Owned(before, TokenOf(j)) <==> before.clock < db.clock + LeaseSeconds(j.attempts))
            && (Delivery.DELIVERY_TIMEOUT * i < LeaseSeconds(j.attempts) ==> Owned(before, TokenOf(j)))
  {
    UntilItsTurn(db, decode, jobs, courier, j, i);
    LeaseAtTurn(db, BeforeTurn(db, decode, jobs, courier, i), jobs, j, i);
    FromItsTurn(db, decode, jobs, courier, j, i);
    MembersAreDistinct(decode, jobs, KeyOf(decode, j));
    MembersAre(decode, jobs, KeyOf(decode, j));
    var before, members := BeforeTurn(db, decode, jobs, courier, i), Members(decode, jobs, KeyOf(decode, j));
    GroupIsSettled(before, Keys(decode, jobs)[i], members, courier, j);
  }

  // -------------------------------------------- which leases last long enough

  lemma {:induction false} NoMoreGroupsThanJobs(decode: Decoder, jobs: seq<Job>)
    ensures |Keys(decode, jobs)| <= |jobs|
    decreases |jobs|
  {
    if jobs != [] { NoMoreGroupsThanJobs(decode, jobs[..|jobs| - 1]); }
  }

  /** A courier that always uses up the delivery context. */
  const SLOWEST: Courier := (now, key, jobs) => Report(Delivery.DELIVERY_TIMEOUT, false)

  lemma SlowGroupTakesAll(db: Db, key: GroupKey, jobs: seq<Job>, j: Job)
    requires DistinctIds(jobs) && j in jobs && Owned(db, TokenOf(j))
    ensures RunGroup(db, key, jobs, SLOWEST).clock == db.clock + Delivery.DELIVERY_TIMEOUT
  {
    RenewalIsOwnership(db, jobs, j);
    var ready, d := Renewed(db, jobs), RenewAll(db, jobs);
    SettlingTakesNoTime(d.(clock := d.clock + Delivery.DELIVERY_TIMEOUT), ready, false);
  }

  lemma NextTurn(db: Db, decode: Decoder, jobs: seq<Job>, courier: Courier, i: nat)
    requires i < |Keys(decode, jobs)|
    ensures var key := Keys(decode, jobs)[i];
            BeforeTurn(db, decode, jobs, courier, i + 1)
              == RunGroup(BeforeTurn(db, decode, jobs, courier, i), key, Members(decode, jobs, Some(key)), courier)
  {
    RunGroupsStep(CompleteAll(db, Members(decode, jobs, None)), decode, jobs, Keys(decode, jobs), i, courier);
  }

  /** With the slowest courier the first three turns take their full time. */
  lemma {:induction false} SlowTurns(db: Db, decode: Decoder, jobs: seq<Job>, i: nat)
    requires Claimed(db, jobs) && i <= 3 && i <= |Keys(decode, jobs)|
    ensures BeforeTurn(db, decode, jobs, SLOWEST, i).clock == db.clock + Delivery.DELIVERY_TIMEOUT * i
    decreases i
  {
    var invalid := Members(decode, jobs, None);
    SettlingTakesNoTime(db, invalid, false);
    if i > 0 {
      SlowTurns(db, decode, jobs, i - 1);
      SlowTurn(db, decode, jobs, i - 1);
    } else {
      assert Keys(decode, jobs)[..0] == [];
    }
  }

  lemma SlowTurn(db: Db, decode: Decoder, jobs: seq<Job>, i: nat)
    requires Claimed(db, jobs) && i <= 2 && i < |Keys(decode, jobs)|
    ensures BeforeTurn(db, decode, jobs, SLOWEST, i + 1).clock
         == BeforeTurn(db, decode, jobs, SLOWEST, i).clock + Delivery.DELIVERY_TIMEOUT
  {
    var key := Keys(decode, jobs)[i];
    var members := Members(decode, jobs, Some(key));
    NextTurn(db, decode, jobs, SLOWEST, i);
    KeysCover(decode, jobs, key);
    MembersAre(decode, jobs, Some(key));
    MembersAreDistinct(decode, jobs, Some(key));
    assert members[0] in members;
    EveryJobIsSettled(db, decode, jobs, SLOWEST, members[0], i);
    SlowGroupTakesAll(BeforeTurn(db, decode, jobs, SLOWEST, i), key, members, members[0]);
  }

  lemma {:induction false} TurnsTakeTime(db: Db, decode: Decoder, jobs: seq<Job>, courier: Courier, i: nat, k: nat)
    requires Prompt(courier) && i <= k <= |Keys(decode, jobs)|
    ensures BeforeTurn(db, decode, jobs, courier, i).clock <= BeforeTurn(db, decode, jobs, courier, k).clock
    decreases k
  {
    if i < k {
      var key := Keys(decode, jobs)[k - 1];
      TurnsTakeTime(db, decode, jobs, courier, i, k - 1);
      NextTurn(db, decode, jobs, courier, k - 1);
      GroupTakes(BeforeTurn(db, decode, jobs, courier, k - 1), key, Members(decode, jobs, Some(key)), courier);
    }
  }

  /** A claimed job still holds its lease when its group's turn comes, however
      long the deliveries before it take, exactly if it is in one of the first
      three groups or not on its first attempt. */
  lemma LeaseLastsIff(db: Db, decode: Decoder, jobs: seq<Job>, j: Job, i: nat)
    requires Claimed(db, jobs) && |jobs| <= 5 && j in jobs
    requires i < |Keys(decode, jobs)| && KeyOf(decode, j) == Some(Keys(decode, jobs)[i])
    ensures (forall courier: Courier | Prompt(courier) :: Owned(BeforeTurn(db, decode, jobs, courier, i), TokenOf(j)))
       <==> i <= 2 || j.attempts >= 2
  {
    NoMoreGroupsThanJobs(decode, jobs);
    if i <= 2 || j.attempts >= 2 {
      forall courier: Courier | Prompt(courier)
        ensures Owned(BeforeTurn(db, decode, jobs, courier, i), TokenOf(j))
      {
        EveryJobIsSettled(db, decode, jobs, courier, j, i);
      }
    } else {
      assert Prompt(SLOWEST);
      SlowTurns(db, decode, jobs, 3);
      TurnsTakeTime(db, decode, jobs, SLOWEST, 3, i);
      EveryJobIsSettled(db, decode, jobs, SLOWEST, j, i);
      assert !Owned(BeforeTurn(db, decode, jobs, SLOWEST, i), TokenOf(j));
    }
  }

  /** A job that does not decode is removed unsent. */
  lemma InvalidJobIsRemoved(db: Db, decode: Decoder, jobs: seq<Job>, courier: Courier, j: Job)
    requires Claimed(db, jobs) && j in jobs && KeyOf(decode, j).None?
    ensures j.id !in Work(db, decode, jobs, courier).rows
  {
    var invalid, keys := Members(decode, jobs, None), Keys(decode, jobs);
    MembersAreDistinct(decode, jobs, None);
    MembersAre(decode, jobs, None);
    VerdictsAreIndependent(db, invalid, false, j);
    forall k | k in keys ensures !Concerns(Members(decode, jobs, Some(k)), j.id) {
      NotInOtherGroup(decode, jobs, j, Some(k));
    }
    OtherGroupsLeaveIt(CompleteAll(db, invalid), decode, jobs, keys, courier, j.id);
  }

  lemma UnclaimedRowsStay(db: Db, decode: Decoder, jobs: seq<Job>, courier: Courier, id: nat)
    requires !Concerns(jobs, id)
    ensures RowOf(Work(db, decode, jobs, courier), id) == RowOf(db, id)
  {
    forall k ensures !Concerns(Members(decode, jobs, k), id) { MembersAre(decode, jobs, k); }
    OthersKeepTheirRows(db, Members(decode, jobs, None), false, id);
    OtherGroupsLeaveIt(CompleteAll(db, Members(decode, jobs, None)), decode, jobs, Keys(decode, jobs), courier, id);
  }
}
