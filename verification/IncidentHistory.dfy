/** What an incident does, stated over the history of observations alone, and
    the guarantees that follow for every run from a fresh state under a fixed
    policy. `HistoryRefinement` is the link to the machine of module Incident. */
module IncidentHistory {
  import opened Options
  import opened Incident

  type History = seq<Step>

  function Before(h: History): History
    requires h != []
  {
    h[..|h| - 1]
  }

  function Last(h: History): Step
    requires h != []
  {
    h[|h| - 1]
  }

  /** Length of the current clean suffix: the trailing observations that all
      report `active`, ignore and hold nothing, and leave no gap in between. */
  function Suffix(p: Policy, h: History, active: bool): (n: nat)
    ensures n <= |h|
  {
    if h == [] || !Clean(Last(h).o) || Last(h).o.active != active then 0
    else if |h| >= 2 && GapTooLong(p, h[|h| - 2].o.at, Last(h).o.at) then 1
    else 1 + Suffix(p, Before(h), active)
  }

  /** The last `n` observations are clean, of one kind and without a gap. */
  predicate Unbroken(p: Policy, h: History, active: bool, n: int) {
    && n <= |h|
    && (forall i | |h| - n <= i < |h| :: Clean(h[i].o) && h[i].o.active == active)
    && (forall i | |h| - n < i < |h| :: !GapTooLong(p, h[i - 1].o.at, h[i].o.at))
  }

  /** The suffix is the longest unbroken one. */
  lemma {:induction false} SuffixIsLongestUnbroken(p: Policy, h: History, active: bool, n: int)
    ensures n <= Suffix(p, h, active) <==> Unbroken(p, h, active, n)
    decreases |h|
  {
    if 0 < n <= |h| {
      SuffixIsLongestUnbroken(p, Before(h), active, n - 1);
      UnbrokenStep(p, h, active, n);
    }
  }

  lemma UnbrokenStep(p: Policy, h: History, active: bool, n: int)
    requires 0 < n <= |h|
    ensures Unbroken(p, h, active, n) <==>
            && Clean(Last(h).o) && Last(h).o.active == active && Unbroken(p, Before(h), active, n - 1)
            && (n > 1 ==> !GapTooLong(p, h[|h| - 2].o.at, Last(h).o.at))
  {
    var b := Before(h);
    assert forall i | 0 <= i < |b| :: b[i] == h[i];
    if Unbroken(p, h, active, n) {
      assert Clean(h[|h| - 1].o) && h[|h| - 1].o.active == active;
      if n > 1 { assert !GapTooLong(p, h[|h| - 2].o.at, h[|h| - 1].o.at); }
    }
  }

  /** Whether the incident is confirmed: the last suffix long enough decides. */
  predicate ActiveBy(p: Policy, h: History) {
    if h == [] then false
    else if CleanActive(Last(h).o) && Suffix(p, h, true) >= p.firing then true
    else if CleanNormal(Last(h).o) && Suffix(p, h, false) >= p.recovery then false
    else ActiveBy(p, Before(h))
  }

  function NormalStart(p: Policy, h: History): int
    requires Suffix(p, h, false) > 0
  {
    h[|h| - Suffix(p, h, false)].o.at
  }

  /** The budget is renewed: an unbroken run of normal observations, ending
      here, has lasted at least StableFor. */
  predicate ResetAt(p: Policy, h: History) {
    && Suffix(p, h, false) > 0
    && !ActiveBy(p, h)
    && Last(h).o.at - NormalStart(p, h) >= p.stableFor
  }

  /** The notice of the last step. */
  function NoticeAt(p: Policy, h: History): Notice
    requires h != []
    decreases |h|, 0
  {
    var o, b := Last(h).o, Before(h);
    var blocked := BlockedUntil(p, b);
    if !Clean(o) || (blocked.Some? && o.at < blocked.value) then Quiet
    else if !o.active then
      if !ActiveBy(p, h) && LastNotice(p, b) == Firing then Resolved else Quiet
    else if ActiveBy(p, h) && (p.maxNotifications <= 0 || SinceReset(p, b) < p.maxNotifications)
            && MayFire(p, b, o.at) then Firing
    else Quiet
  }

  predicate MayFire(p: Policy, b: History, at: int)
    decreases |b|, 3
  {
    var previous := LastFiring(p, b);
    previous.Some? ==> at - previous.value >= p.cooldown && (p.repeat || LastNotice(p, b) != Firing)
  }

  predicate AcceptedAt(p: Policy, h: History, notice: Notice)
    requires h != []
    decreases |h|, 1
  {
    Last(h).delivered && NoticeAt(p, h) == notice
  }

  /** The last accepted notice, Quiet when there is none. */
  function LastNotice(p: Policy, h: History): Notice
    decreases |h|, 2
  {
    if h == [] then Quiet
    else if AcceptedAt(p, h, Firing) then Firing
    else if AcceptedAt(p, h, Resolved) then Resolved
    else LastNotice(p, Before(h))
  }

  /** Firings accepted since the budget was last renewed. */
  function SinceReset(p: Policy, h: History): nat
    decreases |h|, 2
  {
    if h == [] || ResetAt(p, h) then 0
    else SinceReset(p, Before(h)) + if AcceptedAt(p, h, Firing) then 1 else 0
  }

  /** The firing that the cooldown counts from. Without a stability period a
      recovery forgets it. */
  function LastFiring(p: Policy, h: History): Option<int>
    decreases |h|, 2
  {
    if h == [] then None
    else if AcceptedAt(p, h, Firing) then Some(Last(h).o.at)
    else if ResetAt(p, h) && p.stableFor == 0 then None
    else LastFiring(p, Before(h))
  }

  /** The end of the back-off that a failed enqueue started. */
  function BlockedUntil(p: Policy, h: History): Option<int>
    decreases |h|, 2
  {
    if h == [] then None
    else if NoticeAt(p, h) == Quiet then BlockedUntil(p, Before(h))
    else if Last(h).delivered then None
    else Some(Last(h).o.at + Backoff(p.cooldown))
  }

  // ------------------------------------------------------------ refinement

  function Cap(n: nat, limit: int): int {
    if n < limit then n else if limit < 0 then 0 else limit
  }

  /** The streaks, the confirmation and the start of the normal run. */
  predicate MatchesEvidence(s: Incident, p: Policy, h: History) {
    && s.lastObservedAt == (if h == [] then None else Some(Last(h).o.at))
    && s.active == ActiveBy(p, h)
    && s.firingStreak == Cap(Suffix(p, h, true), p.firing)
    && s.recoveryStreak == Cap(Suffix(p, h, false), p.recovery)
    && s.normalSince == (if Suffix(p, h, false) > 0 then Some(NormalStart(p, h)) else None)
  }

  /** The budget, the cooldown, the back-off and the last accepted notice. */
  predicate MatchesLedger(s: Incident, p: Policy, h: History) {
    && s.count == SinceReset(p, h)
    && s.lastFiringAt == LastFiring(p, h)
    && s.retryAfter == BlockedUntil(p, h)
    && s.notifiedActive == (if h == [] then None else Some(LastNotice(p, h) == Firing))
  }

  lemma EvidenceStep(s: Incident, p: Policy, h: History)
    requires h != [] && MatchesEvidence(s, p, Before(h))
    requires Before(h) == [] ==> s.notifiedActive.None?
    ensures MatchesEvidence(Observed(s, Last(h).o, p), p, h)
    ensures ResetAt(p, h) <==>
      CleanNormal(Last(h).o) && !Observed(s, Last(h).o, p).active
      && Last(h).o.at - Begin(s, Last(h).o.at, p).normalSince.GetOr(Last(h).o.at) >= p.stableFor
  {
    var o, b := Last(h).o, Before(h);
    if |h| >= 2 { assert h[|h| - 2] == Last(b); }
    if CleanNormal(o) && Suffix(p, b, false) > 0 && !(GapTooLong(p, h[|h| - 2].o.at, o.at)) {
      assert NormalStart(p, h) == NormalStart(p, b);
    }
  }

  lemma NoticeStep(s: Incident, p: Policy, h: History)
    requires h != [] && MatchesEvidence(s, p, Before(h)) && MatchesLedger(s, p, Before(h))
    requires Before(h) == [] ==> s == FRESH
    ensures NoticeOf(s, Last(h).o, p) == NoticeAt(p, h)
  {
    EvidenceStep(s, p, h);
    assert Last(h).o.active && Clean(Last(h).o) ==> Observed(s, Last(h).o, p).count == s.count;
  }

  lemma EvidenceHandled(s: Incident, p: Policy, h: History)
    requires h != [] && MatchesEvidence(s, p, Before(h))
    requires Before(h) == [] ==> s.notifiedActive.None?
    ensures MatchesEvidence(Handle(s, Last(h), p), p, h)
  {
    EvidenceStep(s, p, h);
    var t := Observed(s, Last(h).o, p);
    var u := Handle(s, Last(h), p);
    assert u.lastObservedAt == t.lastObservedAt && u.active == t.active && u.normalSince == t.normalSince;
    assert u.firingStreak == t.firingStreak && u.recoveryStreak == t.recoveryStreak;
  }

  lemma NotifiedHandled(s: Incident, p: Policy, h: History)
    requires h != [] && NoticeOf(s, Last(h).o, p) == NoticeAt(p, h)
    requires s.retryAfter == BlockedUntil(p, Before(h))
    requires Before(h) == [] ==> s == FRESH
    requires Before(h) != [] ==> s.notifiedActive == Some(LastNotice(p, Before(h)) == Firing)
    ensures Handle(s, Last(h), p).retryAfter == BlockedUntil(p, h)
    ensures Handle(s, Last(h), p).notifiedActive == Some(LastNotice(p, h) == Firing)
  {
    var t := Observed(s, Last(h).o, p);
    assert t.retryAfter == s.retryAfter;
    assert t.notifiedActive == Some(LastNotice(p, Before(h)) == Firing);
  }

  lemma BudgetHandled(s: Incident, p: Policy, h: History)
    requires h != [] && NoticeOf(s, Last(h).o, p) == NoticeAt(p, h)
    requires s.count == SinceReset(p, Before(h)) && s.lastFiringAt == LastFiring(p, Before(h))
    requires s.notifiedActive.None? ==> !s.active
    requires ResetAt(p, h) <==>
      CleanNormal(Last(h).o) && !Observed(s, Last(h).o, p).active
      && Last(h).o.at - Begin(s, Last(h).o.at, p).normalSince.GetOr(Last(h).o.at) >= p.stableFor
    ensures Handle(s, Last(h), p).count == SinceReset(p, h)
    ensures Handle(s, Last(h), p).lastFiringAt == LastFiring(p, h)
  {
    var t := Observed(s, Last(h).o, p);
    assert t.count == if ResetAt(p, h) then 0 else s.count;
    assert t.lastFiringAt == if ResetAt(p, h) && p.stableFor == 0 then None else s.lastFiringAt;
    assert NoticeAt(p, h) == Firing ==> !ResetAt(p, h);
  }

  /** The machine is its history: after any run every field has the value the
      history gives it, and every notice is the one the history calls for. In
      particular the streaks are exactly the capped clean suffixes. */
  lemma {:induction false} HistoryRefinement(p: Policy, h: History)
    ensures MatchesEvidence(Run(p, h), p, h) && MatchesLedger(Run(p, h), p, h)
    ensures h != [] ==> NoticeOf(Run(p, Before(h)), Last(h).o, p) == NoticeAt(p, h)
    decreases |h|
  {
    if h != [] {
      HistoryRefinement(p, Before(h));
      NoticeStep(Run(p, Before(h)), p, h);
      EvidenceHandled(Run(p, Before(h)), p, h);
      EvidenceStep(Run(p, Before(h)), p, h);
      NotifiedHandled(Run(p, Before(h)), p, h);
      BudgetHandled(Run(p, Before(h)), p, h);
    }
  }

  // ------------------------------------------------------------ guarantees

  predicate Monotone(h: History) {
    forall i, j | 0 <= i <= j < |h| :: h[i].o.at <= h[j].o.at
  }

  /** The notices accepted so far, as (time, notice) in order. */
  function Accepted(p: Policy, h: History): seq<(int, Notice)> {
    if h == [] then []
    else Accepted(p, Before(h)) +
         if Last(h).delivered && NoticeAt(p, h) != Quiet then [(Last(h).o.at, NoticeAt(p, h))] else []
  }

  /** The times of the accepted firings. */
  function Firings(p: Policy, h: History): seq<int> {
    if h == [] then []
    else Firings(p, Before(h)) + if AcceptedAt(p, h, Firing) then [Last(h).o.at] else []
  }

  lemma NoticeNeeds(p: Policy, h: History)
    requires h != []
    ensures NoticeAt(p, h) == Firing ==>
              && CleanActive(Last(h).o)
              && (p.maxNotifications <= 0 || SinceReset(p, Before(h)) < p.maxNotifications)
              && MayFire(p, Before(h), Last(h).o.at)
    ensures NoticeAt(p, h) == Resolved ==> CleanNormal(Last(h).o) && LastNotice(p, Before(h)) == Firing
    ensures ResetAt(p, h) ==> CleanNormal(Last(h).o)
  {
  }

  lemma {:induction false} BudgetHolds(p: Policy, h: History)
    requires p.maxNotifications > 0
    ensures SinceReset(p, h) <= p.maxNotifications
    decreases |h|
  {
    if h != [] {
      BudgetHolds(p, Before(h));
      NoticeNeeds(p, h);
    }
  }

  /** Budget safety: between two renewals at most MaxNotifications firings are
      accepted, whatever is observed and delivered in between. */
  lemma {:induction false} BudgetBetweenResets(p: Policy, h: History, i: nat)
    requires p.maxNotifications > 0 && i <= |h|
    requires forall j | i < j <= |h| :: !ResetAt(p, h[..j])
    ensures |Firings(p, h[..i])| <= |Firings(p, h)| <= |Firings(p, h[..i])| + p.maxNotifications
    ensures |Firings(p, h)| - |Firings(p, h[..i])| == SinceReset(p, h) - SinceReset(p, h[..i])
    decreases |h|
  {
    BudgetHolds(p, h);
    if i == |h| {
      assert h[..i] == h;
    } else {
      var b := Before(h);
      assert b[..i] == h[..i];
      forall j | i < j <= |b| ensures !ResetAt(p, b[..j]) {
        assert b[..j] == h[..j];
      }
      BudgetBetweenResets(p, b, i);
      assert h[..|h|] == h;
    }
  }

  /** Budget renewal, in full: the machine's counter goes back to zero exactly
      at the end of an unbroken run of normal observations spanning StableFor
      while the incident is not confirmed; at every other step it only grows. */
  lemma CounterResetIff(p: Policy, h: History)
    requires h != []
    ensures ResetAt(p, h) <==>
            !Run(p, h).active && exists n: nat :: LongestNormalRun(p, h, n) && SpansStable(p, h, n)
    ensures Run(p, h).count == if ResetAt(p, h) then 0
            else Run(p, Before(h)).count + if AcceptedAt(p, h, Firing) then 1 else 0
  {
    CounterMoves(p, h);
    LongestRunExists(p, h);
  }

  lemma CounterMoves(p: Policy, h: History)
    requires h != []
    ensures Run(p, h).active == ActiveBy(p, h)
    ensures Run(p, h).count == if ResetAt(p, h) then 0
            else Run(p, Before(h)).count + if AcceptedAt(p, h, Firing) then 1 else 0
  {
    HistoryRefinement(p, h);
    HistoryRefinement(p, Before(h));
  }

  lemma LongestRunExists(p: Policy, h: History)
    requires h != []
    ensures ResetAt(p, h) <==> !ActiveBy(p, h) && exists n: nat :: LongestNormalRun(p, h, n) && SpansStable(p, h, n)
  {
    var m := Suffix(p, h, false);
    if m > 0 {
      LongestIsSuffix(p, h, m);
      assert SpansStable(p, h, m) <==> Last(h).o.at - NormalStart(p, h) >= p.stableFor;
    }
    forall n: nat | LongestNormalRun(p, h, n)
      ensures n == m
    {
      LongestIsSuffix(p, h, n);
    }
  }

  /** The last `n` observations, and no more, form an unbroken normal run. */
  predicate LongestNormalRun(p: Policy, h: History, n: nat) {
    && 0 < n <= |h| && Unbroken(p, h, false, n)
    && !Unbroken(p, h, false, n + 1)
  }

  predicate SpansStable(p: Policy, h: History, n: nat)
    requires 0 < n <= |h|
  {
    Last(h).o.at - h[|h| - n].o.at >= p.stableFor
  }

  lemma LongestIsSuffix(p: Policy, h: History, n: nat)
    requires 0 < n <= |h|
    ensures LongestNormalRun(p, h, n) <==> n == Suffix(p, h, false)
  {
    SuffixIsLongestUnbroken(p, h, false, n);
    SuffixIsLongestUnbroken(p, h, false, n + 1);
  }

  /** Exact debounce: the confirmed state turns on only at the end of
      FiringConfirmations consecutive clean active observations, turns off only
      at the end of RecoveryConfirmations normal ones, and never stays behind. */
  lemma ExactDebounce(p: Policy, h: History)
    requires h != []
    ensures Run(p, h).active <==>
            || (CleanActive(Last(h).o) && Unbroken(p, h, true, p.firing))
            || (Run(p, Before(h)).active && !(CleanNormal(Last(h).o) && Unbroken(p, h, false, p.recovery)))
  {
    HistoryRefinement(p, h);
    HistoryRefinement(p, Before(h));
    SuffixIsLongestUnbroken(p, h, true, p.firing);
    SuffixIsLongestUnbroken(p, h, false, p.recovery);
  }

  predicate AdjacentSpaced(times: seq<int>, d: int) {
    forall i | 0 < i < |times| :: times[i] - times[i - 1] >= d
  }

  predicate Spaced(times: seq<int>, d: int) {
    forall i, j | 0 <= i <= j < |times| :: times[j] - times[i] >= (j - i) * d
  }

  lemma {:induction false} AdjacentSpacing(times: seq<int>, d: int, i: nat, j: nat)
    requires AdjacentSpaced(times, d) && i <= j < |times|
    ensures times[j] - times[i] >= (j - i) * d
    decreases j
  {
    if i < j {
      AdjacentSpacing(times, d, i, j - 1);
      assert (j - i) * d == (j - 1 - i) * d + d;
    }
  }

  lemma {:induction false} CooldownHolds(p: Policy, h: History)
    requires p.stableFor != 0
    ensures AdjacentSpaced(Firings(p, h), p.cooldown)
    ensures LastFiring(p, h) == (var f := Firings(p, h); if f == [] then None else Some(f[|f| - 1]))
    decreases |h|
  {
    if h != [] {
      CooldownHolds(p, Before(h));
      NoticeNeeds(p, h);
    }
  }

  lemma LaterKeepsSpacing(times: seq<int>, at: int)
    requires AdjacentSpaced(times, 0) && (times != [] ==> times[|times| - 1] <= at)
    ensures AdjacentSpaced(times + [at], 0)
  {}

  lemma {:induction false} FiringsAreMonotone(p: Policy, h: History)
    requires Monotone(h)
    ensures AdjacentSpaced(Firings(p, h), 0)
    ensures Firings(p, h) != [] ==> h != [] && Firings(p, h)[|Firings(p, h)| - 1] <= Last(h).o.at
    decreases |h|
  {
    if h != [] {
      FiringsAreMonotone(p, Before(h));
      if |h| > 1 { assert Last(Before(h)) == h[|h| - 2] && Last(Before(h)).o.at <= Last(h).o.at; }
      LaterKeepsSpacing(Firings(p, Before(h)), Last(h).o.at);
    }
  }

  /** Accepted notices pair up: each resolved one directly follows a firing. */
  predicate Paired(a: seq<(int, Notice)>) {
    forall i | 0 <= i < |a| :: a[i].1 == Resolved ==> i > 0 && a[i - 1].1 == Firing
  }

  predicate Alternating(a: seq<(int, Notice)>) {
    forall i | 0 <= i < |a| :: a[i].1 == if i % 2 == 0 then Firing else Resolved
  }

  lemma {:induction false} EveryResolvedHasItsFiring(p: Policy, h: History)
    ensures Paired(Accepted(p, h))
    ensures LastNotice(p, h) == (var a := Accepted(p, h); if a == [] then Quiet else a[|a| - 1].1)
    decreases |h|
  {
    if h != [] {
      EveryResolvedHasItsFiring(p, Before(h));
    }
  }

  lemma {:induction false} WithoutRepeatsAlternates(p: Policy, h: History)
    requires !p.repeat && p.stableFor != 0
    ensures Alternating(Accepted(p, h))
    ensures LastNotice(p, h) == Firing ==> LastFiring(p, h).Some?
    decreases |h|
  {
    if h != [] {
      WithoutRepeatsAlternates(p, Before(h));
      EveryResolvedHasItsFiring(p, Before(h));
      NoticeNeeds(p, h);
    }
  }

  /** A failed enqueue costs nothing: it starts the back-off and changes no
      other field that the observation did not change. */
  lemma FailedEnqueueOnlyBacksOff(s: Incident, o: Observation, p: Policy)
    ensures Handle(s, Step(o, false), p)
         == Observed(s, o, p).(retryAfter := if NoticeOf(s, o, p) == Quiet then s.retryAfter
                                             else Some(o.at + Backoff(p.cooldown)))
  {
  }

  /** A pending resolution is never lost: once the last accepted notice is a
      firing and no resolution has been accepted since, every clean normal
      observation outside the back-off that leaves the incident unconfirmed
      asks for the resolution again. */
  lemma {:induction false} PendingResolutionIsRetried(p: Policy, h: History, i: nat)
    requires 0 < i < |h| && AcceptedAt(p, h[..i], Firing)
    requires forall j | i < j < |h| :: !AcceptedAt(p, h[..j], Resolved)
    requires CleanNormal(Last(h).o) && !Run(p, h).active
    requires BlockedUntil(p, Before(h)).None? || BlockedUntil(p, Before(h)).value <= Last(h).o.at
    ensures NoticeOf(Run(p, Before(h)), Last(h).o, p) == Resolved
  {
    HistoryRefinement(p, h);
    FiringStaysLast(p, Before(h), i, h);
  }

  lemma {:induction false} FiringStaysLast(p: Policy, b: History, i: nat, h: History)
    requires b <= h && 0 < i <= |b| && AcceptedAt(p, h[..i], Firing)
    requires forall j | i < j <= |b| :: !AcceptedAt(p, h[..j], Resolved)
    ensures LastNotice(p, b) == Firing
    decreases |b|
  {
    assert b == h[..|b|];
    if i < |b| {
      assert Before(b) <= h;
      FiringStaysLast(p, Before(b), i, h);
    }
  }

  /** Only an undelivered notice blocks, and only for its own back-off. */
  lemma {:induction false} OnlyFailuresBlock(p: Policy, h: History)
    requires BlockedUntil(p, h).Some?
    ensures exists i :: 0 < i <= |h| && NoticeAt(p, h[..i]) != Quiet && !Last(h[..i]).delivered
                        && BlockedUntil(p, h).value == Last(h[..i]).o.at + Backoff(p.cooldown)
    decreases |h|
  {
    if NoticeAt(p, h) != Quiet {
      assert h[..|h|] == h;
    } else {
      OnlyFailuresBlock(p, Before(h));
      var i :| 0 < i <= |h| - 1 && NoticeAt(p, Before(h)[..i]) != Quiet && !Last(Before(h)[..i]).delivered
               && BlockedUntil(p, h).value == Last(Before(h)[..i]).o.at + Backoff(p.cooldown);
      assert Before(h)[..i] == h[..i];
    }
  }

  // ---------------------------- where the guarantees need a stability period

  function Repeated(step: Step, n: nat): (h: History)
    ensures |h| == n && forall i | 0 <= i < n :: h[i] == step
  {
    seq(n, _ => step)
  }

  /** Everything a later notice depends on, apart from the evidence. */
  datatype Ledger = Ledger(
    last: Notice, lastFiring: Option<int>, sinceReset: nat, blocked: Option<int>,
    accepted: seq<(int, Notice)>, firings: seq<int>)

  function LedgerOf(p: Policy, h: History): Ledger {
    Ledger(LastNotice(p, h), LastFiring(p, h), SinceReset(p, h), BlockedUntil(p, h), Accepted(p, h), Firings(p, h))
  }

  lemma QuietStep(p: Policy, g: History)
    requires g != [] && NoticeAt(p, g) == Quiet && !ResetAt(p, g)
    ensures LedgerOf(p, g) == LedgerOf(p, Before(g))
  {
    assert !AcceptedAt(p, g, Firing) && !AcceptedAt(p, g, Resolved);
    assert Accepted(p, g) == Accepted(p, Before(g)) + [];
    assert Firings(p, g) == Firings(p, Before(g)) + [];
  }

  lemma AcceptedFiringStep(p: Policy, g: History)
    requires g != [] && CleanActive(Last(g).o) && ActiveBy(p, g) && Last(g).delivered
    requires var l := LedgerOf(p, Before(g));
             && (l.blocked.Some? ==> l.blocked.value <= Last(g).o.at)
             && l.lastFiring.None? && l.sinceReset == 0
    ensures var l, at := LedgerOf(p, Before(g)), Last(g).o.at;
            LedgerOf(p, g) == Ledger(Firing, Some(at), 1, None, l.accepted + [(at, Firing)], l.firings + [at])
  {
    assert NoticeAt(p, g) == Firing;
    assert !ResetAt(p, g);
  }

  lemma RecoveryStep(p: Policy, g: History)
    requires g != [] && CleanNormal(Last(g).o) && p.stableFor == 0 && ResetAt(p, g)
    requires LastNotice(p, Before(g)) == Firing && BlockedUntil(p, Before(g)).None?
    ensures var l, at := LedgerOf(p, Before(g)), Last(g).o.at;
            LedgerOf(p, g) == if Last(g).delivered
                              then Ledger(Resolved, None, 0, None, l.accepted + [(at, Resolved)], l.firings)
                              else Ledger(Firing, None, 0, Some(at + Backoff(p.cooldown)), l.accepted, l.firings)
  {
    assert NoticeAt(p, g) == Resolved;
    assert !AcceptedAt(p, g, Firing) && AcceptedAt(p, g, Resolved) == Last(g).delivered;
    assert Firings(p, g) == Firings(p, Before(g)) + [];
    assert !Last(g).delivered ==> Accepted(p, g) == Accepted(p, Before(g)) + [];
  }

  function Ramp(p: Policy, active: bool): nat {
    var limit := if active then p.firing else p.recovery;
    if limit < 1 then 0 else limit - 1
  }

  lemma {:induction false} RampEvidence(p: Policy, h: History, step: Step, n: nat)
    requires Clean(step.o) && ActiveBy(p, h) == !step.o.active && Suffix(p, h, step.o.active) == 0
    requires n <= Ramp(p, step.o.active)
    ensures Suffix(p, h + Repeated(step, n), step.o.active) == n
    ensures ActiveBy(p, h + Repeated(step, n)) == ActiveBy(p, h)
    decreases n
  {
    var g := h + Repeated(step, n);
    if n == 0 {
      assert g == h;
    } else {
      var b := h + Repeated(step, n - 1);
      assert Before(g) == b && Last(g) == step;
      RampEvidence(p, h, step, n - 1);
      if n > 1 { assert g[|g| - 2] == step; }
    }
  }

  // Too few observations to change the confirmed state leave no trace.
  lemma {:induction false} RampIsQuiet(p: Policy, h: History, step: Step, n: nat)
    requires Clean(step.o) && ActiveBy(p, h) == !step.o.active && Suffix(p, h, step.o.active) == 0
    requires n <= Ramp(p, step.o.active)
    ensures LedgerOf(p, h + Repeated(step, n)) == LedgerOf(p, h)
    decreases n
  {
    var g := h + Repeated(step, n);
    if n == 0 {
      assert g == h;
    } else {
      assert Before(g) == h + Repeated(step, n - 1) && Last(g) == step;
      RampIsQuiet(p, h, step, n - 1);
      RampEvidence(p, h, step, n);
      QuietStep(p, g);
    }
  }

  /** Enough observations of one kind at one instant to change the state. */
  function Phase(p: Policy, active: bool, at: int, delivered: bool): (h: History)
    ensures h != [] && forall i | 0 <= i < |h| :: h[i] == Step(Observation(at, active, false, false), delivered)
  {
    Repeated(Step(Observation(at, active, false, false), delivered), Ramp(p, active) + 1)
  }

  // One more observation than the ramp changes the confirmed state.
  lemma LastOfPhase(p: Policy, b: History, g: History, step: Step)
    requires g != [] && Before(g) == b && Last(g) == step && Clean(step.o)
    requires var n := Ramp(p, step.o.active);
             Suffix(p, b, step.o.active) == n && n < |g| && forall i | |g| - 1 - n <= i < |g| :: g[i] == step
    ensures ActiveBy(p, g) == step.o.active && Suffix(p, g, !step.o.active) == 0
    ensures !step.o.active && p.stableFor == 0 ==> ResetAt(p, g)
  {
    var n := Ramp(p, step.o.active);
    assert Suffix(p, g, step.o.active) == n + 1;
    assert g[|g| - (n + 1)] == step;
  }

  lemma PhaseFlips(p: Policy, h: History, active: bool, at: int, delivered: bool, g: History)
    requires g == h + Phase(p, active, at, delivered)
    requires ActiveBy(p, h) == !active && Suffix(p, h, active) == 0
    ensures Last(g) == Step(Observation(at, active, false, false), delivered)
    ensures ActiveBy(p, g) == active && Suffix(p, g, !active) == 0
    ensures LedgerOf(p, Before(g)) == LedgerOf(p, h)
    ensures !active && p.stableFor == 0 ==> ResetAt(p, g)
  {
    var step := Step(Observation(at, active, false, false), delivered);
    var n := Ramp(p, active);
    var b := h + Repeated(step, n);
    assert Before(g) == b && Last(g) == step;
    RampEvidence(p, h, step, n);
    RampIsQuiet(p, h, step, n);
    LastOfPhase(p, b, g, step);
  }

  /** Active at t1, normal at t2, active again at t3: with the resolution
      delivered or not. */
  function Relapse(p: Policy, delivered: bool, t1: int, t2: int, t3: int): History {
    Phase(p, true, t1, true) + Phase(p, false, t2, delivered) + Phase(p, true, t3, true)
  }

  lemma FiringPhase(p: Policy, h: History, at: int, g: History)
    requires g == h + Phase(p, true, at, true) && !ActiveBy(p, h) && Suffix(p, h, true) == 0
    requires var l := LedgerOf(p, h);
             (l.blocked.Some? ==> l.blocked.value <= at) && l.lastFiring.None? && l.sinceReset == 0
    ensures ActiveBy(p, g) && Suffix(p, g, false) == 0
    ensures var l := LedgerOf(p, h);
            LedgerOf(p, g) == Ledger(Firing, Some(at), 1, None, l.accepted + [(at, Firing)], l.firings + [at])
  {
    PhaseFlips(p, h, true, at, true, g);
    AcceptedFiringStep(p, g);
  }

  lemma RecoveryPhase(p: Policy, h: History, at: int, delivered: bool, g: History)
    requires g == h + Phase(p, false, at, delivered) && ActiveBy(p, h) && Suffix(p, h, false) == 0
    requires p.stableFor == 0 && LastNotice(p, h) == Firing && BlockedUntil(p, h).None?
    ensures !ActiveBy(p, g) && Suffix(p, g, true) == 0
    ensures var l := LedgerOf(p, h);
            LedgerOf(p, g) == if delivered
                              then Ledger(Resolved, None, 0, None, l.accepted + [(at, Resolved)], l.firings)
                              else Ledger(Firing, None, 0, Some(at + Backoff(p.cooldown)), l.accepted, l.firings)
  {
    PhaseFlips(p, h, false, at, delivered, g);
    RecoveryStep(p, g);
  }

  lemma RelapseLedger(p: Policy, delivered: bool, t1: int, t2: int, t3: int, h1: History, h2: History, h3: History)
    requires p.stableFor == 0 && (delivered || t2 + Backoff(p.cooldown) <= t3)
    requires h1 == [] + Phase(p, true, t1, true)
    requires h2 == h1 + Phase(p, false, t2, delivered)
    requires h3 == h2 + Phase(p, true, t3, true)
    ensures Firings(p, h3) == [t1, t3]
    ensures !delivered ==> Accepted(p, h3) == [(t1, Firing), (t3, Firing)]
  {
    FiringPhase(p, [], t1, h1);
    RecoveryPhase(p, h1, t2, delivered, h2);
    FiringPhase(p, h2, t3, h3);
    assert [t1] + [t3] == [t1, t3];
  }

  /** Without a stability period a relapse fires again however soon it comes, and
      without a resolution in between if that one could not be enqueued. */
  lemma RelapseFiresTwice(p: Policy, delivered: bool, t1: int, t2: int, t3: int)
    requires p.stableFor == 0 && t1 <= t2 <= t3 && (delivered || t2 + Backoff(p.cooldown) <= t3)
    ensures Monotone(Relapse(p, delivered, t1, t2, t3))
    ensures Firings(p, Relapse(p, delivered, t1, t2, t3)) == [t1, t3]
    ensures !delivered ==> Accepted(p, Relapse(p, delivered, t1, t2, t3)) == [(t1, Firing), (t3, Firing)]
  {
    var h1 := Phase(p, true, t1, true);
    var h2 := h1 + Phase(p, false, t2, delivered);
    var h3 := h2 + Phase(p, true, t3, true);
    assert h1 == [] + h1 && h3 == Relapse(p, delivered, t1, t2, t3);
    RelapseLedger(p, delivered, t1, t2, t3, h1, h2, h3);
    assert forall i | 0 <= i < |h3| :: h3[i].o.at == if i < |h1| then t1 else if i < |h2| then t2 else t3;
  }

  /** Without repeats, firings and resolutions strictly alternate in every run
      exactly when the policy has a stability period. Otherwise a recovery whose
      notice could not be enqueued forgets the firing before it. */
  lemma AlternationIff(p: Policy)
    requires !p.repeat
    ensures (forall h: History | Monotone(h) :: Alternating(Accepted(p, h))) <==> p.stableFor != 0
  {
    if p.stableFor != 0 {
      forall h: History | Monotone(h) ensures Alternating(Accepted(p, h)) {
        WithoutRepeatsAlternates(p, h);
      }
    } else {
      var t3 := 1 + Backoff(p.cooldown);
      RelapseFiresTwice(p, false, 0, 1, t3);
      assert Accepted(p, Relapse(p, false, 0, 1, t3))[1].1 != Resolved;
    }
  }

  /** k accepted firings span at least (k-1) cooldowns in every run exactly when
      the policy has a stability period (or no positive cooldown). */
  lemma RateBoundIff(p: Policy)
    ensures (forall h: History | Monotone(h) :: Spaced(Firings(p, h), p.cooldown))
       <==> p.stableFor != 0 || p.cooldown <= 0
  {
    if p.stableFor != 0 || p.cooldown <= 0 {
      forall h: History | Monotone(h) ensures Spaced(Firings(p, h), p.cooldown) {
        RateBound(p, h);
      }
    } else {
      var t3 := p.cooldown - 1;
      RelapseFiresTwice(p, true, 0, t3 / 2, t3);
      var f := Firings(p, Relapse(p, true, 0, t3 / 2, t3));
      assert f[1] - f[0] < (1 - 0) * p.cooldown;
    }
  }

  lemma RateBound(p: Policy, h: History)
    requires Monotone(h) && (p.stableFor != 0 || p.cooldown <= 0)
    ensures Spaced(Firings(p, h), p.cooldown)
  {
    var f := Firings(p, h);
    if p.stableFor != 0 { CooldownHolds(p, h); } else { FiringsAreMonotone(p, h); }
    forall i, j | 0 <= i <= j < |f| ensures f[j] - f[i] >= (j - i) * p.cooldown {
      AdjacentSpacing(f, p.cooldown, i, j);
    }
  }

  /** The rules of the alert engine. Firings keep the rule's cooldown in every
      run exactly for the upstream alerts; the login and client-error rules have
      no stability period, and lose their cooldown on every recovery. A rule
      without a cooldown would not repeat, and then alternate, exactly for the
      upstream alerts too. */
  lemma EngineRulesKeepCooldownIff(rule: Rule, upstreamID: int)
    ensures rule.cooldown > 0 ==>
              ((forall h: History | Monotone(h) :: Spaced(Firings(PolicyFor(rule, upstreamID), h), rule.cooldown))
               <==> UpstreamAlert(rule.event, upstreamID))
    ensures rule.cooldown <= 0 ==>
              ((forall h: History | Monotone(h) :: Alternating(Accepted(PolicyFor(rule, upstreamID), h)))
               <==> UpstreamAlert(rule.event, upstreamID))
  {
    if rule.cooldown > 0 {
      RateBoundIff(PolicyFor(rule, upstreamID));
    } else {
      AlternationIff(PolicyFor(rule, upstreamID));
    }
  }

  /** Three ticks are enough for that: an active, a normal and an active
      observation of such a rule, at any times whatever, fire twice. */
  lemma LoginRulesLoseCooldown(rule: Rule, upstreamID: int, t1: int, t2: int, t3: int)
    requires !UpstreamAlert(rule.event, upstreamID) && t1 <= t2 <= t3
    ensures Firings(PolicyFor(rule, upstreamID),
                    [Step(Observation(t1, true, false, false), true),
                     Step(Observation(t2, false, false, false), true),
                     Step(Observation(t3, true, false, false), true)]) == [t1, t3]
  {
    var p := PolicyFor(rule, upstreamID);
    RelapseFiresTwice(p, true, t1, t2, t3);
    assert Relapse(p, true, t1, t2, t3)
        == [Step(Observation(t1, true, false, false), true),
            Step(Observation(t2, false, false, false), true),
            Step(Observation(t3, true, false, false), true)];
  }

  // ------------------------------------------------- upstream health notices

  function HealthPolicy(interval: int): Policy {
    Policy(1, 1, 30 * MINUTE, 30 * MINUTE, 2 * interval, 3, false)
  }

  datatype HealthStatus = Healthy | Unhealthy | OtherStatus

  function HealthObservation(status: HealthStatus, now: int): Observation {
    Observation(now, status == Unhealthy, status == OtherStatus, false)
  }

  /** Observing health leases an enqueue attempt for one minute. */
  function ObserveHealth(s: Incident, status: HealthStatus, now: int, interval: int): (Incident, Notice) {
    var o, p := HealthObservation(status, now), HealthPolicy(interval);
    var notice := NoticeOf(s, o, p);
    var t := Observed(s, o, p);
    (if notice == Quiet then t else EnqueueFailedSpec(t, now, MINUTE), notice)
  }

  function ObserveHealthAll(s: Incident, seen: seq<(HealthStatus, int)>, interval: int): Incident
    decreases |seen|
  {
    if seen == [] then s else ObserveHealthAll(ObserveHealth(s, seen[0].0, seen[0].1, interval).0, seen[1..], interval)
  }

  lemma QuietWhileLeased(s: Incident, status: HealthStatus, now: int, interval: int, until: int)
    requires s.retryAfter == Some(until) && now < until
    ensures ObserveHealth(s, status, now, interval).1 == Quiet
    ensures ObserveHealth(s, status, now, interval).0.retryAfter == Some(until)
  {}

  lemma {:induction false} LeaseHolds(s: Incident, seen: seq<(HealthStatus, int)>, interval: int, until: int)
    requires s.retryAfter == Some(until)
    requires forall i | 0 <= i < |seen| :: seen[i].1 < until
    ensures ObserveHealthAll(s, seen, interval).retryAfter == Some(until)
    decreases |seen|
  {
    if seen != [] {
      QuietWhileLeased(s, seen[0].0, seen[0].1, interval, until);
      LeaseHolds(ObserveHealth(s, seen[0].0, seen[0].1, interval).0, seen[1..], interval, until);
    }
  }

  /** While an attempt is leased no second one is handed out, whatever is
      observed meanwhile. */
  lemma OneLeasedAttempt(s: Incident, seen: seq<(HealthStatus, int)>, interval: int, until: int)
    requires s.retryAfter == Some(until)
    requires forall i | 0 <= i < |seen| :: seen[i].1 < until
    ensures ObserveHealthAll(s, seen, interval).retryAfter == Some(until)
    ensures forall i | 0 <= i < |seen| ::
              ObserveHealth(ObserveHealthAll(s, seen[..i], interval), seen[i].0, seen[i].1, interval).1 == Quiet
  {
    LeaseHolds(s, seen, interval, until);
    forall i | 0 <= i < |seen|
      ensures ObserveHealth(ObserveHealthAll(s, seen[..i], interval), seen[i].0, seen[i].1, interval).1 == Quiet
    {
      LeaseHolds(s, seen[..i], interval, until);
      QuietWhileLeased(ObserveHealthAll(s, seen[..i], interval), seen[i].0, seen[i].1, interval, until);
    }
  }
}
