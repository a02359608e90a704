/** Writing request logs: `flush` of internal/gateway/recorder.go, which retries
    transient failures and halves a batch that the database refuses.

    The repository is an adversary that answers the i-th write attempt. A write
    is atomic and truthful: a success stores the whole batch, an error nothing. */
module Recorder {
  datatype Outcome = Stored | DataError | OtherError

  /** The repository's answer to each write attempt, and from which attempt on
      the recorder's context is found cancelled afterwards. */
  datatype Repository<!E> = Repository(answer: (nat, seq<E>) -> Outcome, cancelled: nat -> bool)

  /** Records stored and dropped so far, in order, and the write attempts made.
      The source's `dropped` counter is the length of `lost`. */
  datatype Log<E> = Log(stored: seq<E>, lost: seq<E>, writes: nat)

  function Flush<E>(repo: Repository<E>, delays: nat, s: Log<E>, entries: seq<E>): Log<E>
    decreases |entries|, delays + 2
  {
    if entries == [] then s else Attempt(repo, delays, s, entries, 0)
  }

  function Attempt<E>(repo: Repository<E>, delays: nat, s: Log<E>, entries: seq<E>, attempt: nat): Log<E>
    requires entries != [] && attempt <= delays + 1
    decreases |entries|, delays + 1 - attempt
  {
    if attempt > delays then s.(lost := s.lost + entries)
    else
      var outcome, cancelled := repo.answer(s.writes, entries), repo.cancelled(s.writes);
      var t := s.(writes := s.writes + 1);
      if outcome == Stored then t.(stored := s.stored + entries)
      else if !cancelled && outcome == DataError && |entries| > 1 then
        var middle := |entries| / 2;
        Flush(repo, delays, Flush(repo, delays, t, entries[..middle]), entries[middle..])
      else if cancelled || outcome == DataError then t.(lost := s.lost + entries)
      else Attempt(repo, delays, t, entries, attempt + 1)
  }

  /** A repository without batches gets one write per record and no retries. */
  function FlushSingly<E>(repo: Repository<E>, s: Log<E>, entries: seq<E>): Log<E>
    decreases |entries|
  {
    if entries == [] then s
    else
      var t := s.(writes := s.writes + 1);
      FlushSingly(repo,
        if repo.answer(s.writes, [entries[0]]) == Stored then t.(stored := s.stored + [entries[0]])
        else t.(lost := s.lost + [entries[0]]),
        entries[1..])
  }

  class RequestRecorder<E> {
    const repo: Repository<E>
    const delays: nat
    const batching: bool
    var stored: seq<E>
    var lost: seq<E>
    var writes: nat

    constructor (repo: Repository<E>, delays: nat, batching: bool)
      ensures this.repo == repo && this.delays == delays && this.batching == batching
      ensures View() == Log([], [], 0)
    {
      this.repo, this.delays, this.batching := repo, delays, batching;
      stored, lost, writes := [], [], 0;
    }

    ghost function View(): Log<E>
      reads this
    {
      Log(stored, lost, writes)
    }

    method FlushEntries(entries: seq<E>) returns (ok: bool)
      modifies this
      ensures View() == if batching then Flush(repo, delays, old(View()), entries)
                        else FlushSingly(repo, old(View()), entries)
      ensures old(lost) <= lost && (ok <==> lost == old(lost))
      decreases |entries|
    {
      if |entries| == 0 { return true; }
      if batching {
        var attempt := 0;
        while attempt <= delays
          invariant 0 <= attempt <= delays + 1 && lost == old(lost)
          invariant Attempt(repo, delays, View(), entries, attempt) == Flush(repo, delays, old(View()), entries)
          decreases delays + 1 - attempt
        {
          var outcome, cancelled := repo.answer(writes, entries), repo.cancelled(writes);
          writes := writes + 1;
          if outcome == Stored {
            stored := stored + entries;
            return true;
          }
          if !cancelled && outcome == DataError {
            if |entries| > 1 {
              var middle := |entries| / 2;
              var left := FlushEntries(entries[..middle]);
              var right := FlushEntries(entries[middle..]);
              return left && right;
            }
            break;
          }
          if cancelled {
            break;
          }
          attempt := attempt + 1;
        }
        lost := lost + entries;
        return false;
      }
      var i := 0;
      ok := true;
      while i < |entries|
        invariant 0 <= i <= |entries|
        invariant FlushSingly(repo, View(), entries[i..]) == FlushSingly(repo, old(View()), entries)
        invariant old(lost) <= lost && (ok <==> lost == old(lost))
      {
        assert entries[i..][1..] == entries[i + 1..];
        var outcome := repo.answer(writes, [entries[i]]);
        writes := writes + 1;
        if outcome == Stored {
          stored := stored + [entries[i]];
        } else {
          lost := lost + [entries[i]];
          ok := false;
        }
        i := i + 1;
      }
    }
  }

  // ---------------------------------------------------------- conservation

  /** `t` is `s` with every entry appended to exactly one of the two lists. */
  ghost predicate Accounts<E>(s: Log<E>, entries: seq<E>, t: Log<E>) {
    && s.stored <= t.stored && s.lost <= t.lost && s.writes <= t.writes
    && multiset(t.stored) + multiset(t.lost) == multiset(s.stored) + multiset(s.lost) + multiset(entries)
  }

  lemma AccountsCompose<E>(s: Log<E>, a: seq<E>, t: Log<E>, b: seq<E>, u: Log<E>, entries: seq<E>)
    requires Accounts(s, a, t) && Accounts(t, b, u) && a + b == entries
    ensures Accounts(s, entries, u)
  {
    assert multiset(entries) == multiset(a) + multiset(b);
  }

  /** Conservation: whatever the repository answers and whenever the context is
      cancelled, each record of a flush is stored once or dropped once. */
  lemma {:induction false} FlushConserves<E>(repo: Repository<E>, delays: nat, s: Log<E>, entries: seq<E>)
    ensures Accounts(s, entries, Flush(repo, delays, s, entries))
    decreases |entries|, delays + 2
  {
    if entries != [] { AttemptConserves(repo, delays, s, entries, 0); }
  }

  lemma {:induction false} AttemptConserves<E>(repo: Repository<E>, delays: nat, s: Log<E>, entries: seq<E>,
      attempt: nat)
    requires entries != [] && attempt <= delays + 1
    ensures Accounts(s, entries, Attempt(repo, delays, s, entries, attempt))
    decreases |entries|, delays + 1 - attempt
  {
    if attempt <= delays {
      var t := s.(writes := s.writes + 1);
      var outcome, cancelled := repo.answer(s.writes, entries), repo.cancelled(s.writes);
      if outcome != Stored && !cancelled {
        if outcome == DataError && |entries| > 1 {
          var middle := |entries| / 2;
          var left := Flush(repo, delays, t, entries[..middle]);
          FlushConserves(repo, delays, t, entries[..middle]);
          FlushConserves(repo, delays, left, entries[middle..]);
          assert entries[..middle] + entries[middle..] == entries;
          var right := Flush(repo, delays, left, entries[middle..]);
          AccountsCompose(t, entries[..middle], left, entries[middle..], right, entries);
        } else if outcome == OtherError {
          AttemptConserves(repo, delays, t, entries, attempt + 1);
        }
      }
    }
  }

  lemma {:induction false} FlushSinglyConserves<E>(repo: Repository<E>, s: Log<E>, entries: seq<E>)
    ensures Accounts(s, entries, FlushSingly(repo, s, entries))
    decreases |entries|
  {
    if entries != [] {
      var t := s.(writes := s.writes + 1);
      var u := if repo.answer(s.writes, [entries[0]]) == Stored then t.(stored := s.stored + [entries[0]])
               else t.(lost := s.lost + [entries[0]]);
      FlushSinglyConserves(repo, u, entries[1..]);
      assert [entries[0]] + entries[1..] == entries;
      AccountsCompose(s, [entries[0]], u, entries[1..], FlushSingly(repo, s, entries), entries);
    }
  }

  // ------------------------------------------------------------- bisection

  predicate HasBad<E>(bad: E -> bool, entries: seq<E>) {
    exists i | 0 <= i < |entries| :: bad(entries[i])
  }

  function Only<E>(keep: E -> bool, entries: seq<E>): seq<E>
    decreases |entries|
  {
    if entries == [] then []
    else (if keep(entries[0]) then [entries[0]] else []) + Only(keep, entries[1..])
  }

  function Good<E>(bad: E -> bool): E -> bool { e => !bad(e) }

  /** Answers are about the data alone: a data error exactly when the batch
      holds a bad record, unless the attempt fails for another reason. */
  ghost predicate Honest<E(!new)>(repo: Repository<E>, bad: E -> bool) {
    && (forall i, entries :: repo.answer(i, entries) == Stored ==> !HasBad(bad, entries))
    && (forall i, entries :: repo.answer(i, entries) == DataError ==> HasBad(bad, entries))
    && (forall i :: !repo.cancelled(i))
  }

  /** Of any `r` attempts in a row at least one does not fail for another reason. */
  ghost predicate Recovers<E(!new)>(repo: Repository<E>, r: nat) {
    forall i: nat :: RecoversFrom(repo, i, r)
  }

  ghost predicate RecoversFrom<E(!new)>(repo: Repository<E>, i: nat, r: nat) {
    exists j :: i <= j < i + r && Answered(repo, j)
  }

  ghost predicate Answered<E(!new)>(repo: Repository<E>, j: nat) {
    forall entries :: repo.answer(j, entries) != OtherError
  }

  ghost predicate Bisected<E>(s: Log<E>, entries: seq<E>, t: Log<E>, bad: E -> bool, budget: int) {
    && t.stored == s.stored + Only(Good(bad), entries)
    && t.lost == s.lost + Only(bad, entries)
    && t.writes <= s.writes + budget
  }

  lemma {:induction false} OnlySplits<E>(keep: E -> bool, a: seq<E>, b: seq<E>)
    ensures Only(keep, a + b) == Only(keep, a) + Only(keep, b)
    decreases |a|
  {
    if a == [] {
      assert a + b == b;
    } else {
      assert (a + b)[0] == a[0] && (a + b)[1..] == a[1..] + b;
      OnlySplits(keep, a[1..], b);
      var head := if keep(a[0]) then [a[0]] else [];
      assert head + (Only(keep, a[1..]) + Only(keep, b)) == (head + Only(keep, a[1..])) + Only(keep, b);
    }
  }

  lemma {:induction false} OnlyGood<E>(bad: E -> bool, entries: seq<E>)
    requires !HasBad(bad, entries)
    ensures Only(Good(bad), entries) == entries && Only(bad, entries) == []
    decreases |entries|
  {
    if entries != [] {
      assert !bad(entries[0]);
      assert forall i | 0 <= i < |entries[1..]| :: entries[1..][i] == entries[i + 1];
      OnlyGood(bad, entries[1..]);
    }
  }

  lemma BisectedHalves<E>(t: Log<E>, left: seq<E>, u: Log<E>, right: seq<E>, v: Log<E>, entries: seq<E>,
      bad: E -> bool, r: nat)
    requires left + right == entries
    requires Bisected(t, left, u, bad, (2 * |left| - 1) * r) && Bisected(u, right, v, bad, (2 * |right| - 1) * r)
    ensures Bisected(t, entries, v, bad, (2 * |entries| - 2) * r)
  {
    OnlySplits(Good(bad), left, right);
    OnlySplits(bad, left, right);
    HalvesCost(|left|, |right|, r);
    assert |entries| == |left| + |right|;
  }

  lemma HalvesCost(m: nat, n: nat, r: nat)
    ensures (2 * m - 1) * r + (2 * n - 1) * r == (2 * (m + n) - 2) * r
  {}

  /** Bisection: when refusals are about the data and other failures let up
      within `r` attempts, a flush stores precisely the good records in order,
      drops precisely the bad ones, and makes at most (2n-1)r writes; with no
      other failures, r = 1, at most 2n-1. */
  lemma {:induction false} FlushBisects<E(!new)>(repo: Repository<E>, delays: nat, s: Log<E>, entries: seq<E>,
      bad: E -> bool, r: nat)
    requires entries != [] && Honest(repo, bad) && Recovers(repo, r) && 1 <= r <= delays + 1
    ensures Bisected(s, entries, Flush(repo, delays, s, entries), bad, (2 * |entries| - 1) * r)
    decreases |entries|, delays + 2
  {
    assert RecoversFrom(repo, s.writes, r);
    var j :| s.writes <= j < s.writes + r && Answered(repo, j);
    AttemptBisects(repo, delays, s, entries, 0, bad, r, j);
  }

  lemma {:induction false} AttemptBisects<E(!new)>(repo: Repository<E>, delays: nat, s: Log<E>, entries: seq<E>,
      attempt: nat, bad: E -> bool, r: nat, j: nat)
    requires entries != [] && Honest(repo, bad) && Recovers(repo, r) && 1 <= r <= delays + 1
    requires attempt < r && s.writes <= j < s.writes + r - attempt && Answered(repo, j)
    ensures Bisected(s, entries, Attempt(repo, delays, s, entries, attempt), bad, (2 * |entries| - 1) * r - attempt)
    decreases |entries|, delays + 1 - attempt
  {
    var n := |entries|;
    var t := s.(writes := s.writes + 1);
    match repo.answer(s.writes, entries) {
      case Stored =>
        OnlyGood(bad, entries);
        BudgetCovers(n, r, attempt);
      case DataError =>
        if n > 1 {
          var left, right := entries[..n / 2], entries[n / 2..];
          assert left + right == entries;
          var u := Flush(repo, delays, t, left);
          FlushBisects(repo, delays, t, left, bad, r);
          FlushBisects(repo, delays, u, right, bad, r);
          BisectedHalves(t, left, u, right, Flush(repo, delays, u, right), entries, bad, r);
          assert (2 * n - 1) * r == (2 * n - 2) * r + r;
        } else {
          assert entries == [entries[0]] && bad(entries[0]);
          assert entries[1..] == [];
          BudgetCovers(n, r, attempt);
        }
      case OtherError =>
        assert j != s.writes;
        AttemptBisects(repo, delays, t, entries, attempt + 1, bad, r, j);
    }
  }

  lemma BudgetCovers(n: nat, r: nat, attempt: nat)
    requires n >= 1 && attempt < r
    ensures 1 <= (2 * n - 1) * r - attempt
  {
    assert (2 * n - 1) * r >= 1 * r;
  }

  /** How often n records can be halved. */
  function Halvings(n: nat): nat { if n <= 1 then 0 else 1 + Halvings(n - n / 2) }

  lemma {:induction false} MoreRecordsMoreHalvings(m: nat, n: nat)
    requires m <= n
    ensures Halvings(m) <= Halvings(n)
    decreases n
  {
    if m > 1 { MoreRecordsMoreHalvings(m - m / 2, n - n / 2); }
  }

  lemma HalvingsOf64()
    ensures Halvings(64) == 6
  {
    assert Halvings(4) == 2;
    assert Halvings(16) == 4;
  }

  ghost predicate AllAnswered<E(!new)>(repo: Repository<E>) { forall i, es :: repo.answer(i, es) != OtherError }

  /** A single bad record is cheap: halving finds it with two writes a step, among
      the 64 of a full batch with 13. */
  lemma {:induction false} OneBadIsCheap<E(!new)>(repo: Repository<E>, delays: nat, s: Log<E>, entries: seq<E>,
      bad: E -> bool)
    requires Honest(repo, bad) && AllAnswered(repo) && |Only(bad, entries)| <= 1
    ensures Flush(repo, delays, s, entries).writes <= s.writes + 1 + 2 * Halvings(|entries|)
    ensures Only(bad, entries) == [] ==> Flush(repo, delays, s, entries).writes <= s.writes + 1
    ensures |entries| <= 64 ==> Flush(repo, delays, s, entries).writes <= s.writes + 13
    decreases |entries|
  {
    HalvingsOf64();
    if |entries| <= 64 { MoreRecordsMoreHalvings(|entries|, 64); }
    if entries != [] {
      assert repo.answer(s.writes, entries) != OtherError;
      if repo.answer(s.writes, entries) == DataError {
        BadIsOnly(bad, entries);
        if |entries| > 1 { HalvesAreCheap(repo, delays, s.(writes := s.writes + 1), entries, bad); }
      }
    }
  }

  lemma {:induction false} HalvesAreCheap<E(!new)>(repo: Repository<E>, delays: nat, t: Log<E>, entries: seq<E>,
      bad: E -> bool)
    requires Honest(repo, bad) && AllAnswered(repo) && |Only(bad, entries)| == 1 && |entries| > 1
    ensures var left := Flush(repo, delays, t, entries[..|entries| / 2]);
            Flush(repo, delays, left, entries[|entries| / 2..]).writes <= t.writes + 2 * Halvings(|entries|)
    decreases |entries|, 0
  {
    var a, b := entries[..|entries| / 2], entries[|entries| / 2..];
    assert a + b == entries;
    OnlySplits(bad, a, b);
    OneBadIsCheap(repo, delays, t, a, bad);
    OneBadIsCheap(repo, delays, Flush(repo, delays, t, a), b, bad);
    MoreRecordsMoreHalvings(|a|, |b|);
  }

  lemma {:induction false} BadIsOnly<E>(bad: E -> bool, entries: seq<E>)
    ensures HasBad(bad, entries) <==> Only(bad, entries) != []
    decreases |entries|
  {
    if entries != [] {
      BadIsOnly(bad, entries[1..]);
      assert forall i | 1 <= i < |entries| :: entries[i] == entries[1..][i - 1];
    }
  }

  /** A cancelled recorder tries a batch once, and keeps or drops it whole. */
  lemma CancelledFlushTriesOnce<E(!new)>(repo: Repository<E>, delays: nat, s: Log<E>, entries: seq<E>)
    requires entries != [] && repo.cancelled(s.writes)
    ensures var t := Flush(repo, delays, s, entries);
            && t.writes == s.writes + 1
            && t.stored == s.stored + (if repo.answer(s.writes, entries) == Stored then entries else [])
            && t.lost == s.lost + (if repo.answer(s.writes, entries) == Stored then [] else entries)
  {}

  /** A failure that is not about the data and does not let up costs the batch one
      write and one more for each delay, and the batch is dropped whole. */
  lemma OutageDropsBatch<E(!new)>(repo: Repository<E>, delays: nat, s: Log<E>, entries: seq<E>)
    requires entries != []
    requires forall i, es :: repo.answer(i, es) == OtherError
    requires forall i :: !repo.cancelled(i)
    ensures Flush(repo, delays, s, entries) == Log(s.stored, s.lost + entries, s.writes + delays + 1)
  {
    OutageDropsAttempts(repo, delays, s, entries, 0);
  }

  lemma {:induction false} OutageDropsAttempts<E(!new)>(repo: Repository<E>, delays: nat, s: Log<E>, entries: seq<E>,
      attempt: nat)
    requires entries != [] && attempt <= delays + 1
    requires forall i, es :: repo.answer(i, es) == OtherError
    requires forall i :: !repo.cancelled(i)
    ensures Attempt(repo, delays, s, entries, attempt)
         == Log(s.stored, s.lost + entries, s.writes + delays + 1 - attempt)
    decreases delays + 1 - attempt
  {
    if attempt <= delays {
      assert repo.answer(s.writes, entries) == OtherError;
      OutageDropsAttempts(repo, delays, s.(writes := s.writes + 1), entries, attempt + 1);
    }
  }

  /** Without batches each record has one write, and is stored exactly if that
      write succeeds. */
  lemma {:induction false} SinglesAreTriedOnce<E(!new)>(repo: Repository<E>, s: Log<E>, entries: seq<E>)
    ensures var t := FlushSingly(repo, s, entries);
            && t.writes == s.writes + |entries|
            && t.stored == s.stored + Kept(repo, s.writes, entries, true)
            && t.lost == s.lost + Kept(repo, s.writes, entries, false)
    decreases |entries|
  {
    if entries != [] {
      var ok := repo.answer(s.writes, [entries[0]]) == Stored;
      var t := s.(writes := s.writes + 1);
      var u := if ok then t.(stored := s.stored + [entries[0]]) else t.(lost := s.lost + [entries[0]]);
      SinglesAreTriedOnce(repo, u, entries[1..]);
    }
  }

  /** The entries whose own writes, counted from `from`, succeed or fail. */
  function Kept<E>(repo: Repository<E>, from: nat, entries: seq<E>, ok: bool): seq<E>
    decreases |entries|
  {
    if entries == [] then []
    else
      (if (repo.answer(from, [entries[0]]) == Stored) == ok then [entries[0]] else [])
      + Kept(repo, from + 1, entries[1..], ok)
  }

  /** Bad records are never stored, whatever else fails. */
  lemma {:induction false} BadIsNeverStored<E(!new)>(repo: Repository<E>, delays: nat, s: Log<E>, entries: seq<E>,
      bad: E -> bool)
    requires Honest(repo, bad) && !HasBad(bad, s.stored)
    ensures !HasBad(bad, Flush(repo, delays, s, entries).stored)
    decreases |entries|, delays + 2
  {
    if entries != [] { BadIsNotStoredBy(repo, delays, s, entries, 0, bad); }
  }

  lemma {:induction false} BadIsNotStoredBy<E(!new)>(repo: Repository<E>, delays: nat, s: Log<E>, entries: seq<E>,
      attempt: nat, bad: E -> bool)
    requires entries != [] && attempt <= delays + 1 && Honest(repo, bad) && !HasBad(bad, s.stored)
    ensures !HasBad(bad, Attempt(repo, delays, s, entries, attempt).stored)
    decreases |entries|, delays + 1 - attempt
  {
    if attempt <= delays {
      var t := s.(writes := s.writes + 1);
      match repo.answer(s.writes, entries) {
        case Stored =>
        case DataError =>
          if |entries| > 1 {
            var middle := |entries| / 2;
            BadIsNeverStored(repo, delays, t, entries[..middle], bad);
            BadIsNeverStored(repo, delays, Flush(repo, delays, t, entries[..middle]), entries[middle..], bad);
          }
        case OtherError =>
          BadIsNotStoredBy(repo, delays, t, entries, attempt + 1, bad);
      }
    }
  }
}
