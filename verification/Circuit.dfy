/** The health row of an upstream: saveHealth of internal/store/upstreams.go.

    `Step` is what the two UPDATE statements assign. The functions under
    "history" read the same facts off the list of writes without looking at any
    row; `RowTellsHistory` ties the two, and the recovery theorems follow.
    Times are in seconds. */
module Circuit {
  import opened Options

  datatype Status = Unknown | Healthy | Degraded | Unhealthy

  datatype Row = Row(
    status: Status, failures: nat, successes: nat, recoveryStarted: Option<int>, circuitOpenUntil: Option<int>,
    lastError: string, threshold: int, cooldown: int)

  /** The writes of one upstream, in commit order. `probe` distinguishes
      SaveProbeHealth from the gateway's SaveHealth. */
  datatype Write =
    | Success(probe: bool, at: int)
    | Failure(auth: bool, message: string, at: int)
    | Configure(newThreshold: int, newCooldown: int)

  const CONFIRMATIONS := 3
  const CONFIRM_SECONDS := 120

  function Fresh(threshold: int, cooldown: int): Row {
    Row(Unknown, 0, 0, None, None, "", threshold, cooldown)
  }

  /** A success that cannot yet close the incident. */
  predicate Waits(r: Row, probe: bool, now: int) {
    && r.status == Unhealthy
    && (!probe || (r.successes + 1 < CONFIRMATIONS
                   && (r.recoveryStarted.None? || r.recoveryStarted.value > now - CONFIRM_SECONDS)))
  }

  predicate TripsOn(r: Row, auth: bool) { r.status == Unhealthy || auth || r.failures + 1 >= r.threshold }

  function Step(r: Row, w: Write): Row {
    match w
    case Success(probe, now) =>
      if !Waits(r, probe, now) then
        r.(status := Healthy, failures := 0, successes := 0, recoveryStarted := None,
           circuitOpenUntil := None, lastError := "")
      else if !probe then r.(failures := 0)
      else r.(failures := 0, successes := r.successes + 1, recoveryStarted := Some(r.recoveryStarted.GetOr(now)))
    case Failure(auth, message, now) =>
      r.(status := if TripsOn(r, auth) then Unhealthy else Degraded,
         failures := r.failures + 1, successes := 0, recoveryStarted := None,
         circuitOpenUntil := if TripsOn(r, auth) then Some(now + r.cooldown) else r.circuitOpenUntil,
         lastError := message)
    case Configure(threshold, cooldown) => r.(threshold := threshold, cooldown := cooldown)
  }

  function Run(r: Row, ws: seq<Write>): Row {
    if ws == [] then r else Step(Run(r, ws[..|ws| - 1]), ws[|ws| - 1])
  }

  // ------------------------------------------------------------- history

  /** The times of the probe successes since the last failure. */
  function Probes(ws: seq<Write>): seq<int> {
    if ws == [] then []
    else
      var before := Probes(ws[..|ws| - 1]);
      match ws[|ws| - 1]
      case Failure(_, _, _) => []
      case Success(true, at) => before + [at]
      case _ => before
  }

  /** How many failures there were since the last success of either kind. */
  function FailureStreak(ws: seq<Write>): nat {
    if ws == [] then 0
    else
      match ws[|ws| - 1]
      case Failure(_, _, _) => FailureStreak(ws[..|ws| - 1]) + 1
      case Success(_, _) => 0
      case _ => FailureStreak(ws[..|ws| - 1])
  }

  function LastFailure(ws: seq<Write>): (i: Option<nat>)
    ensures i.Some? ==> i.value < |ws| && ws[i.value].Failure?
    ensures forall k | 0 <= k < |ws| && ws[k].Failure? :: i.Some? && k <= i.value
  {
    if ws == [] then None
    else if ws[|ws| - 1].Failure? then Some(|ws| - 1)
    else LastFailure(ws[..|ws| - 1])
  }

  /** The message of the last write, unless that was a success. */
  function LastMessage(ws: seq<Write>): string {
    if ws == [] then ""
    else
      match ws[|ws| - 1]
      case Failure(_, message, _) => message
      case Success(_, _) => ""
      case _ => LastMessage(ws[..|ws| - 1])
  }

  /** Threshold and cooldown in force after `ws`. */
  function Config(threshold: int, cooldown: int, ws: seq<Write>): (int, int) {
    if ws == [] then (threshold, cooldown)
    else if ws[|ws| - 1].Configure? then (ws[|ws| - 1].newThreshold, ws[|ws| - 1].newCooldown)
    else Config(threshold, cooldown, ws[..|ws| - 1])
  }

  /** A probe success at `now` confirms the recovery: it is the third since the
      last failure, or a later one at least two minutes after the first. */
  predicate Confirms(ws: seq<Write>, now: int) {
    var p := Probes(ws);
    |p| >= 2 || (|p| >= 1 && now - p[0] >= 120)
  }

  predicate ConfirmedAt(ws: seq<Write>, k: nat)
    requires k < |ws|
  {
    ws[k].Success? && ws[k].probe && Confirms(ws[..k], ws[k].at)
  }

  /** The row says of the history exactly this. */
  ghost predicate Tells(threshold: int, cooldown: int, ws: seq<Write>, r: Row) {
    && r.failures == FailureStreak(ws)
    && (r.threshold, r.cooldown) == Config(threshold, cooldown, ws)
    && (r.status == Unhealthy ==>
          var p := Probes(ws);
          && r.successes == |p| <= 2
          && r.recoveryStarted == (if p == [] then None else Some(p[0])))
    && (r.status != Unhealthy ==> r.lastError == LastMessage(ws))
    && (r.status != Unhealthy ==> r.successes == 0 && r.recoveryStarted == None && r.circuitOpenUntil == None)
    && (r.status == Unhealthy ==> FromLastFailure(threshold, cooldown, ws, r))
    && (r.status == Degraded <==> r.status != Unhealthy && FailureStreak(ws) > 0)
  }

  /** Deadline and message are those of the last failure. */
  ghost predicate FromLastFailure(threshold: int, cooldown: int, ws: seq<Write>, r: Row) {
    var i := LastFailure(ws);
    && i.Some?
    && r.circuitOpenUntil == Some(ws[i.value].at + Config(threshold, cooldown, ws[..i.value]).1)
    && r.lastError == ws[i.value].message
  }

  lemma FromLastFailureKeeps(threshold: int, cooldown: int, ws: seq<Write>, r: Row, w: Write, s: Row)
    requires !w.Failure? && FromLastFailure(threshold, cooldown, ws, r)
    requires s.circuitOpenUntil == r.circuitOpenUntil && s.lastError == r.lastError
    ensures FromLastFailure(threshold, cooldown, ws + [w], s)
  {
    var all := ws + [w];
    assert all[..|all| - 1] == ws;
    var i := LastFailure(ws).value;
    assert all[..i] == ws[..i] && all[i] == ws[i];
  }

  lemma AfterFailure(threshold: int, cooldown: int, ws: seq<Write>, w: Write)
    requires w.Failure?
    ensures LastFailure(ws + [w]) == Some(|ws|) && (ws + [w])[..|ws|] == ws
    ensures Probes(ws + [w]) == [] && FailureStreak(ws + [w]) == FailureStreak(ws) + 1
    ensures Config(threshold, cooldown, ws + [w]) == Config(threshold, cooldown, ws)
    ensures LastMessage(ws + [w]) == w.message
  {
    var all := ws + [w];
    assert all[..|all| - 1] == ws && all[|all| - 1] == w;
  }

  lemma FromThisFailure(threshold: int, cooldown: int, ws: seq<Write>, w: Write, s: Row)
    requires w.Failure? && s.lastError == w.message
    requires s.circuitOpenUntil == Some(w.at + Config(threshold, cooldown, ws).1)
    ensures FromLastFailure(threshold, cooldown, ws + [w], s)
  {
    AfterFailure(threshold, cooldown, ws, w);
    assert (ws + [w])[|ws|] == w;
  }

  lemma TellsFailure(threshold: int, cooldown: int, ws: seq<Write>, r: Row, w: Write)
    requires w.Failure? && Tells(threshold, cooldown, ws, r)
    ensures Tells(threshold, cooldown, ws + [w], Step(r, w))
  {
    var s := Step(r, w);
    AfterFailure(threshold, cooldown, ws, w);
    if s.status == Unhealthy { FromThisFailure(threshold, cooldown, ws, w, s); }
  }

  lemma TellsStep(threshold: int, cooldown: int, ws: seq<Write>, r: Row, w: Write)
    requires Tells(threshold, cooldown, ws, r)
    ensures Tells(threshold, cooldown, ws + [w], Step(r, w))
  {
    var all := ws + [w];
    assert all[..|all| - 1] == ws && all[|all| - 1] == w;
    if w.Failure? {
      TellsFailure(threshold, cooldown, ws, r, w);
    } else if r.status == Unhealthy && Step(r, w).status == Unhealthy {
      FromLastFailureKeeps(threshold, cooldown, ws, r, w, Step(r, w));
    }
  }

  lemma {:induction false} RowTellsHistory(threshold: int, cooldown: int, ws: seq<Write>)
    ensures Tells(threshold, cooldown, ws, Run(Fresh(threshold, cooldown), ws))
    decreases |ws|
  {
    if ws != [] {
      var init := ws[..|ws| - 1];
      RowTellsHistory(threshold, cooldown, init);
      TellsStep(threshold, cooldown, init, Run(Fresh(threshold, cooldown), init), ws[|ws| - 1]);
      assert ws == init + [ws[|ws| - 1]];
    }
  }

  /** An unhealthy upstream leaves that status exactly on a confirming probe
      success, and then it is healthy. */
  lemma RecoversIff(threshold: int, cooldown: int, ws: seq<Write>, w: Write)
    requires Run(Fresh(threshold, cooldown), ws).status == Unhealthy
    ensures Run(Fresh(threshold, cooldown), ws + [w]).status ==
            if w.Success? && w.probe && Confirms(ws, w.at) then Healthy else Unhealthy
  {
    RowTellsHistory(threshold, cooldown, ws);
    assert (ws + [w])[..|ws|] == ws;
  }

  /** An upstream that is not unhealthy becomes so exactly on a failure that is
      an authorization failure or completes a streak of `threshold` failures. */
  lemma TripsIff(threshold: int, cooldown: int, ws: seq<Write>, w: Write)
    requires Run(Fresh(threshold, cooldown), ws).status != Unhealthy
    ensures Run(Fresh(threshold, cooldown), ws + [w]).status == Unhealthy <==>
            w.Failure? && (w.auth || FailureStreak(ws + [w]) >= Config(threshold, cooldown, ws).0)
  {
    RowTellsHistory(threshold, cooldown, ws);
    assert (ws + [w])[..|ws|] == ws;
  }

  /** Whatever happened between an unhealthy moment and a later one that is not,
      some probe success in between confirmed the recovery. */
  lemma {:induction false} NoRecoveryWithoutProbes(threshold: int, cooldown: int, ws: seq<Write>, i: nat)
    requires i < |ws| && Run(Fresh(threshold, cooldown), ws[..i]).status == Unhealthy
    requires Run(Fresh(threshold, cooldown), ws).status != Unhealthy
    ensures exists k | i <= k < |ws| :: ConfirmedAt(ws, k)
    decreases |ws|
  {
    var k := |ws| - 1;
    var init := ws[..k];
    if Run(Fresh(threshold, cooldown), init).status == Unhealthy {
      RecoversIff(threshold, cooldown, init, ws[k]);
      assert init + [ws[k]] == ws;
      assert ConfirmedAt(ws, k);
    } else {
      assert init[..i] == ws[..i];
      NoRecoveryWithoutProbes(threshold, cooldown, init, i);
      var j :| i <= j < |init| && ConfirmedAt(init, j);
      assert init[..j] == ws[..j];
      assert ConfirmedAt(ws, j);
    }
  }

  /** Routing leaves an upstream out while its circuit is open. */
  predicate Routable(r: Row, now: int) { r.circuitOpenUntil.None? || r.circuitOpenUntil.value <= now }

  /** An upstream is left out exactly while it is unhealthy and the cooldown
      since its last failure has not passed. */
  lemma LeftOutIff(threshold: int, cooldown: int, ws: seq<Write>, now: int)
    ensures !Routable(Run(Fresh(threshold, cooldown), ws), now) <==>
            && Run(Fresh(threshold, cooldown), ws).status == Unhealthy
            && LastFailure(ws).Some?
            && now < ws[LastFailure(ws).value].at + Config(threshold, cooldown, ws[..LastFailure(ws).value]).1
  {
    RowTellsHistory(threshold, cooldown, ws);
  }

  // --------------------------------------------------- gateway successes

  function WithoutTraffic(ws: seq<Write>): seq<Write> {
    if ws == [] then []
    else
      var w := ws[|ws| - 1];
      if w.Success? && !w.probe then WithoutTraffic(ws[..|ws| - 1]) else WithoutTraffic(ws[..|ws| - 1]) + [w]
  }

  /** Everything but the failure counter. */
  predicate SameIncident(r: Row, s: Row) { r.(failures := 0) == s.(failures := 0) }

  /** Through a whole incident the gateway's successes move neither the status nor
      the progress of the recovery nor the circuit: without them the incident
      closes on the same write. */
  lemma {:induction false} TrafficDoesNotCloseIncidents(r: Row, ws: seq<Write>)
    requires forall i | 0 <= i < |ws| :: Run(r, ws[..i]).status == Unhealthy
    ensures SameIncident(Run(r, ws), Run(r, WithoutTraffic(ws)))
    decreases |ws|
  {
    if ws != [] {
      var init, w := ws[..|ws| - 1], ws[|ws| - 1];
      forall i | 0 <= i < |init| ensures Run(r, init[..i]).status == Unhealthy { assert init[..i] == ws[..i]; }
      TrafficDoesNotCloseIncidents(r, init);
      assert Run(r, init).status == Unhealthy;
      assert (WithoutTraffic(init) + [w])[..|WithoutTraffic(init)|] == WithoutTraffic(init);
    }
  }

  // ------------------------------------------------- the program's object

  datatype Outcome = Saved(status: Status, notify: Option<Status>) | NotFound | ConfigChanged

  datatype Acknowledgement = Acknowledged | UnknownUpstream | InvalidStatus

  function PendingHealthNotification(status: Status, notified: Status): Option<Status> {
    if status == Unhealthy && notified != Unhealthy then Some(Unhealthy)
    else if status == Healthy && notified == Unhealthy then Some(Healthy)
    else None
  }

  datatype Upstream = Upstream(row: Row, version: nat, notified: Status)

  class UpstreamHealth {
    var upstreams: map<int, Upstream>
    var routeCacheCleared: nat

    predicate Matches(id: int, version: nat)
      reads this
    {
      id in upstreams && (version == 0 || upstreams[id].version == version)
    }

    /** One UPDATE ... RETURNING, then the route cache if routing can see a difference. */
    method SaveHealth(id: int, healthy: bool, message: string, auth: bool, confirm: bool, version: nat, now: int)
      returns (o: Outcome)
      modifies this
      ensures old(Matches(id, version))
         <==> id in old(upstreams) && (version == 0 || version == old(upstreams)[id].version)
      ensures !old(Matches(id, version)) ==>
                upstreams == old(upstreams) && o == (if version > 0 then ConfigChanged else NotFound) &&
                routeCacheCleared == old(routeCacheCleared)
      ensures old(Matches(id, version)) ==>
                var w := if healthy then Success(confirm, now) else Failure(auth, message, now);
                var was := old(upstreams)[id];
                && upstreams == old(upstreams)[id := was.(row := Step(was.row, w))]
                && o == Saved(Step(was.row, w).status, PendingHealthNotification(Step(was.row, w).status, was.notified))
                && (routeCacheCleared != old(routeCacheCleared) <==>
                      !healthy || !SameForRouting(was.row, Step(was.row, w)))
    {
      if !Matches(id, version) { return if version > 0 then ConfigChanged else NotFound; }
      var u := upstreams[id];
      var was := u.row;
      var next: Row;
      if healthy {
        next := Succeeded(was, confirm, now);
      } else {
        next := Failed(was, auth, message, now);
      }
      upstreams := upstreams[id := u.(row := next)];
      if !healthy || was.status != next.status || was.failures != next.failures
          || was.circuitOpenUntil != next.circuitOpenUntil {
        routeCacheCleared := routeCacheCleared + 1;
      }
      return Saved(next.status, PendingHealthNotification(next.status, u.notified));
    }

    method AcknowledgeHealthNotification(id: int, status: Status) returns (a: Acknowledgement)
      modifies this`upstreams
      ensures a == if status != Healthy && status != Unhealthy then InvalidStatus
                   else if id !in old(upstreams) then UnknownUpstream else Acknowledged
      ensures upstreams == if a == Acknowledged then old(upstreams)[id := old(upstreams)[id].(notified := status)]
                           else old(upstreams)
      ensures a == Acknowledged ==> PendingHealthNotification(status, upstreams[id].notified) == None
    {
      if status != Healthy && status != Unhealthy { return InvalidStatus; }
      if id !in upstreams { return UnknownUpstream; }
      upstreams := upstreams[id := upstreams[id].(notified := status)];
      a := Acknowledged;
    }
  }

  // ------------------------------------------------------------- notices

  /** What happens to an upstream's row and to the record of its last notice. */
  datatype Happening = Written(write: Write) | Told(status: Status)

  function Writes(hs: seq<Happening>): seq<Write> {
    if hs == [] then []
    else Writes(hs[..|hs| - 1]) + if hs[|hs| - 1].Written? then [hs[|hs| - 1].write] else []
  }

  /** The last notice; before the first one an upstream counts as told healthy. */
  function LastTold(hs: seq<Happening>): Status {
    if hs == [] then Healthy
    else if hs[|hs| - 1].Told? then hs[|hs| - 1].status else LastTold(hs[..|hs| - 1])
  }

  function Happen(u: Upstream, h: Happening): Upstream {
    match h
    case Written(w) => u.(row := Step(u.row, w))
    case Told(status) => u.(notified := status)
  }

  function AllHappen(u: Upstream, hs: seq<Happening>): Upstream {
    if hs == [] then u else Happen(AllHappen(u, hs[..|hs| - 1]), hs[|hs| - 1])
  }

  lemma {:induction false} HappeningsSplit(row: Row, version: nat, hs: seq<Happening>)
    ensures AllHappen(Upstream(row, version, Healthy), hs) == Upstream(Run(row, Writes(hs)), version, LastTold(hs))
    decreases |hs|
  {
    if hs != [] {
      var init, h := hs[..|hs| - 1], hs[|hs| - 1];
      HappeningsSplit(row, version, init);
      if h.Written? {
        assert (Writes(init) + [h.write])[..|Writes(init)|] == Writes(init);
      } else {
        assert Writes(init) + [] == Writes(init);
      }
    }
  }

  /** In every run a notice is pending exactly while an incident is open that was
      not told, or is over and its end was not told: a trip and a recovery are each
      announced until acknowledged, and nothing else is. */
  lemma NoticePendingIff(row: Row, version: nat, hs: seq<Happening>)
    ensures var u := AllHappen(Upstream(row, version, Healthy), hs);
            var pending := PendingHealthNotification(u.row.status, u.notified);
            && (pending == Some(Unhealthy) <==> Run(row, Writes(hs)).status == Unhealthy && LastTold(hs) != Unhealthy)
            && (pending == Some(Healthy) <==> Run(row, Writes(hs)).status == Healthy && LastTold(hs) == Unhealthy)
            && (pending.Some? ==> pending == Some(u.row.status))
  {
    HappeningsSplit(row, version, hs);
  }

  predicate SameForRouting(r: Row, s: Row) {
    r.status == s.status && r.failures == s.failures && r.circuitOpenUntil == s.circuitOpenUntil
  }

  /** The assignments of the success statement, each from the old row. */
  function Succeeded(r: Row, confirm: bool, now: int): (s: Row)
    ensures s == Step(r, Success(confirm, now))
  {
    var early := r.successes + 1 < CONFIRMATIONS
        && (r.recoveryStarted.None? || r.recoveryStarted.value > now - CONFIRM_SECONDS);
    var open := r.status == Unhealthy && (!confirm || early);
    Row(if open then Unhealthy else Healthy,
        0,
        if r.status == Unhealthy && !confirm then r.successes
        else if r.status == Unhealthy && early then r.successes + 1 else 0,
        if r.status == Unhealthy && !confirm then r.recoveryStarted
        else if r.status == Unhealthy && early then Some(r.recoveryStarted.GetOr(now)) else None,
        if open then r.circuitOpenUntil else None,
        if open then r.lastError else "",
        r.threshold, r.cooldown)
  }

  function Failed(r: Row, auth: bool, message: string, now: int): (s: Row)
    ensures s == Step(r, Failure(auth, message, now))
  {
    var trips := r.status == Unhealthy || auth || r.failures + 1 >= r.threshold;
    Row(if trips then Unhealthy else Degraded, r.failures + 1, 0, None,
        if trips then Some(now + r.cooldown) else r.circuitOpenUntil, message, r.threshold, r.cooldown)
  }
}
