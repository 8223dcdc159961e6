/** Session intervals.  The service takes a claim's and a release's timestamp before its
    transaction begins, so nothing but the version check orders them. */
module Timing {
  import opened Core
  import opened Protocol
  import opened History
  import opened Intervals

  /** A claim or release that took effect. */
  predicate IsHandover(log: Log, i: nat) {
    Accepted(log, i) && log[i].OpTransition? && (log[i].change.Claim? || log[i].change.Release?)
  }

  /** Operation `i` was requested when the first `seen` operations had taken place: they lie
      before its timestamp, its timestamp lies before its own place, and the version it
      expects had been reached by then. */
  ghost predicate Observed(log: Log, clock: seq<Time>, seen: nat, i: nat)
    requires |clock| == |log| && IsHandover(log, i)
  {
    && seen <= i
    && (forall k | 0 <= k < seen :: clock[k] <= Stamp(log[i].change))
    && Stamp(log[i].change) <= clock[i]
    && log[i].id in Run(log[..seen]).sticks
    && log[i].expected <= Run(log[..seen]).sticks[log[i].id].version
  }

  /** `clock[i]` is when operation `i` took its place in the serial order (its commit, or for a
      release the moment it enqueued), `seen[i]` how much of it its client had observed. */
  ghost predicate Timed(log: Log, clock: seq<Time>, seen: seq<nat>) {
    && |clock| == |log| == |seen|
    && (forall i, j | 0 <= i <= j < |log| :: clock[i] <= clock[j])
    && (forall i: nat | IsHandover(log, i) :: Observed(log, clock, seen[i], i))
  }

  /** A change that passed the version check carries a timestamp later than the commit of
      every earlier change of the stick. */
  lemma VersionCheckOrdersStamps(log: Log, clock: seq<Time>, seen: seq<nat>, m: nat, i: nat)
    requires ValidRun(log) && Timed(log, clock, seen) && IsHandover(log, i) && m < i
    requires Accepted(log, m) && log[m].OpTransition? && log[m].id == log[i].id
    ensures clock[m] <= Stamp(log[i].change)
  {
    hide Run, Step;
    assert Observed(log, clock, seen[i], i);
    if m >= seen[i] {
      OneChangePerVersion(log, m, i);
      AcceptedChange(log, m);
      PrefixValid(log, m);
      assert log[..m][..seen[i]] == log[..seen[i]];
      VersionMonotone(log[..m], seen[i], log[i].id);
    }
  }

  lemma TimedPrefix(log: Log, clock: seq<Time>, seen: seq<nat>, n: nat)
    requires Timed(log, clock, seen) && n <= |log|
    ensures Timed(log[..n], clock[..n], seen[..n])
  {
    hide Run, Step;
    forall i: nat | IsHandover(log[..n], i)
      ensures Observed(log[..n], clock[..n], seen[..n][i], i)
    {
      assert log[..n][..i] == log[..i];
      assert IsHandover(log, i);
      assert log[..n][..seen[i]] == log[..seen[i]];
    }
  }

  /** The handover that recorded the stick's last stamp: a claim if the stick is held. */
  lemma {:induction false} LastStampFrom(log: Log, id: string) returns (m: nat)
    requires ValidRun(log) && LastStamp(log, id).Some?
    ensures IsHandover(log, m) && log[m].id == id && LastStamp(log, id) == Some(Stamp(log[m].change))
    ensures log[m].change.Claim? <==> IsHeld(Run(log), id)
    ensures id in Run(log).sticks
  {
    var last := |log| - 1;
    var front, op := log[..last], log[last];
    LastSessionStep(log, id);
    LastStep(log, id);
    hide Run, Step, ValidRun;
    if Hands(front, op, id) {
      m := last;
    } else {
      m := LastStampFrom(front, id);
      assert front[..m] == log[..m];
    }
  }

  lemma {:induction false} TimedStampsInOrder(log: Log, clock: seq<Time>, seen: seq<nat>, id: string)
    requires ValidRun(log) && Timed(log, clock, seen)
    ensures StampsInOrder(log, id)
  {
    if log != [] {
      var i := |log| - 1;
      var front, op := log[..i], log[i];
      PrefixValid(log, i);
      TimedPrefix(log, clock, seen, i);
      TimedStampsInOrder(front, clock[..i], seen[..i], id);
      hide Run, Step, ValidRun;
      if Hands(front, op, id) && LastStamp(front, id).Some? {
        var m := LastStampFrom(front, id);
        assert front[..m] == log[..m];
        VersionCheckOrdersStamps(log, clock, seen, m, i);
        assert IsHandover(log, m) && Observed(log, clock, seen[m], m);
      }
    }
  }

  /** With a monotone clock, and requests that saw the version they expect before they took
      their timestamp, the sessions of a stick are never negative, and each begins no earlier
      than the ones opened before it ended. */
  lemma SessionIntervals(log: Log, clock: seq<Time>, seen: seq<nat>, id: string)
    requires ValidRun(log) && Timed(log, clock, seen)
    ensures SessionsForward(log, id)
  {
    TimedStampsInOrder(log, clock, seen, id);
    SessionsForwardIff(log, id);
  }
}
