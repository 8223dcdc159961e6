/** A client may send a version it has not seen.  Exactly which such guesses can make a stick's
    sessions run backwards. */
module Guessing {
  import opened Core
  import opened Database
  import opened Protocol
  import opened Consistency
  import opened History
  import opened Intervals
  import opened Timing

  /** A run with the place of each operation in time and what its client had observed. */
  datatype Timeline = Timeline(log: Log, clock: seq<Time>, seen: seq<nat>)

  ghost predicate Observing(t: Timeline) {
    ValidRun(t.log) && Timed(t.log, t.clock, t.seen)
  }

  predicate Until(t: Timeline, at: Time) {
    forall i | 0 <= i < |t.clock| :: t.clock[i] <= at
  }

  /** A valid continuation from the instant on, in which every other request observes. */
  ghost predicate Continues(t: Timeline, later: Timeline, at: Time) {
    && Observing(later)
    && t.log <= later.log && t.clock <= later.clock && t.seen <= later.seen
    && forall i | |t.log| <= i < |later.log| :: at <= later.clock[i]
  }

  function VersionOf(db: Tables, id: string): int {
    if id in db.sticks then db.sticks[id].version else 0
  }

  predicate IsFree(db: Tables, id: string) {
    id in db.sticks && db.sticks[id].Available() && !db.sticks[id].Archived()
  }

  /** How many changes it takes at least until the stick can be claimed, or released. */
  function ToFree(db: Tables, id: string): nat {
    if IsFree(db, id) then 0 else 1
  }

  function ToHeld(db: Tables, id: string): nat {
    if IsHeld(db, id) then 0 else if IsFree(db, id) then 1 else 2
  }

  /** The first version a guess must not reach: by then the stick may have been claimed behind
      a release, or released behind a claim. */
  function Bound(db: Tables, id: string, change: Change): int {
    VersionOf(db, id) + 1 + if change.Release? then ToFree(db, id) else ToHeld(db, id)
  }

  predicate NeverAccepted(expected: int, change: Change) {
    expected >= MAX_INT64 || (change.Claim? && !ValidClaimReason(change.reason))
  }

  /** However the run continues: once this request is accepted, the sessions still run forwards. */
  ghost predicate Harmless(t: Timeline, id: string, expected: int, change: Change)
    requires change.Claim? || change.Release?
  {
    forall later, grant |
      && Continues(t, later, Stamp(change))
      && Admissible(later.log, OpTransition(id, expected, change, grant))
      && Step(Run(later.log), OpTransition(id, expected, change, grant)).reply.Ok? ::
      SessionsForward(later.log + [OpTransition(id, expected, change, grant)], id)
  }

  // ---- one such run, written out ----

  const GUESSER := Identity("u", "n", "e", false)
  const FREE := Stick("s", "a", 1, None, None)
  const HELD := Stick("s", "a", 2, None, Some(Holder("u", "n", "e", 10, "r")))
  const CREATE := OpCreate(FREE)
  const CLAIM := OpTransition("s", 1, Claim(GUESSER, "r", 10), Grant(0, map[]))
  const RELEASE := OpTransition("s", 2, Release("u", 5), NO_GRANT)
  const CLAIMED := Tables(map["s" := HELD], map[0 := Session("s", "u", "n", "e", "r", 10, None)], map[], map[])

  lemma CreateScenario()
    ensures ValidRun([CREATE]) && Run([CREATE]) == Tables(map["s" := FREE], map[], map[], map[])
  {
    assert 'a' in "a";
    assert NewStick("s", "a") == Ok(FREE);
    assert Run([]) == EMPTY;
    Snoc([], CREATE);
    assert [] + [CREATE] == [CREATE];
  }

  lemma ClaimScenario()
    ensures ValidRun([CREATE, CLAIM]) && Run([CREATE, CLAIM]) == CLAIMED
  {
    CreateScenario();
    var db := Run([CREATE]);
    assert 'r' in "r";
    assert Next(FREE, CLAIM.change) == Ok(HELD);
    Snoc([CREATE], CLAIM);
    assert [CREATE] + [CLAIM] == [CREATE, CLAIM];
    ReachableConsistent([CREATE]);
    hide Run, Next;
    TransitionStep(db, CLAIM);
    assert Proceeds(db, "s", 1, CLAIM.change);
    assert Written(db, "s", CLAIM.change, CLAIM.grant) == CLAIMED;
  }

  lemma ReleaseWrites()
    ensures Proceeds(CLAIMED, "s", 2, RELEASE.change) && HasOpenSession(CLAIMED, "s")
    ensures Written(CLAIMED, "s", RELEASE.change, NO_GRANT).sessions
         == map[0 := Session("s", "u", "n", "e", "r", 10, Some(5))]
  {
    assert IsOpen(CLAIMED, 0, "s");
    assert OpenSession(CLAIMED, "s") == 0;
  }

  lemma ReleaseOfClaimed()
    ensures Assigns(CLAIMED, "s", map[])
    ensures Consistent(CLAIMED) ==>
              Step(CLAIMED, RELEASE).db.sessions == map[0 := Session("s", "u", "n", "e", "r", 10, Some(5))]
  {
    ReleaseWrites();
    assert Assigns(CLAIMED, "s", map[]);
    hide Next, Step, Written, Consistent, Assigns, IsOpen, HasOpenSession;
    if Consistent(CLAIMED) {
      TransitionStep(CLAIMED, RELEASE);
    }
  }

  lemma ReleaseScenario()
    ensures ValidRun([CREATE, CLAIM, RELEASE])
    ensures Run([CREATE, CLAIM, RELEASE]).sessions == map[0 := Session("s", "u", "n", "e", "r", 10, Some(5))]
  {
    ClaimScenario();
    ReleaseOfClaimed();
    ReachableConsistent([CREATE, CLAIM]);
    hide Run, Next, Step, Consistent, Assigns;
    Snoc([CREATE, CLAIM], RELEASE);
    assert [CREATE, CLAIM] + [RELEASE] == [CREATE, CLAIM, RELEASE];
  }

  /** A release taken at 5 that guesses the version its claim at 10 will produce: the clock is
      monotone and every stamp lies before its place, and the session ends before it begins. */
  lemma GuessedVersionRunsBackwards() returns (log: Log, clock: seq<Time>)
    ensures ValidRun(log) && |clock| == |log|
    ensures forall i, j | 0 <= i <= j < |log| :: clock[i] <= clock[j]
    ensures forall i: nat | IsHandover(log, i) :: Stamp(log[i].change) <= clock[i]
    ensures exists k :: k in Run(log).sessions && !NonNegative(Run(log).sessions[k])
  {
    log, clock := [CREATE, CLAIM, RELEASE], [0, 10, 10];
    ReleaseScenario();
    hide Run, Step;
    assert 0 in Run(log).sessions && !NonNegative(Run(log).sessions[0]);
  }

  // ---- below the bound nothing can go wrong ----

  /** No change brings a stick closer by more than one. */
  lemma DistanceStep(log: Log, id: string)
    requires ValidRun(log) && log != []
    ensures var before, after := Run(log[..|log| - 1]), Run(log);
            && VersionOf(before, id) + ToFree(before, id) <= VersionOf(after, id) + ToFree(after, id)
            && VersionOf(before, id) + ToHeld(before, id) <= VersionOf(after, id) + ToHeld(after, id)
  {
    var front, op := log[..|log| - 1], log[|log| - 1];
    LastStep(log, id);
    ReachableConsistent(log);
    hide Run, Step;
    if id in Run(front).sticks && Changes(front, op, id) {
      TransitionContract(Run(front).sticks[id], op.change) by {
        WellFormedIn(Run(front), id);
      }
      hide Next, Consistent;
    }
  }

  lemma {:induction false} Distance(log: Log, i: nat, id: string)
    requires ValidRun(log) && i <= |log|
    ensures var before, after := Run(log[..i]), Run(log);
            && VersionOf(before, id) + ToFree(before, id) <= VersionOf(after, id) + ToFree(after, id)
            && VersionOf(before, id) + ToHeld(before, id) <= VersionOf(after, id) + ToHeld(after, id)
  {
    if i == |log| {
      assert log[..i] == log;
    } else {
      var front := log[..|log| - 1];
      assert front[..i] == log[..i];
      DistanceStep(log, id);
      hide Run, Step, ToFree, ToHeld, VersionOf;
      Distance(front, i, id);
    }
  }

  lemma AcceptedHandover(log: Log, id: string, expected: int, change: Change, grant: Grant)
    requires ValidRun(log) && (change.Claim? || change.Release?)
    requires Step(Run(log), OpTransition(id, expected, change, grant)).reply.Ok?
    ensures Proceeds(Run(log), id, expected, change) && VersionOf(Run(log), id) == expected
            && !NeverAccepted(expected, change)
    ensures change.Claim? ==> IsFree(Run(log), id)
    ensures change.Release? ==> IsHeld(Run(log), id)
  {
    ReachableConsistent(log);
    NoLateFailure(Run(log), id, expected, change, grant);
    TransitionContract(Run(log).sticks[id], change) by {
      WellFormedIn(Run(log), id);
    }
  }

  /** A handover after position `n` takes the stick past the bound. */
  lemma HandoverPassesBound(log: Log, n: nat, m: nat, id: string, change: Change)
    requires ValidRun(log) && n <= m && IsHandover(log, m) && log[m].id == id
    requires (change.Release? && log[m].change.Claim?) || (change.Claim? && log[m].change.Release?)
    ensures Bound(Run(log[..n]), id, change) <= VersionOf(Run(log), id)
  {
    PrefixValid(log, m);
    assert log[..m][..n] == log[..n];
    Distance(log[..m], n, id);
    AcceptedHandover(log[..m], id, log[m].expected, log[m].change, log[m].grant);
    AcceptedChange(log, m);
    VersionMonotone(log, m + 1, id);
  }

  lemma StampBefore(t: Timeline, m: nat, at: Time)
    requires Observing(t) && IsHandover(t.log, m) && t.clock[m] <= at
    ensures Stamp(t.log[m].change) <= at
  {
    assert Observed(t.log, t.clock, t.seen[m], m);
  }

  lemma BelowBound(t: Timeline, later: Timeline, id: string, expected: int, change: Change, grant: Grant)
    requires (change.Claim? || change.Release?) && Until(t, Stamp(change)) && |t.clock| == |t.log|
    requires expected < Bound(Run(t.log), id, change) || NeverAccepted(expected, change)
    requires Continues(t, later, Stamp(change))
    requires Step(Run(later.log), OpTransition(id, expected, change, grant)).reply.Ok?
    ensures NotBefore(LastStamp(later.log, id), Stamp(change))
  {
    var log := later.log;
    AcceptedHandover(log, id, expected, change, grant);
    if LastStamp(log, id).Some? {
      var m := LastStampFrom(log, id);
      assert log[..|t.log|] == t.log;
      hide Run, Step, ValidRun, LastStamp;
      if m < |t.log| {
        assert later.clock[m] == t.clock[m];
        StampBefore(later, m, Stamp(change));
      } else {
        assert log[m].change.Claim? <==> change.Release?;
        HandoverPassesBound(log, |t.log|, m, id, change);
      }
    }
  }

  /** What an accepted operation makes of the order, at the end of any run. */
  lemma AcceptedAtEnd(log: Log, op: Op, id: string)
    requires ValidRun(log + [op]) && Hands(log, op, id)
    ensures SessionsForward(log + [op], id)
       <==> SessionsForward(log, id) && NotBefore(LastStamp(log, id), Stamp(op.change))
  {
    Snoc(log, op);
    assert (log + [op])[..|log|] == log;
    OrderInv(log, id);
    OrderStep(log + [op], id);
  }

  lemma GuessBelowBound(t: Timeline, id: string, expected: int, change: Change)
    requires (change.Claim? || change.Release?) && Observing(t) && Until(t, Stamp(change))
    requires expected < Bound(Run(t.log), id, change) || NeverAccepted(expected, change)
    ensures Harmless(t, id, expected, change)
  {
    forall later, grant |
      && Continues(t, later, Stamp(change))
      && Admissible(later.log, OpTransition(id, expected, change, grant))
      && Step(Run(later.log), OpTransition(id, expected, change, grant)).reply.Ok?
      ensures SessionsForward(later.log + [OpTransition(id, expected, change, grant)], id)
    {
      var op := OpTransition(id, expected, change, grant);
      BelowBound(t, later, id, expected, change, grant);
      Snoc(later.log, op);
      SessionIntervals(later.log, later.clock, later.seen, id);
      hide Run, Step, ValidRun, Timed, SessionsForward, LastStamp;
      AcceptedAtEnd(later.log, op, id);
    }
  }

  // ---- from the bound on, other clients can make it go wrong ----

  lemma {:induction false} AllBelow(ids: set<nat>) returns (next: nat)
    ensures forall n | n in ids :: n < next
  {
    if ids == {} {
      next := 0;
    } else {
      var n :| n in ids;
      next := AllBelow(ids - {n});
      next := if n < next then next else n + 1;
      assert forall m | m in ids :: m == n || m in ids - {n};
    }
  }

  /** Sequences always have ids to give. */
  lemma GrantExists(db: Tables, id: string) returns (grant: Grant)
    ensures grant.session !in db.sessions && Assigns(db, id, grant.rows)
  {
    var session := AllBelow(db.sessions.Keys);
    var next := AllBelow(db.outbox.Keys);
    StartAssignment(db, id);
    hide PartlyAssigned, Assigns;
    var rows, bound := AssignmentExists(db, id, Subscribers(db, id), map[], next);
    FullyAssigned(db, id, rows);
    grant := Grant(session, rows);
  }

  /** The next operation, a moment after `at`. */
  function Then(t: Timeline, op: Op, at: Time): Timeline {
    Timeline(t.log + [op], t.clock + [at + 1], t.seen + [|t.log|])
  }

  /** A continuation made a moment after `at`. */
  ghost predicate MomentLater(start: Timeline, t: Timeline, at: Time) {
    && Continues(start, t, at) && Until(t, at + 1) && |start.log| == |start.clock| == |start.seen|
  }

  lemma Extend(start: Timeline, t: Timeline, op: Op, at: Time)
    requires MomentLater(start, t, at) && Admissible(t.log, op)
    requires Step(Run(t.log), op).reply.Ok? && op.OpTransition? && (op.change.Claim? || op.change.Release?) ==>
               Stamp(op.change) == at + 1 && VersionOf(Run(t.log), op.id) == op.expected && op.id in Run(t.log).sticks
    ensures MomentLater(start, Then(t, op, at), at)
  {
    var u := Then(t, op, at);
    var n := |t.log|;
    Snoc(t.log, op);
    hide Run, Step, ValidRun, Admissible;
    forall i: nat | IsHandover(u.log, i)
      ensures Observed(u.log, u.clock, u.seen[i], i)
    {
      if i < n {
        assert u.log[..i] == t.log[..i] && u.log[i] == t.log[i];
        assert IsHandover(t.log, i) && Observed(t.log, t.clock, t.seen[i], i);
        assert u.log[..t.seen[i]] == t.log[..t.seen[i]];
      } else {
        assert u.log[..n] == t.log;
      }
    }
    assert Timed(u.log, u.clock, u.seen);
    assert Observing(u);
    assert start.log <= u.log && start.clock <= u.clock && start.seen <= u.seen;
  }

  /** Another client's change is accepted. */
  lemma Accept(start: Timeline, t: Timeline, id: string, change: Change, at: Time) returns (u: Timeline)
    requires MomentLater(start, t, at)
    requires id in Run(t.log).sticks && Next(Run(t.log).sticks[id], change).Ok?
    requires change.Claim? || change.Release? ==> Stamp(change) == at + 1
    ensures MomentLater(start, u, at)
    ensures id in Run(u.log).sticks && Next(Run(t.log).sticks[id], change) == Ok(Run(u.log).sticks[id])
    ensures LastStamp(u.log, id) == if change.Claim? || change.Release? then Some(at + 1) else LastStamp(t.log, id)
  {
    var db := Run(t.log);
    var expected := db.sticks[id].version;
    var grant := GrantExists(db, id);
    var op := OpTransition(id, expected, change, grant);
    u := Then(t, op, at);
    ReachableConsistent(t.log);
    TransitionStep(db, op);
    assert Admissible(t.log, op);
    Extend(start, t, op, at);
    Snoc(t.log, op);
    assert u.log[..|t.log|] == t.log;
    assert Run(u.log).sticks[id] == Next(db.sticks[id], change).value;
    hide Run, Step, ValidRun, Next, Written, MomentLater;
    assert Hands(t.log, op, id) <==> change.Claim? || change.Release?;
  }

  lemma MakeStick(start: Timeline, t: Timeline, id: string, at: Time) returns (u: Timeline)
    requires MomentLater(start, t, at) && id !in Run(t.log).sticks
    ensures MomentLater(start, u, at) && IsFree(Run(u.log), id)
    ensures VersionOf(Run(u.log), id) == VersionOf(Run(t.log), id) + ToFree(Run(t.log), id)
  {
    var stick := Stick(id, "a", 1, None, None);
    Reason();
    assert NewStick(id, "a") == Ok(stick);
    assert Admissible(t.log, OpCreate(stick));
    hide MomentLater, ValidRun, Run, Admissible, NewStick;
    Extend(start, t, OpCreate(stick), at);
    Snoc(t.log, OpCreate(stick));
    u := Then(t, OpCreate(stick), at);
  }

  /** In as few changes as it takes the stick is created if it is not there, and else released
      or unarchived. */
  lemma MakeFree(start: Timeline, t: Timeline, id: string, at: Time) returns (u: Timeline)
    requires MomentLater(start, t, at) && VersionOf(Run(t.log), id) < MAX_INT64
    ensures MomentLater(start, u, at) && IsFree(Run(u.log), id)
    ensures VersionOf(Run(u.log), id) == VersionOf(Run(t.log), id) + ToFree(Run(t.log), id)
  {
    var db := Run(t.log);
    if id !in db.sticks {
      u := MakeStick(start, t, id, at);
    } else {
      ReachableConsistent(t.log);
      var stick := db.sticks[id];
      hide Run, Step, ValidRun, Consistent, MomentLater;
      if stick.Archived() {
        u := Accept(start, t, id, Unarchive, at);
      } else if stick.holder.Some? {
        u := Accept(start, t, id, Release(stick.holder.value.sub, at + 1), at);
      } else {
        u := t;
      }
    }
  }

  lemma Reason()
    ensures ValidClaimReason("r") && ValidStickName("a")
  {
    assert 'r' in "r" && 'a' in "a";
  }

  /** A free stick is claimed by the subject. */
  lemma ClaimFor(start: Timeline, t: Timeline, id: string, subject: string, at: Time) returns (u: Timeline)
    requires MomentLater(start, t, at) && IsFree(Run(t.log), id) && VersionOf(Run(t.log), id) < MAX_INT64
    ensures MomentLater(start, u, at) && IsHeld(Run(u.log), id) && Run(u.log).sticks[id].holder.value.sub == subject
    ensures VersionOf(Run(u.log), id) == VersionOf(Run(t.log), id) + 1
    ensures LastStamp(u.log, id) == Some(at + 1)
  {
    Reason();
    ReachableConsistent(t.log);
    hide Run, Step, ValidRun, MomentLater, ValidClaimReason;
    u := Accept(start, t, id, Claim(Identity(subject, "n", "e", false), "r", at + 1), at);
  }

  /** The stick is renamed until it has this version. */
  lemma {:induction false} RenameUpTo(start: Timeline, t: Timeline, id: string, version: int, at: Time)
    returns (u: Timeline)
    requires MomentLater(start, t, at) && id in Run(t.log).sticks
    requires VersionOf(Run(t.log), id) <= version < MAX_INT64
    ensures MomentLater(start, u, at) && id in Run(u.log).sticks && VersionOf(Run(u.log), id) == version
    ensures Run(u.log).sticks[id].holder == Run(t.log).sticks[id].holder
    ensures Run(u.log).sticks[id].archivedAt == Run(t.log).sticks[id].archivedAt
    ensures LastStamp(u.log, id) == LastStamp(t.log, id)
    decreases version - VersionOf(Run(t.log), id)
  {
    if VersionOf(Run(t.log), id) == version {
      u := t;
    } else {
      Reason();
      ReachableConsistent(t.log);
      hide Run, Step, ValidRun, MomentLater, ValidStickName, LastStamp;
      u := Accept(start, t, id, Rename("a"), at);
      u := RenameUpTo(start, u, id, version, at);
    }
  }

  /** A state in which the request is accepted behind the opposite handover. */
  ghost predicate Trap(t: Timeline, id: string, expected: int, change: Change, at: Time) {
    LastStamp(t.log, id) == Some(at + 1) && Proceeds(Run(t.log), id, expected, change)
  }

  lemma TrapForRelease(start: Timeline, t: Timeline, id: string, expected: int, change: Change, at: Time)
    returns (u: Timeline)
    requires MomentLater(start, t, at) && change.Release? && Bound(Run(t.log), id, change) <= expected < MAX_INT64
    ensures MomentLater(start, u, at) && Trap(u, id, expected, change, at)
  {
    hide Run, Step, ValidRun, MomentLater, LastStamp;
    u := MakeFree(start, t, id, at);
    u := ClaimFor(start, u, id, change.subject, at);
    u := RenameUpTo(start, u, id, expected, at);
    ReachableConsistent(u.log) by {
      StillValid(start, u, at);
    }
  }

  lemma StillValid(start: Timeline, t: Timeline, at: Time)
    requires MomentLater(start, t, at)
    ensures ValidRun(t.log)
  {
  }

  lemma TrapForClaim(start: Timeline, t: Timeline, id: string, expected: int, change: Change, at: Time)
    returns (u: Timeline)
    requires MomentLater(start, t, at) && change.Claim? && ValidClaimReason(change.reason)
    requires Bound(Run(t.log), id, change) <= expected < MAX_INT64
    ensures MomentLater(start, u, at) && Trap(u, id, expected, change, at)
  {
    hide Run, Step, ValidRun, MomentLater, LastStamp, ValidClaimReason;
    u := t;
    if !IsHeld(Run(t.log), id) {
      u := MakeFree(start, t, id, at);
      u := ClaimFor(start, u, id, "u", at);
    }
    ReachableConsistent(u.log) by {
      StillValid(start, u, at);
    }
    u := Accept(start, u, id, Release(Run(u.log).sticks[id].holder.value.sub, at + 1), at);
    ReachableConsistent(u.log) by {
      StillValid(start, u, at);
    }
    u := RenameUpTo(start, u, id, expected, at);
  }

  lemma GuessFromBound(t: Timeline, id: string, expected: int, change: Change)
    requires (change.Claim? || change.Release?) && Observing(t) && Until(t, Stamp(change))
    requires expected >= Bound(Run(t.log), id, change) && !NeverAccepted(expected, change)
    ensures !Harmless(t, id, expected, change)
  {
    var at := Stamp(change);
    assert MomentLater(t, t, at);
    var u;
    if change.Release? {
      u := TrapForRelease(t, t, id, expected, change, at);
    } else {
      u := TrapForClaim(t, t, id, expected, change, at);
    }
    StillValid(t, u, at);
    ReachableConsistent(u.log);
    var grant := GrantExists(Run(u.log), id);
    var op := OpTransition(id, expected, change, grant);
    assert Admissible(u.log, op);
    NoLateFailure(Run(u.log), id, expected, change, grant);
    Snoc(u.log, op);
    AcceptedAtEnd(u.log, op, id);
    assert Continues(t, u, at);
  }

  /** Take a claim or release that is stamped while the stick is in some state, and let
      everyone else observe the version they expect before they take their stamps.  In every
      continuation that accepts the request the sessions of the stick run forwards if and
      only if the version it sends is below a bound that the client can work out from the
      state it stamped at: for a release one above the current version if the stick is free
      and two above it if not; for a claim one above it if the stick is held, two if it is
      free and three if it is archived or not there yet.  (Or the request can never be accepted.) */
  lemma GuessIff(t: Timeline, id: string, expected: int, change: Change)
    requires (change.Claim? || change.Release?) && Observing(t) && Until(t, Stamp(change))
    ensures Harmless(t, id, expected, change)
       <==> expected < Bound(Run(t.log), id, change) || NeverAccepted(expected, change)
  {
    hide Harmless, Bound, NeverAccepted, Observing;
    if expected < Bound(Run(t.log), id, change) || NeverAccepted(expected, change) {
      GuessBelowBound(t, id, expected, change);
    } else {
      GuessFromBound(t, id, expected, change);
    }
  }
}
