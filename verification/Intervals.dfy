/** The sessions of one stick in the order they were opened, and exactly when they run
    forwards.  No clock is involved: timestamps are whatever the requests carry. */
module Intervals {
  import opened Core
  import opened Database
  import opened Protocol
  import opened Consistency
  import opened History

  function Stamp(change: Change): Time
    requires change.Claim? || change.Release?
  {
    if change.Claim? then change.claimedAt else change.releasedAt
  }

  /** The operation is a claim or release of the stick and takes effect after this log. */
  predicate Hands(log: Log, op: Op, id: string) {
    Changes(log, op, id) && (op.change.Claim? || op.change.Release?)
  }

  /** The timestamp the stick recorded last. */
  function LastStamp(log: Log, id: string): Option<Time> {
    if log == [] then None else
    var front, op := log[..|log| - 1], log[|log| - 1];
    if Hands(front, op, id) then Some(Stamp(op.change)) else LastStamp(front, id)
  }

  /** The sessions of the stick in the order their claims were accepted. */
  function SessionOrder(log: Log, id: string): seq<nat> {
    if log == [] then [] else
    var front, op := log[..|log| - 1], log[|log| - 1];
    SessionOrder(front, id) + if Changes(front, op, id) && op.change.Claim? then [op.grant.session] else []
  }

  predicate NotBefore(last: Option<Time>, stamp: Time) {
    last.Some? ==> last.value <= stamp
  }

  /** Each accepted claim and release of the stick carries a timestamp that is not before the
      one recorded last. */
  predicate StampsInOrder(log: Log, id: string) {
    log == [] ||
    var front, op := log[..|log| - 1], log[|log| - 1];
    StampsInOrder(front, id) && (Hands(front, op, id) ==> NotBefore(LastStamp(front, id), Stamp(op.change)))
  }

  predicate Precedes(earlier: Session, later: Session) {
    earlier.releasedAt.Some? && earlier.releasedAt.value <= later.claimedAt
  }

  predicate NonNegative(session: Session) {
    session.releasedAt.Some? ==> session.claimedAt <= session.releasedAt.value
  }

  predicate Forward(sessions: map<nat, Session>, order: seq<nat>) {
    && (forall a | 0 <= a < |order| :: order[a] in sessions && NonNegative(sessions[order[a]]))
    && (forall a, b | 0 <= a < b < |order| :: Precedes(sessions[order[a]], sessions[order[b]]))
  }

  /** No session of the stick ends before it begins, and one that was opened later begins no
      earlier than those opened before it ended. */
  predicate SessionsForward(log: Log, id: string) {
    Forward(Run(log).sessions, SessionOrder(log, id))
  }

  predicate IsHeld(db: Tables, id: string) {
    id in db.sticks && db.sticks[id].holder.Some?
  }

  predicate OfStick(sessions: map<nat, Session>, k: nat, id: string) {
    k in sessions && sessions[k].stickId == id
  }

  /** What the last operation of a run does to the sessions of one stick. */
  ghost predicate SessionStep(before: Tables, after: Tables, op: Op, id: string, hands: bool) {
    if !hands then
      && (forall k: nat :: OfStick(after.sessions, k, id) <==> OfStick(before.sessions, k, id))
      && (forall k: nat | OfStick(before.sessions, k, id) :: after.sessions[k] == before.sessions[k])
      && (IsHeld(after, id) <==> IsHeld(before, id))
    else
      && op.OpTransition? && op.id == id && (op.change.Claim? || op.change.Release?)
      && (op.change.Claim? ==>
            && !IsHeld(before, id) && IsHeld(after, id) && op.grant.session !in before.sessions
            && op.grant.session in after.sessions
            && after.sessions == before.sessions[op.grant.session := after.sessions[op.grant.session]]
            && var s := after.sessions[op.grant.session];
            s.stickId == id && s.claimedAt == op.change.claimedAt && s.Open())
      && (op.change.Release? ==>
            && IsHeld(before, id) && !IsHeld(after, id) && HasOpenSession(before, id)
            && var k := OpenSession(before, id);
            after.sessions == before.sessions[k := before.sessions[k].(releasedAt := Some(op.change.releasedAt))])
  }

  lemma ClaimSessions(db: Tables, op: Op, id: string)
    requires Consistent(db) && op.OpTransition? && op.change.Claim? && Proceeds(db, op.id, op.expected, op.change)
    requires op.grant.session !in db.sessions
    ensures SessionStep(db, Written(db, op.id, op.change, op.grant), op, id, op.id == id)
  {
    TransitionContract(db.sticks[op.id], op.change);
    assert db.sticks[op.id].id == op.id;
    hide Consistent, Next, IsOpen;
  }

  lemma ReleaseSessions(db: Tables, op: Op, id: string)
    requires Consistent(db) && op.OpTransition? && op.change.Release? && Proceeds(db, op.id, op.expected, op.change)
    requires HasOpenSession(db, op.id)
    ensures SessionStep(db, Written(db, op.id, op.change, op.grant), op, id, op.id == id)
  {
    TransitionContract(db.sticks[op.id], op.change);
    var k := OpenSession(db, op.id);
    assert IsOpen(db, k, op.id);
    hide Consistent, Next, NewRows, HasOpenSession, OpenSession, IsOpen;
    CloseElsewhere(db.sessions, Written(db, op.id, op.change, op.grant).sessions, k, op.change.releasedAt, id);
  }

  /** Closing a session leaves those of other sticks alone. */
  lemma CloseElsewhere(before: map<nat, Session>, after: map<nat, Session>, k: nat, at: Time, id: string)
    requires k in before && after == before[k := before[k].(releasedAt := Some(at))]
    ensures forall j: nat :: OfStick(after, j, id) <==> OfStick(before, j, id)
    ensures forall j: nat | OfStick(before, j, id) && before[k].stickId != id :: after[j] == before[j]
  {
  }

  lemma PlainSessions(db: Tables, op: Op, id: string)
    requires Consistent(db) && op.OpTransition? && !op.change.Claim? && !op.change.Release?
    requires Proceeds(db, op.id, op.expected, op.change)
    ensures SessionStep(db, Written(db, op.id, op.change, op.grant), op, id, false)
  {
    TransitionContract(db.sticks[op.id], op.change);
    hide Consistent, Next;
  }

  lemma TransitionSessions(db: Tables, op: Op, id: string)
    requires Consistent(db) && op.OpTransition? && Proceeds(db, op.id, op.expected, op.change)
    requires op.change.Claim? ==> op.grant.session !in db.sessions
    ensures SessionStep(db, Step(db, op).db, op, id, op.id == id && (op.change.Claim? || op.change.Release?))
  {
    TransitionStep(db, op);
    hide Step, Written, SessionStep, Proceeds, Consistent;
    if op.change.Claim? {
      ClaimSessions(db, op, id);
    } else if op.change.Release? {
      ReleaseSessions(db, op, id);
    } else {
      PlainSessions(db, op, id);
    }
  }

  lemma LastSessionStep(log: Log, id: string)
    requires ValidRun(log) && log != []
    ensures var front, op := log[..|log| - 1], log[|log| - 1];
            && ValidRun(front) && SessionStep(Run(front), Run(log), op, id, Hands(front, op, id))
  {
    var front, op := log[..|log| - 1], log[|log| - 1];
    ReachableConsistent(front);
    if op.OpTransition? {
      NoLateFailure(Run(front), op.id, op.expected, op.change, op.grant);
      if Proceeds(Run(front), op.id, op.expected, op.change) {
        TransitionSessions(Run(front), op, id);
      } else {
        FailureRollsBack(Run(front), op);
      }
    } else {
      OtherWrites(Run(front), op);
      LastStep(log, id);
      hide Step, Consistent;
    }
  }

  /** The order lists exactly the stick's sessions, each once; all but the last are closed, and
      the last is open exactly while the stick is held; the stamp recorded last is its own. */
  ghost predicate OrderOk(db: Tables, order: seq<nat>, last: Option<Time>, id: string) {
    && (forall k: nat :: k in order <==> OfStick(db.sessions, k, id))
    && (forall a, b | 0 <= a < b < |order| :: order[a] != order[b])
    && (forall a | 0 <= a < |order| - 1 :: order[a] in db.sessions && !db.sessions[order[a]].Open())
    && if order == [] then last.None? && !IsHeld(db, id) else
       var k := order[|order| - 1];
       && k in db.sessions
       && (db.sessions[k].Open() <==> IsHeld(db, id))
       && last == (if IsHeld(db, id) then Some(db.sessions[k].claimedAt) else db.sessions[k].releasedAt)
  }

  lemma SameStickStep(before: Tables, after: Tables, op: Op, id: string, order: seq<nat>, last: Option<Time>)
    requires OrderOk(before, order, last, id) && SessionStep(before, after, op, id, false)
    ensures OrderOk(after, order, last, id)
    ensures Forward(after.sessions, order) <==> Forward(before.sessions, order)
  {
    forall a | 0 <= a < |order|
      ensures order[a] in before.sessions && order[a] in after.sessions
              && after.sessions[order[a]] == before.sessions[order[a]]
    {
      assert order[a] in order;
      assert OfStick(before.sessions, order[a], id);
    }
  }

  lemma ClaimStep(before: Tables, after: Tables, op: Op, id: string, order: seq<nat>, last: Option<Time>)
    requires OrderOk(before, order, last, id) && SessionStep(before, after, op, id, true) && op.change.Claim?
    ensures OrderOk(after, order + [op.grant.session], Some(op.change.claimedAt), id)
    ensures Forward(after.sessions, order + [op.grant.session])
       <==> Forward(before.sessions, order) && NotBefore(last, op.change.claimedAt)
  {
    var n, more := op.grant.session, order + [op.grant.session];
    forall a | 0 <= a < |order|
      ensures order[a] in before.sessions && order[a] != n && more[a] == order[a]
      ensures after.sessions[order[a]] == before.sessions[order[a]] && !before.sessions[order[a]].Open()
    {
      assert order[a] in order;
      assert OfStick(before.sessions, order[a], id);
    }
    assert OrderOk(after, more, Some(op.change.claimedAt), id);
    hide OrderOk, SessionStep;
    ForwardSnoc(before.sessions, after.sessions, order, n);
    if order != [] {
      AllBeforeLast(before.sessions, order);
    }
  }

  /** One more session at the end. */
  lemma ForwardSnoc(before: map<nat, Session>, after: map<nat, Session>, order: seq<nat>, n: nat)
    requires forall a | 0 <= a < |order| ::
               order[a] in before && order[a] in after && after[order[a]] == before[order[a]]
    requires n in after && after[n].Open()
    ensures Forward(after, order + [n])
       <==> Forward(before, order) && forall a | 0 <= a < |order| :: Precedes(before[order[a]], after[n])
  {
    var more := order + [n];
    assert forall a | 0 <= a < |order| :: more[a] == order[a];
    assert more[|order|] == n;
    if Forward(after, more) {
      forall a | 0 <= a < |order|
        ensures NonNegative(before[order[a]]) && Precedes(before[order[a]], after[n])
      {
        assert Precedes(after[more[a]], after[more[|order|]]);
      }
      forall a, b | 0 <= a < b < |order|
        ensures Precedes(before[order[a]], before[order[b]])
      {
        assert Precedes(after[more[a]], after[more[b]]);
      }
    }
  }

  predicate EndsBy(session: Session, other: Session) {
    session.releasedAt.Some? && other.releasedAt.Some? && session.releasedAt.value <= other.releasedAt.value
  }

  /** Among sessions that run forwards the last one ends last. */
  lemma AllBeforeLast(sessions: map<nat, Session>, order: seq<nat>)
    requires order != [] && forall a | 0 <= a < |order| :: order[a] in sessions && !sessions[order[a]].Open()
    ensures Forward(sessions, order) ==>
              forall a | 0 <= a < |order| :: EndsBy(sessions[order[a]], sessions[order[|order| - 1]])
  {
  }

  lemma ReleaseStep(before: Tables, after: Tables, op: Op, id: string, order: seq<nat>, last: Option<Time>)
    requires OneOpenSession(before)
    requires OrderOk(before, order, last, id) && SessionStep(before, after, op, id, true) && op.change.Release?
    ensures OrderOk(after, order, Some(op.change.releasedAt), id)
    ensures Forward(after.sessions, order) <==> Forward(before.sessions, order) && NotBefore(last, op.change.releasedAt)
  {
    var k, z := OpenSession(before, id), |order| - 1;
    assert order[z] in order;
    assert IsOpen(before, order[z], id) by {
      assert OfStick(before.sessions, order[z], id);
    }
    assert k == order[z];
    forall a | 0 <= a < z
      ensures order[a] in before.sessions && order[a] != k && after.sessions[order[a]] == before.sessions[order[a]]
    {
      assert order[a] in order;
      assert OfStick(before.sessions, order[a], id);
    }
    assert after.sessions.Keys == before.sessions.Keys;
    assert forall j: nat :: OfStick(after.sessions, j, id) <==> OfStick(before.sessions, j, id);
    assert OrderOk(after, order, Some(op.change.releasedAt), id);
    hide OrderOk, SessionStep, OneOpenSession, IsOpen;
    ForwardClose(before.sessions, after.sessions, order);
  }

  /** Closing the session opened last. */
  lemma ForwardClose(before: map<nat, Session>, after: map<nat, Session>, order: seq<nat>)
    requires order != [] && forall a | 0 <= a < |order| :: order[a] in before && order[a] in after
    requires forall a | 0 <= a < |order| - 1 :: after[order[a]] == before[order[a]]
    requires var z := order[|order| - 1]; before[z].Open() && after[z].claimedAt == before[z].claimedAt
    ensures Forward(after, order) <==> Forward(before, order) && NonNegative(after[order[|order| - 1]])
  {
    forall a, b | 0 <= a < b < |order|
      ensures Precedes(after[order[a]], after[order[b]]) <==> Precedes(before[order[a]], before[order[b]])
    {
    }
  }

  lemma {:induction false} OrderInv(log: Log, id: string)
    requires ValidRun(log)
    ensures OrderOk(Run(log), SessionOrder(log, id), LastStamp(log, id), id)
  {
    if log != [] {
      OrderInv(log[..|log| - 1], id);
      OrderStep(log, id);
    }
  }

  /** The last operation of a run keeps the sessions running forwards exactly when its stamp, if
      it is a claim or release of the stick, is not before the one recorded last. */
  lemma OrderStep(log: Log, id: string)
    requires ValidRun(log) && log != []
    requires OrderOk(Run(log[..|log| - 1]), SessionOrder(log[..|log| - 1], id), LastStamp(log[..|log| - 1], id), id)
    ensures OrderOk(Run(log), SessionOrder(log, id), LastStamp(log, id), id)
    ensures var front, op := log[..|log| - 1], log[|log| - 1];
            SessionsForward(log, id)
            <==> (SessionsForward(front, id)
                  && (Hands(front, op, id) ==> NotBefore(LastStamp(front, id), Stamp(op.change))))
  {
    var front, op := log[..|log| - 1], log[|log| - 1];
    LastSessionStep(log, id);
    ReachableConsistent(front);
    hide Run, Step, ValidRun, OrderOk, SessionStep, Forward;
    var order, last := SessionOrder(front, id), LastStamp(front, id);
    if !Hands(front, op, id) {
      assert SessionOrder(log, id) == order;
      SameStickStep(Run(front), Run(log), op, id, order, last);
    } else if op.change.Claim? {
      ClaimStep(Run(front), Run(log), op, id, order, last);
    } else {
      assert SessionOrder(log, id) == order;
      ReleaseStep(Run(front), Run(log), op, id, order, last);
    }
  }

  /** Exactly when the sessions of a stick are ordered, disjoint and never negative: each
      accepted claim and release of it must carry a timestamp that is not before the one the
      stick recorded last.  Nothing is asked of clocks or clients. */
  lemma {:induction false} SessionsForwardIff(log: Log, id: string)
    requires ValidRun(log)
    ensures SessionsForward(log, id) <==> StampsInOrder(log, id)
    ensures forall k: nat :: k in SessionOrder(log, id) <==> OfStick(Run(log).sessions, k, id)
  {
    OrderInv(log, id);
    if log != [] {
      OrderInv(log[..|log| - 1], id);
      SessionsForwardIff(log[..|log| - 1], id);
      OrderStep(log, id);
      hide Run, Step, ValidRun, SessionsForward, SessionOrder;
    }
  }
}
