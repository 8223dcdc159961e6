/** Why a worker cannot spin: as long as the clock shows one instant, every round that finds
    work takes a row out of the eligible set, whatever becomes of the attempt. */
module Eligibility {
  import opened Core
  import opened Database
  import opened Protocol
  import opened Consistency

  function EligibleRows(db: Tables, now: Time, claimTTL: Time): set<nat> {
    set n | n in db.outbox && Eligible(db.outbox[n], now, now - claimTTL)
  }

  /** A claim takes its row out and nothing else. */
  lemma ClaimShrinks(db: Tables, n: nat, now: Time, claimTTL: Time, token: Token)
    requires claimTTL > 0 && n in EligibleRows(db, now, claimTTL)
    ensures ClaimRow(db, n, now, now - claimTTL, token).Ok?
    ensures EligibleRows(ClaimRow(db, n, now, now - claimTTL, token).value.0, now, claimTTL)
         == EligibleRows(db, now, claimTTL) - {n}
  {
  }

  /** A mark puts no row back: a failed row waits for a later instant. */
  lemma MarkAddsNone(db: Tables, op: Op, now: Time, claimTTL: Time)
    requires op.OpSucceed? || (op.OpFail? && op.next > now)
    ensures EligibleRows(Step(db, op).db, now, claimTTL) <= EligibleRows(db, now, claimTTL)
    ensures Touched(db, op).Some? ==>
              EligibleRows(Step(db, op).db, now, claimTTL) == EligibleRows(db, now, claimTTL) - {Touched(db, op).value}
  {
    WorkerWrites(db, op);
  }

  /** From position `i` on, every clock reading of a worker gives `now`. */
  predicate AtInstant(log: Log, i: nat, now: Time, claimTTL: Time) {
    forall k: nat | i <= k < |log| ::
      match log[k]
      case OpClaim(_, at, staleBefore, _) => at == now && staleBefore == now - claimTTL
      case OpFail(_, next, _) => next > now
      case _ => true
  }

  /** How many claims since position `i` handed out a delivery. */
  function Taken(log: Log, i: nat): nat
    requires i <= |log|
  {
    if i == |log| then 0 else
    Taken(log[..|log| - 1], i) + |DeliveryOf(ReplyAt(log, |log| - 1))|
  }

  lemma EnqueueAddsAtMost(db: Tables, after: Tables, rows: map<nat, Row>, now: Time, claimTTL: Time)
    requires after.outbox == db.outbox + rows && rows.Keys !! db.outbox.Keys
    ensures |EligibleRows(after, now, claimTTL)| - |EligibleRows(db, now, claimTTL)| <= |after.outbox| - |db.outbox|
  {
    var start, end := EligibleRows(db, now, claimTTL), EligibleRows(after, now, claimTTL);
    assert end <= start + rows.Keys;
    SubsetSize(end, start + rows.Keys);
    assert after.outbox.Keys == db.outbox.Keys + rows.Keys;
    assert |after.outbox| == |after.outbox.Keys| && |db.outbox| == |db.outbox.Keys|;
  }

  lemma {:induction false} SubsetSize<T>(small: set<T>, large: set<T>)
    requires small <= large
    ensures |small| <= |large|
  {
    if small != {} {
      var x :| x in small;
      SubsetSize(small - {x}, large - {x});
    }
  }

  lemma KeysKept(db: Tables, op: Op)
    requires op.OpSucceed? || op.OpFail?
    ensures |Step(db, op).db.outbox| == |db.outbox|
  {
    WorkerWrites(db, op);
    var after := Step(db, op).db;
    assert after.outbox.Keys == db.outbox.Keys;
    assert |after.outbox| == |after.outbox.Keys| && |db.outbox| == |db.outbox.Keys|;
  }

  /** A delivery handed out, plus the change of the eligible set, is paid for by the rows added. */
  ghost predicate Pays(db: Tables, op: Op, now: Time, claimTTL: Time) {
    var after := Step(db, op);
    |DeliveryOf(after.reply)| + |EligibleRows(after.db, now, claimTTL)| - |EligibleRows(db, now, claimTTL)|
    <= |after.db.outbox| - |db.outbox|
  }

  lemma ClaimPays(db: Tables, op: Op, now: Time, claimTTL: Time)
    requires op.OpClaim? && op.now == now && op.staleBefore == now - claimTTL && claimTTL > 0
    ensures Pays(db, op, now, claimTTL)
  {
    if op.row.Some? && op.row.value in EligibleRows(db, now, claimTTL) {
      ClaimShrinks(db, op.row.value, now, claimTTL, op.token);
      hide EligibleRows, Eligible;
      var after := Step(db, op).db;
      assert after.outbox.Keys == db.outbox.Keys;
      assert |after.outbox| == |after.outbox.Keys| && |db.outbox| == |db.outbox.Keys|;
    }
  }

  lemma MarkPays(db: Tables, op: Op, now: Time, claimTTL: Time)
    requires op.OpSucceed? || (op.OpFail? && op.next > now)
    ensures Pays(db, op, now, claimTTL)
  {
    MarkAddsNone(db, op, now, claimTTL);
    KeysKept(db, op);
    SubsetSize(EligibleRows(Step(db, op).db, now, claimTTL), EligibleRows(db, now, claimTTL));
    hide EligibleRows;
  }

  lemma TransitionPays(db: Tables, op: Op, now: Time, claimTTL: Time)
    requires Consistent(db) && op.OpTransition?
    requires Proceeds(db, op.id, op.expected, op.change) && op.change.Release? ==> Assigns(db, op.id, op.grant.rows)
    ensures Pays(db, op, now, claimTTL)
  {
    TransitionStep(db, op);
    var after := Step(db, op).db;
    if Step(db, op).reply.Ok? {
      var rows :=
        if op.change.Release?
        then NewRows(db, db.sticks[op.id], db.sticks[op.id].holder.value, op.change.releasedAt, op.grant.rows)
        else map[];
      assert after.outbox == db.outbox + rows;
      hide Step, EligibleRows, Eligible, Next, Consistent;
      EnqueueAddsAtMost(db, after, rows, now, claimTTL);
    }
  }

  lemma StepPays(log: Log, op: Op, now: Time, claimTTL: Time)
    requires ValidRun(log) && Admissible(log, op) && claimTTL > 0
    requires op.OpClaim? ==> op.now == now && op.staleBefore == now - claimTTL
    requires op.OpFail? ==> op.next > now
    ensures Pays(Run(log), op, now, claimTTL)
  {
    var db := Run(log);
    if op.OpClaim? {
      ClaimPays(db, op, now, claimTTL);
    } else if op.OpSucceed? || op.OpFail? {
      MarkPays(db, op, now, claimTTL);
    } else if op.OpTransition? {
      ReachableConsistent(log);
      TransitionPays(db, op, now, claimTTL);
    } else {
      assert Step(db, op).db.outbox == db.outbox;
    }
  }

  /** While every clock shows one instant, all workers together are given at most as many
      deliveries as rows were eligible at its start or were enqueued since, whatever the
      notifiers and the marks did and whatever the clients do meanwhile. */
  lemma {:induction false} RoundsBounded(log: Log, i: nat, now: Time, claimTTL: Time)
    requires ValidRun(log) && i <= |log| && claimTTL > 0 && AtInstant(log, i, now, claimTTL)
    ensures Taken(log, i) + |EligibleRows(Run(log), now, claimTTL)|
         <= |EligibleRows(Run(log[..i]), now, claimTTL)| + |Run(log).outbox| - |Run(log[..i]).outbox|
  {
    if i == |log| {
      assert log[..i] == log;
    } else {
      var front := log[..|log| - 1];
      assert front[..i] == log[..i];
      RoundsBounded(front, i, now, claimTTL);
      StepPays(front, log[|log| - 1], now, claimTTL);
      hide Step, EligibleRows;
    }
  }
}
