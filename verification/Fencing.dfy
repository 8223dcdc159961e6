/** The life of outbox rows over whole runs: claims are fenced, success is final, rows and
    their snapshots stay for ever. */
module Fencing {
  import opened Core
  import opened Database
  import opened Protocol
  import opened Consistency

  predicate IsMark(op: Op) {
    op.OpSucceed? || op.OpFail?
  }

  /** The last operation of the log takes effect on row `n`. */
  predicate Touches(log: Log, op: Op, n: nat) {
    IsWorkerOp(op) && Touched(Run(log), op) == Some(n)
  }

  predicate Enqueues(log: Log, op: Op, n: nat) {
    op.OpTransition? && op.change.Release? && Proceeds(Run(log), op.id, op.expected, op.change) && n in op.grant.rows
  }

  /** The row an accepted release writes for the subscriber that got id `n`. */
  ghost function EnqueuedRow(db: Tables, op: Op, n: nat): Row
    requires op.OpTransition? && op.change.Release? && n in op.grant.rows
    requires op.id in db.sticks && db.sticks[op.id].holder.Some? && op.grant.rows[n] in db.subscriptions
  {
    var key := op.grant.rows[n];
    NewRow(SnapshotOf(db.sticks[op.id], db.sticks[op.id].holder.value, op.change.releasedAt, key,
                      db.subscriptions[key]),
           op.change.releasedAt)
  }

  /** Touching a row is what being accepted means for a worker operation. */
  lemma TouchedIffAccepted(db: Tables, op: Op)
    requires IsMark(op) || (op.OpClaim? && op.row.Some?)
    ensures Touched(db, op).Some? <==> Step(db, op).reply.Ok?
    ensures Touched(db, op).None? ==> Step(db, op) == Outcome(db, Err(ClaimLost))
    ensures op.OpClaim? && Touched(db, op).Some? ==>
              var n := op.row.value;
              && Touched(db, op) == Some(n)
              && Step(db, op).reply
                 == Ok(GotDelivery(Some(Delivery(n, db.outbox[n].snapshot, db.outbox[n].attempts + 1, op.token))))
    ensures IsMark(op) && Touched(db, op).Some? ==> Owns(db, op.delivery) && Touched(db, op) == Some(op.delivery.id)
  {
  }

  /** What the last operation of a run does to row `n`. */
  lemma LastOutboxStep(log: Log, n: nat)
    requires ValidRun(log) && log != []
    ensures var front, op := log[..|log| - 1], log[|log| - 1];
            && ValidRun(front) && Admissible(front, op) && Consistent(Run(front)) && Consistent(Run(log))
            && (n in Run(front).outbox ==>
                  && n in Run(log).outbox && !Enqueues(front, op, n)
                  && Run(log).outbox[n] == if Touches(front, op, n) then Rewritten(Run(front).outbox[n], op)
                                           else Run(front).outbox[n])
            && (n !in Run(front).outbox ==>
                  !Touches(front, op, n) && (n in Run(log).outbox <==> Enqueues(front, op, n)))
            && (Enqueues(front, op, n) ==>
                  && n in Run(log).outbox
                  && Run(front).sticks[op.id].holder.Some?
                  && SubscribedTo(Run(front), op.grant.rows[n], op.id)
                  && Run(log).outbox[n] == EnqueuedRow(Run(front), op, n))
  {
    var front, op := log[..|log| - 1], log[|log| - 1];
    ReachableConsistent(front);
    ReachableConsistent(log);
    if op.OpTransition? {
      TransitionRows(Run(front), op);
      hide Step, Run, Consistent, ValidRun, Next;
    } else if IsWorkerOp(op) {
      WorkerWrites(Run(front), op);
      hide Step, Run, Consistent, ValidRun, Next, Rewritten;
    } else {
      hide Run, Consistent, ValidRun, Next;
    }
  }

  /** A transition adds the rows of an accepted release, and no others. */
  lemma TransitionRows(db: Tables, op: Op)
    requires Consistent(db) && op.OpTransition?
    requires Proceeds(db, op.id, op.expected, op.change) && op.change.Release? ==> Assigns(db, op.id, op.grant.rows)
    ensures var releases := Proceeds(db, op.id, op.expected, op.change) && op.change.Release?;
            && (releases ==> db.sticks[op.id].holder.Some?)
            && Step(db, op).db.outbox
               == if releases then
                    db.outbox + NewRows(db, db.sticks[op.id], db.sticks[op.id].holder.value, op.change.releasedAt,
                                        op.grant.rows)
                  else db.outbox
  {
    TransitionStep(db, op);
    hide Step, Consistent, NewRows, Assigns;
  }

  /** No outbox row is ever deleted and no snapshot field ever changes. */
  lemma {:induction false} RowsPersist(log: Log, i: nat, n: nat)
    requires ValidRun(log) && i <= |log| && n in Run(log[..i]).outbox
    ensures n in Run(log).outbox
    ensures Run(log).outbox[n].snapshot == Run(log[..i]).outbox[n].snapshot
    ensures Run(log[..i]).outbox[n].status == Succeeded ==> Run(log).outbox[n] == Run(log[..i]).outbox[n]
  {
    if i == |log| {
      assert log[..i] == log;
    } else {
      var front, op := log[..|log| - 1], log[|log| - 1];
      assert front[..i] == log[..i];
      LastOutboxStep(log, n);
      RowsPersist(front, i, n);
      if Touches(front, op, n) {
        RewrittenOk(Run(front), op);
        SucceededUntouchable(Run(front), op);
      }
    }
  }

  /** No worker operation takes effect on a succeeded row. */
  lemma SucceededUntouchable(db: Tables, op: Op)
    requires IsWorkerOp(op) && Touched(db, op).Some?
    ensures Touched(db, op).value in db.outbox && db.outbox[Touched(db, op).value].status != Succeeded
  {
  }

  /** The accepted claims of a row. */
  function Claims(log: Log, n: nat): nat {
    if log == [] then 0 else
    var front, op := log[..|log| - 1], log[|log| - 1];
    Claims(front, n) + if op.OpClaim? && Touches(front, op, n) then 1 else 0
  }

  lemma {:induction false} AttemptsCountClaims(log: Log, n: nat)
    requires ValidRun(log)
    ensures n in Run(log).outbox ==> Run(log).outbox[n].attempts == Claims(log, n)
    ensures n !in Run(log).outbox ==> Claims(log, n) == 0
  {
    if log != [] {
      LastOutboxStep(log, n);
      AttemptsCountClaims(log[..|log| - 1], n);
      hide Run, Step;
    }
  }

  /** Operation `i` took effect on the row, and none after it did. */
  predicate LastTouch(log: Log, i: nat, n: nat) {
    && i < |log| && Touches(log[..i], log[i], n)
    && forall k: nat | i < k < |log| :: !Touches(log[..k], log[k], n)
  }

  predicate Untouched(log: Log, n: nat) {
    forall k: nat | k < |log| :: !Touches(log[..k], log[k], n)
  }

  /** The row's state is what its last worker left, field by field. */
  predicate LeftBy(row: Row, op: Op) {
    match op
    case OpClaim(_, now, _, token) =>
      row.status == InProgress && row.claimToken == Some(token) && row.claimedAt == Some(now)
      && row.lastAttemptAt == Some(now)
    case OpSucceed(_, at) =>
      row.status == Succeeded && row.deliveredAt == Some(at) && row.nextAttemptAt.None? && row.claimToken.None?
    case OpFail(_, next, failure) =>
      row.status == Failed && row.nextAttemptAt == Some(next) && row.lastError == Some(failure) && row.claimToken.None?
    case _ => false
  }

  /** A row shows the last operation that took effect on it; a row that never was claimed is
      pending. */
  lemma {:induction false} RowShowsLastStep(log: Log, n: nat) returns (i: nat)
    requires ValidRun(log) && n in Run(log).outbox
    ensures Run(log).outbox[n].attempts > 0 ==> LastTouch(log, i, n) && LeftBy(Run(log).outbox[n], log[i])
    ensures Run(log).outbox[n].attempts == 0 ==>
              Run(log).outbox[n].status == Pending && Untouched(log, n)
  {
    var last := |log| - 1;
    var front, op := log[..last], log[last];
    hide Run, Step, Consistent, Touches, LeftBy, LastTouch, Untouched;
    LastOutboxStep(log, n);
    if Touches(front, op, n) {
      i := last;
      JustTouched(log, n);
    } else if n in Run(front).outbox {
      i := RowShowsLastStep(front, n);
      StillLast(log, i, n);
    } else {
      i := 0;
      NeverTouchedBefore(log, n);
      JustEnqueued(log, n);
    }
  }

  lemma StillLast(log: Log, i: nat, n: nat)
    requires log != [] && !Touches(log[..|log| - 1], log[|log| - 1], n)
    ensures LastTouch(log[..|log| - 1], i, n) ==> LastTouch(log, i, n) && log[i] == log[..|log| - 1][i]
    ensures Untouched(log[..|log| - 1], n) ==> Untouched(log, n)
  {
    var front := log[..|log| - 1];
    hide Touches;
    forall k: nat | k < |front|
      ensures Touches(log[..k], log[k], n) == Touches(front[..k], front[k], n)
    {
      assert front[..k] == log[..k];
    }
  }

  lemma JustTouched(log: Log, n: nat)
    requires ValidRun(log) && log != [] && Touches(log[..|log| - 1], log[|log| - 1], n)
    ensures LastTouch(log, |log| - 1, n)
    ensures n in Run(log).outbox && LeftBy(Run(log).outbox[n], log[|log| - 1]) && Run(log).outbox[n].attempts > 0
  {
    LastOutboxStep(log, n);
    TouchKeepsPending(Run(log[..|log| - 1]), log[|log| - 1]);
    hide Run, Step;
  }

  lemma JustEnqueued(log: Log, n: nat)
    requires ValidRun(log) && log != [] && n in Run(log).outbox && n !in Run(log[..|log| - 1]).outbox
    ensures Run(log).outbox[n].status == Pending && Run(log).outbox[n].attempts == 0
  {
    LastOutboxStep(log, n);
    hide Run, Step, Consistent;
  }

  lemma TouchKeepsPending(db: Tables, op: Op)
    requires OutboxOk(db) && IsWorkerOp(op) && Touched(db, op).Some?
    ensures var row := Rewritten(db.outbox[Touched(db, op).value], op); LeftBy(row, op) && row.attempts > 0
  {
  }

  /** Before a row exists nothing takes effect on it. */
  lemma NeverTouchedBefore(log: Log, n: nat)
    requires ValidRun(log) && log != [] && n !in Run(log[..|log| - 1]).outbox
    ensures Untouched(log, n)
  {
    var front := log[..|log| - 1];
    forall k: nat | k < |log|
      ensures !Touches(log[..k], log[k], n)
    {
      if Touches(log[..k], log[k], n) {
        assert front[..k] == log[..k];
        PrefixValid(log, |log| - 1);
        RowsPersist(front, k, n);
      }
    }
  }

  predicate Holds(db: Tables, n: nat, token: Token) {
    n in db.outbox && db.outbox[n].claimToken == Some(token)
  }

  ghost predicate Current(db: Tables, token: Token) {
    exists n: nat :: Holds(db, n, token)
  }

  /** Claim tokens are held by at most one row each; one that has been drawn and is held
      by no row is never held again. */
  lemma {:induction false} TokensHeldOnce(log: Log, m: nat, n: nat, token: Token)
    requires ValidRun(log)
    ensures Holds(Run(log), m, token) && Holds(Run(log), n, token) ==> m == n
  {
    if log != [] {
      var front, op := log[..|log| - 1], log[|log| - 1];
      LastOutboxStep(log, m);
      LastOutboxStep(log, n);
      TokensHeldOnce(front, m, n, token);
      ReachableTokens(front);
      hide Run, Step, Consistent;
    }
  }

  lemma {:induction false} LostStaysLost(log: Log, i: nat, token: Token)
    requires ValidRun(log) && i <= |log| && token in Used(log[..i])
    requires !Current(Run(log[..i]), token)
    ensures token in Used(log) && !Current(Run(log), token)
  {
    if i == |log| {
      assert log[..i] == log;
    } else {
      var front, op := log[..|log| - 1], log[|log| - 1];
      assert front[..i] == log[..i];
      LostStaysLost(front, i, token);
      forall n: nat ensures !Holds(Run(log), n, token) {
        LastOutboxStep(log, n);
        assert !Holds(Run(front), n, token);
      }
    }
  }

  /** The mark at the end of a run frees the token, which no other row holds. */
  lemma LastMarkSpendsToken(log: Log)
    requires ValidRun(log) && log != [] && IsMark(log[|log| - 1])
    requires Touched(Run(log[..|log| - 1]), log[|log| - 1]) == Some(log[|log| - 1].delivery.id)
    requires Holds(Run(log[..|log| - 1]), log[|log| - 1].delivery.id, log[|log| - 1].delivery.claimToken)
    ensures !Current(Run(log), log[|log| - 1].delivery.claimToken)
  {
    var front, op := log[..|log| - 1], log[|log| - 1];
    forall n: nat
      ensures !Holds(Run(log), n, op.delivery.claimToken)
    {
      LastOutboxStep(log, n);
      hide Run, Step, ValidRun, Consistent, Admissible;
      TokensHeldOnce(front, n, op.delivery.id, op.delivery.claimToken);
    }
  }

  /** An accepted mark uses up its claim: nobody holds the token afterwards. */
  lemma MarkSpendsToken(log: Log, i: nat)
    requires ValidRun(log) && Accepted(log, i) && IsMark(log[i])
    ensures Holds(Run(log[..i]), log[i].delivery.id, log[i].delivery.claimToken)
    ensures log[i].delivery.claimToken in Used(log[..i + 1])
    ensures !Current(Run(log[..i + 1]), log[i].delivery.claimToken)
  {
    var front, op, whole := log[..i], log[i], log[..i + 1];
    assert whole[..i] == front;
    PrefixValid(log, i);
    PrefixValid(log, i + 1);
    hide Run, Step, ValidRun, Consistent;
    TouchedIffAccepted(Run(front), op);
    assert Holds(Run(front), op.delivery.id, op.delivery.claimToken);
    hide Touched;
    ReachableTokens(front);
    Snoc(front, op);
    assert whole == front + [op];
    LastMarkSpendsToken(whole);
  }

  /** At most one mark takes effect per claim, whatever workers repeat. */
  lemma OneMarkPerClaim(log: Log, i: nat, j: nat)
    requires ValidRun(log) && i < j
    requires Accepted(log, i) && IsMark(log[i])
    requires Accepted(log, j) && IsMark(log[j])
    ensures log[i].delivery.claimToken != log[j].delivery.claimToken
  {
    MarkSpendsToken(log, i);
    MarkSpendsToken(log, j);
    PrefixValid(log, j);
    assert log[..j][..i + 1] == log[..i + 1];
    assert Current(Run(log[..j]), log[j].delivery.claimToken);
    hide Current, Run, Step;
    if log[i].delivery.claimToken == log[j].delivery.claimToken {
      LostStaysLost(log[..j], i + 1, log[i].delivery.claimToken);
    }
  }

  /** A claim hands out a delivery under its own token. */
  lemma ClaimTakesRow(log: Log, i: nat)
    requires ValidRun(log) && Accepted(log, i) && log[i].OpClaim? && log[i].row.Some?
    ensures Holds(Run(log[..i + 1]), log[i].row.value, log[i].token)
    ensures log[i].token in Used(log[..i + 1]) && log[i].token !in Used(log[..i])
    ensures log[i].row.value in Run(log[..i]).outbox
    ensures var n, row := log[i].row.value, Run(log[..i]).outbox[log[i].row.value];
            ReplyAt(log, i) == Ok(GotDelivery(Some(Delivery(n, row.snapshot, row.attempts + 1, log[i].token))))
  {
    var front, op, whole := log[..i], log[i], log[..i + 1];
    assert whole[..i] == front;
    PrefixValid(log, i);
    PrefixValid(log, i + 1);
    TouchedIffAccepted(Run(front), op);
    hide Run, Step, Consistent, Touched;
    LastOutboxStep(whole, op.row.value);
  }

  lemma LastClaimTakesAway(log: Log, n: nat, token: Token)
    requires ValidRun(log) && log != []
    requires var front, op := log[..|log| - 1], log[|log| - 1];
             && op.OpClaim? && op.row == Some(n) && op.token != token && Holds(Run(log), n, op.token)
             && (Current(Run(front), token) ==> Holds(Run(front), n, token))
    ensures !Current(Run(log), token)
  {
    var front := log[..|log| - 1];
    forall m: nat
      ensures !Holds(Run(log), m, token)
    {
      LastOutboxStep(log, m);
      hide Run, Step, ValidRun, Consistent, Admissible, Touched;
      if Holds(Run(front), m, token) {
        TokensHeldOnce(front, m, n, token);
      }
    }
  }

  /** Reclaiming a row takes it away from every earlier claim. */
  lemma ReclaimLosesToken(log: Log, i: nat, k: nat)
    requires ValidRun(log) && i < k
    requires Accepted(log, i) && log[i].OpClaim? && log[i].row.Some?
    requires Accepted(log, k) && log[k].OpClaim? && log[k].row == log[i].row
    ensures log[i].token in Used(log[..k + 1]) && !Current(Run(log[..k + 1]), log[i].token)
  {
    hide Run, Step, Consistent, Admissible, Touched;
    var n, token, front, whole := log[i].row.value, log[i].token, log[..k], log[..k + 1];
    ClaimTakesRow(log, i);
    ClaimTakesRow(log, k);
    PrefixValid(log, k);
    PrefixValid(log, k + 1);
    assert front[..i + 1] == log[..i + 1];
    assert whole[..k] == front;
    UsedGrows(front, i + 1);
    UsedGrows(whole, k);
    if Current(Run(front), token) {
      HolderStays(front, i + 1, n, token);
    }
    hide Used, ValidRun, Current, Holds;
    LastClaimTakesAway(whole, n, token);
  }

  lemma {:induction false} UsedGrows(log: Log, i: nat)
    requires i <= |log|
    ensures Used(log[..i]) <= Used(log)
  {
    if i == |log| {
      assert log[..i] == log;
    } else {
      UsedGrows(log[..|log| - 1], i);
      assert log[..|log| - 1][..i] == log[..i];
    }
  }

  /** While a token is held at all, it is held by the row that was claimed with it. */
  lemma {:induction false} HolderStays(log: Log, i: nat, n: nat, token: Token)
    requires ValidRun(log) && i <= |log| && Holds(Run(log[..i]), n, token)
    requires Current(Run(log), token)
    ensures Holds(Run(log), n, token)
  {
    if i == |log| {
      assert log[..i] == log;
    } else {
      var front, op := log[..|log| - 1], log[|log| - 1];
      assert front[..i] == log[..i];
      PrefixValid(log, i);
      ReachableTokens(log[..i]);
      UsedGrows(front, i);
      var m: nat :| Holds(Run(log), m, token);
      LastOutboxStep(log, m);
      assert Holds(Run(front), m, token);
      HolderStays(front, i, n, token);
      TokensHeldOnce(front, m, n, token);
    }
  }

  /** Fencing: once its row has been claimed again, a worker's mark is refused with
      ErrClaimLost and changes nothing. */
  lemma StaleMarkRefused(log: Log, i: nat, k: nat, j: nat)
    requires ValidRun(log) && i < k < j < |log|
    requires Accepted(log, i) && log[i].OpClaim? && log[i].row.Some?
    requires Accepted(log, k) && log[k].OpClaim? && log[k].row == log[i].row
    requires IsMark(log[j]) && ReplyAt(log, i) == Ok(GotDelivery(Some(log[j].delivery)))
    ensures ReplyAt(log, j) == Err(ClaimLost)
    ensures Run(log[..j + 1]) == Run(log[..j])
  {
    hide Run, Step, Admissible;
    ClaimTakesRow(log, i);
    ReclaimLosesToken(log, i, k);
    PrefixValid(log, j);
    assert log[..j][..k + 1] == log[..k + 1];
    LostStaysLost(log[..j], k + 1, log[j].delivery.claimToken);
    LostMarkRefused(log, j);
  }

  lemma LostMarkRefused(log: Log, j: nat)
    requires j < |log| && IsMark(log[j])
    requires !Current(Run(log[..j]), log[j].delivery.claimToken)
    ensures ReplyAt(log, j) == Err(ClaimLost)
    ensures Run(log[..j + 1]) == Run(log[..j])
  {
    assert !Holds(Run(log[..j]), log[j].delivery.id, log[j].delivery.claimToken);
    TouchedIffAccepted(Run(log[..j]), log[j]);
    assert log[..j + 1][..j] == log[..j];
  }

  /** Every delivery in circulation is a claim's reply. */
  lemma {:induction false} DeliveryHasClaim(log: Log, delivery: Delivery) returns (i: nat)
    requires delivery in Deliveries(log)
    ensures i < |log| && ReplyAt(log, i) == Ok(GotDelivery(Some(delivery)))
    ensures log[i].OpClaim? && log[i].row == Some(delivery.id) && log[i].token == delivery.claimToken
  {
    var front, op := log[..|log| - 1], log[|log| - 1];
    if delivery in Deliveries(front) {
      i := DeliveryHasClaim(front, delivery);
      assert log[..i] == front[..i];
    } else {
      i := |log| - 1;
    }
  }

  /** A delivery always carries the snapshot of its row. */
  lemma DeliverySnapshot(log: Log, delivery: Delivery)
    requires ValidRun(log) && delivery in Deliveries(log)
    ensures delivery.id in Run(log).outbox && Run(log).outbox[delivery.id].snapshot == delivery.snapshot
  {
    var i := DeliveryHasClaim(log, delivery);
    ClaimTakesRow(log, i);
    RowsPersist(log, i, delivery.id);
  }

  /** A row is succeeded only by the worker that claimed it last: some claim gave out a
      delivery of the row, the success mark of that very delivery was accepted later, and
      no other claim of the row fell between the two. */
  ghost predicate DeliveredBy(log: Log, n: nat, i: nat, j: nat) {
    && i < j < |log|
    && Accepted(log, i) && log[i].OpClaim? && log[i].row == Some(n)
    && Accepted(log, j) && log[j].OpSucceed?
    && ReplyAt(log, i) == Ok(GotDelivery(Some(log[j].delivery)))
    && forall k | i < k < j && log[k].OpClaim? && log[k].row == Some(n) :: !Accepted(log, k)
  }

  lemma DeliveredStays(log: Log, n: nat, i: nat, j: nat)
    requires log != [] && DeliveredBy(log[..|log| - 1], n, i, j)
    ensures DeliveredBy(log, n, i, j)
  {
    var front := log[..|log| - 1];
    hide Run, Step;
    assert forall k: nat | k < |front| :: log[..k] == front[..k] && log[k] == front[k];
    assert forall k: nat | k < |front| :: Accepted(log, k) == Accepted(front, k);
  }

  lemma JustDelivered(log: Log, n: nat) returns (i: nat)
    requires ValidRun(log) && log != [] && log[|log| - 1].OpSucceed?
    requires Touches(log[..|log| - 1], log[|log| - 1], n)
    ensures DeliveredBy(log, n, i, |log| - 1)
  {
    var front, op := log[..|log| - 1], log[|log| - 1];
    var j: nat := |log| - 1;
    assert op.delivery in Deliveries(front);
    hide Run, Step, ValidRun, Deliveries, Admissible;
    TouchedIffAccepted(Run(front), op);
    i := DeliveryHasClaim(front, op.delivery);
    assert log[..i] == front[..i];
    forall k: nat | i < k < j && log[k].OpClaim? && log[k].row == Some(n)
      ensures !Accepted(log, k)
    {
      if Accepted(log, k) {
        StaleMarkRefused(log, i, k, j);
      }
    }
  }

  lemma {:induction false} SucceededHasDelivery(log: Log, n: nat) returns (i: nat, j: nat)
    requires ValidRun(log) && n in Run(log).outbox && Run(log).outbox[n].status == Succeeded
    ensures DeliveredBy(log, n, i, j)
  {
    var front, op := log[..|log| - 1], log[|log| - 1];
    LastOutboxStep(log, n);
    if Touches(front, op, n) && op.OpSucceed? {
      j := |log| - 1;
      i := JustDelivered(log, n);
    } else {
      assert n in Run(front).outbox && Run(front).outbox[n].status == Succeeded;
      hide Run, Step, DeliveredBy;
      i, j := SucceededHasDelivery(front, n);
      DeliveredStays(log, n, i, j);
    }
  }
}
