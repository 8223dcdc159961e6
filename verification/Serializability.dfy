/** Every interleaving is serial: whatever the concurrent transactions did, some order of
    whole operations gives the same tables and every client the same reply. */
module Serializability {
  import opened Core
  import opened Database
  import opened Protocol
  import opened Consistency
  import opened Fencing
  import opened Reordering
  import opened Interleaving

  function WritesOf(tx: Tx): Writes
    requires tx.ChangeTx? && tx.stage.Enqueued?
  {
    Writes(tx.id, tx.next, tx.stage.session, tx.stage.closed, tx.stage.rows)
  }

  /** The release can be put into the log after its first `k` operations. */
  ghost predicate InsertableAt(log: Log, k: nat, op: Op, writes: Writes) {
    && k <= |log|
    && ValidRun(log[..k] + [op])
    && Step(Run(log[..k]), op) == Outcome(Overlay(Run(log[..k]), writes.ToDelta()), Ok(GotStick(writes.next)))
    && Fits(Run(log[..k]), writes)
    && forall e | e in log[k..] :: Apart(e, writes)
  }

  /** Position `k` is where the instant belongs among these. */
  predicate SplitsAt(order: seq<nat>, instant: nat, k: nat) {
    && k <= |order|
    && (forall i | 0 <= i < k :: order[i] < instant)
    && (forall i | k <= i < |order| :: instant < order[i])
  }

  predicate PlacedAt(order: seq<nat>, instant: nat, log: Log, k: nat) {
    |order| == |log| && SplitsAt(order, instant, k)
  }

  /** The release can be put into the log at its instant. */
  ghost predicate Insertable(order: seq<nat>, instant: nat, log: Log, op: Op, writes: Writes) {
    exists k: nat :: PlacedAt(order, instant, log, k) && InsertableAt(log, k, op, writes)
  }

  /** What a transaction of transitionStick knows while it holds its stick's lock. */
  ghost predicate ChangeOk(s: Sys, log: Log, tx: Tx)
    requires tx.ChangeTx?
  {
    var db := Run(log);
    && Proceeds(db, tx.id, tx.expected, tx.change)
    && db.sticks[tx.id] == tx.before
    && Next(tx.before, tx.change) == Ok(tx.next)
    && match tx.stage
       case Opened(k) => tx.change.Claim? && 0 < k < s.nextSession && k !in db.sessions
       case Closed(k, closed) =>
         && tx.change.Release? && HasOpenSession(db, tx.id) && k == OpenSession(db, tx.id)
         && closed == db.sessions[k].(releasedAt := Some(tx.change.releasedAt))
       case Enqueued(_, _, grant, rows, instant) =>
         && tx.change.Release? && grant.Keys == rows.Keys && instant < s.steps
         && (forall n | n in rows :: n < s.nextOutbox && n !in db.outbox)
         && Insertable(s.order, instant, log, OpOf(tx), WritesOf(tx))
       case _ => true
  }

  ghost predicate TxOk(s: Sys, log: Log, tx: Tx) {
    var db := Run(log);
    match tx
    case ChangeTx(_, _, _, _, _, _) => ChangeOk(s, log, tx)
    case FollowTx(id, _, expected, token, _) =>
      ReadStick(db, id, expected).Ok? && token in s.drawn && token !in Used(log)
    case UnfollowTx(id, subject, expected, written, hit) =>
      ReadStick(db, id, expected).Ok? && (written && !hit ==> Key(id, subject) !in db.subscriptions)
    case MarkTx(delivery, at, row, deleted, hit) =>
      && delivery in Deliveries(log) && Owns(db, delivery)
      && row == SucceededRow(db.outbox[delivery.id], at)
      && (hit ==> deleted)
      && (deleted ==> (hit <==> HasGeneration(db, delivery.snapshot.Recipient(), delivery.snapshot.generation)))
  }

  function TokenIn(tx: Tx): set<Token> {
    if tx.FollowTx? then {tx.token} else {}
  }

  function SessionIn(tx: Tx): set<nat> {
    if tx.ChangeTx? && tx.stage.Opened? then {tx.stage.session} else {}
  }

  function InstantIn(tx: Tx): set<nat> {
    if tx.ChangeTx? && tx.stage.Enqueued? then {tx.stage.instant} else {}
  }

  function RowsIn(tx: Tx): set<nat> {
    if tx.ChangeTx? && tx.stage.Enqueued? then tx.stage.rows.Keys else {}
  }

  /** Two transactions share no lock, no token and no id. */
  predicate Separate(t: Tx, u: Tx) {
    && (StickLock(t).Some? ==> StickLock(t) != StickLock(u))
    && (KeyLock(t).Some? ==> KeyLock(t) != KeyLock(u))
    && (RowLock(t).Some? ==> RowLock(t) != RowLock(u))
    && TokenIn(t) !! TokenIn(u) && SessionIn(t) !! SessionIn(u) && RowsIn(t) !! RowsIn(u)
    && InstantIn(t) !! InstantIn(u)
  }

  ghost predicate Ahead(s: Sys) {
    && 0 < s.nextSession
    && (forall k | k in s.committed.sessions :: k < s.nextSession)
    && (forall n | n in s.committed.outbox :: n < s.nextOutbox)
  }

  /** Operation by operation, the log is what the clients were told. */
  ghost predicate Accounts(log: Log, order: seq<nat>, done: map<nat, Finished>) {
    && |order| == |log|
    && (forall at | at in done :: at in order)
    && (forall i: nat | i < |log| ::
          order[i] in done && done[order[i]].op == log[i] && done[order[i]].reply == Replies(log)[i])
  }

  predicate Increasing(order: seq<nat>) {
    forall i, j | 0 <= i < j < |order| :: order[i] < order[j]
  }

  /** Instants are in order and lie between the first statement and the commit. */
  ghost predicate Dated(s: Sys) {
    && Increasing(s.order)
    && (forall i | 0 <= i < |s.order| :: s.order[i] < s.steps)
    && (forall at | at in s.done :: s.done[at].began <= at <= s.done[at].ended < s.steps)
    && (forall a | a in s.txs ::
          a in s.began && s.began[a] < s.steps && forall at | at in InstantIn(s.txs[a]) :: s.began[a] <= at)
  }

  ghost predicate Apiece(s: Sys) {
    forall a, b | a in s.txs && b in s.txs && a != b :: Separate(s.txs[a], s.txs[b])
  }

  /** The log is a serial explanation of the system state, and every transaction in flight
      can still be added to it. */
  ghost predicate Explains(log: Log, s: Sys) {
    && ValidRun(log) && Run(log) == s.committed && Accounts(log, s.order, s.done)
    && Used(log) <= s.drawn && Deliveries(log) == s.deliveries
    && Ahead(s) && Dated(s) && Apiece(s)
    && AllOk(s, log)
  }

  // ---- transactions in flight are not disturbed by what others commit ----

  predicate OffStick(op: Op, id: string) {
    match op
    case OpTransition(other, _, _, _) => other != id
    case OpSubscribe(other, _, _, _) => other != id
    case OpUnsubscribe(other, _, _) => other != id
    case _ => true
  }

  function SessionOf(op: Op): set<nat> {
    if op.OpTransition? && op.change.Claim? then {op.grant.session} else {}
  }

  ghost predicate Undisturbed(log: Log, op: Op, tx: Tx) {
    && TokenOf(op) !! TokenIn(tx)
    && match tx
       case MarkTx(delivery, _, _, deleted, _) =>
         var key, generation := delivery.snapshot.Recipient(), delivery.snapshot.generation;
         && (IsWorkerOp(op) ==> Touched(Run(log), op) != Some(delivery.id))
         && (deleted ==>
               (HasGeneration(Step(Run(log), op).db, key, generation) <==> HasGeneration(Run(log), key, generation)))
       case ChangeTx(id, _, _, _, _, stage) =>
         && OffStick(op, id) && SessionOf(op) !! SessionIn(tx)
         && (stage.Enqueued? ==> Apart(op, WritesOf(tx)))
       case FollowTx(id, _, _, _, _) => OffStick(op, id)
       case UnfollowTx(id, _, _, _, _) => OffStick(op, id)
  }

  /** An operation on other sticks leaves a stick and its open session alone. */
  lemma OffStickFrame(log: Log, op: Op, id: string)
    requires ValidRun(log + [op]) && OffStick(op, id) && id in Run(log).sticks
    ensures var db, after := Run(log), Run(log + [op]);
            && id in after.sticks && after.sticks[id] == db.sticks[id]
            && (forall k: nat :: IsOpen(after, k, id) <==> IsOpen(db, k, id))
            && (forall k: nat | IsOpen(db, k, id) :: after.sessions[k] == db.sessions[k])
            && after.sessions.Keys <= db.sessions.Keys + SessionOf(op)
  {
    Snoc(log, op);
    ReachableConsistent(log);
    hide ValidRun, Step, Run, Next, Consistent;
    if op.OpTransition? {
      TransitionFrame(Run(log), op, id);
    } else {
      OtherWrites(Run(log), op);
    }
  }

  lemma TransitionFrame(db: Tables, op: Op, id: string)
    requires Consistent(db) && op.OpTransition? && op.id != id && id in db.sticks
    requires Proceeds(db, op.id, op.expected, op.change) && op.change.Claim? ==> op.grant.session !in db.sessions
    ensures var after := Step(db, op).db;
            && id in after.sticks && after.sticks[id] == db.sticks[id]
            && (forall k: nat :: IsOpen(after, k, id) <==> IsOpen(db, k, id))
            && (forall k: nat | IsOpen(db, k, id) :: after.sessions[k] == db.sessions[k])
            && after.sessions.Keys <= db.sessions.Keys + SessionOf(op)
  {
    TransitionStep(db, op);
    hide Step, Next;
    if Proceeds(db, op.id, op.expected, op.change) && op.change.Release? {
      assert !IsOpen(db, OpenSession(db, op.id), id);
    }
  }

  lemma SameOpenSession(db: Tables, after: Tables, id: string)
    requires OneOpenSession(db) && OneOpenSession(after) && HasOpenSession(db, id)
    requires forall k: nat :: IsOpen(after, k, id) <==> IsOpen(db, k, id)
    ensures HasOpenSession(after, id) && OpenSession(after, id) == OpenSession(db, id)
  {
    assert IsOpen(after, OpenSession(db, id), id);
    assert IsOpen(db, OpenSession(after, id), id);
  }

  lemma InsertableLater(order: seq<nat>, now: nat, instant: nat, log: Log, e: Op, op: Op, writes: Writes)
    requires Insertable(order, instant, log, op, writes) && Apart(e, writes) && instant < now
    ensures Insertable(order + [now], instant, log + [e], op, writes)
  {
    hide Run, Step, Apart, Fits, Overlay, ValidRun;
    var k: nat :| PlacedAt(order, instant, log, k) && InsertableAt(log, k, op, writes);
    assert (log + [e])[..k] == log[..k] && (log + [e])[k..] == log[k..] + [e];
    assert InsertableAt(log + [e], k, op, writes);
    assert PlacedAt(order + [now], instant, log + [e], k);
  }

  /** Rows come only from releases. */
  lemma RowsFrom(log: Log, op: Op, n: nat)
    requires ValidRun(log + [op]) && n in Run(log + [op]).outbox && n !in Run(log).outbox
    ensures op.OpTransition? && n in op.grant.rows
  {
    assert (log + [op])[..|log|] == log;
    LastOutboxStep(log + [op], n);
  }

  lemma RowStaysNew(log: Log, op: Op, writes: Writes, n: nat)
    requires ValidRun(log + [op]) && Apart(op, writes) && n in writes.rows && n !in Run(log).outbox
    ensures n !in Run(log + [op]).outbox
  {
    hide Run, Step, ValidRun;
    if n in Run(log + [op]).outbox {
      RowsFrom(log, op, n);
    }
  }

  lemma ChangeUndisturbed(s: Sys, t: Sys, log: Log, op: Op, tx: Tx)
    requires tx.ChangeTx? && ChangeOk(s, log, tx) && ValidRun(log + [op]) && Undisturbed(log, op, tx)
    requires s.nextSession <= t.nextSession && s.nextOutbox <= t.nextOutbox
    requires t.order == s.order + [s.steps] && s.steps < t.steps
    ensures ChangeOk(t, log + [op], tx)
  {
    Snoc(log, op);
    ReachableConsistent(log);
    ReachableConsistent(log + [op]);
    hide Run, Step, Next, Apart, ValidRun, Insertable;
    OffStickFrame(log, op, tx.id);
    match tx.stage
    case Closed(_, _) => SameOpenSession(Run(log), Run(log + [op]), tx.id);
    case Enqueued(_, _, _, rows, instant) =>
      InsertableLater(s.order, s.steps, instant, log, op, OpOf(tx), WritesOf(tx));
      forall n | n in rows
        ensures n !in Run(log + [op]).outbox
      {
        RowStaysNew(log, op, WritesOf(tx), n);
      }
    case _ =>
  }

  /** A subscription comes only from its own stick's transactions. */
  lemma SubscriptionsFrom(log: Log, op: Op, key: Key)
    requires ValidRun(log + [op]) && key !in Run(log).subscriptions && OffStick(op, key.stickId)
    ensures key !in Run(log + [op]).subscriptions
  {
    Snoc(log, op);
    ReachableConsistent(log);
    if op.OpTransition? {
      TransitionStep(Run(log), op);
    } else if IsWorkerOp(op) {
      WorkerWrites(Run(log), op);
    }
  }

  lemma MarkUndisturbed(log: Log, op: Op, delivery: Delivery)
    requires ValidRun(log + [op]) && Owns(Run(log), delivery)
    requires IsWorkerOp(op) ==> Touched(Run(log), op) != Some(delivery.id)
    ensures delivery.id in Run(log + [op]).outbox && Run(log + [op]).outbox[delivery.id] == Run(log).outbox[delivery.id]
  {
    assert (log + [op])[..|log|] == log;
    LastOutboxStep(log + [op], delivery.id);
  }

  lemma TxUndisturbed(s: Sys, t: Sys, log: Log, op: Op, tx: Tx)
    requires TxOk(s, log, tx) && ValidRun(log + [op]) && Undisturbed(log, op, tx)
    requires s.nextSession <= t.nextSession && s.nextOutbox <= t.nextOutbox && s.drawn <= t.drawn
    requires t.order == s.order + [s.steps] && s.steps < t.steps
    ensures TxOk(t, log + [op], tx)
  {
    Snoc(log, op);
    match tx
    case ChangeTx(_, _, _, _, _, _) => ChangeUndisturbed(s, t, log, op, tx);
    case FollowTx(id, _, _, _, _) => OffStickFrame(log, op, id);
    case UnfollowTx(id, subject, _, _, _) =>
      OffStickFrame(log, op, id);
      if Key(id, subject) !in Run(log).subscriptions {
        SubscriptionsFrom(log, op, Key(id, subject));
      }
    case MarkTx(delivery, _, _, _, _) => MarkUndisturbed(log, op, delivery);
  }

  // ---- the three ways a step can move the system ----

  lemma TxLater(s: Sys, t: Sys, log: Log, tx: Tx)
    requires TxOk(s, log, tx)
    requires s.nextSession <= t.nextSession && s.nextOutbox <= t.nextOutbox && s.drawn <= t.drawn
    requires t.order == s.order && s.steps <= t.steps
    ensures TxOk(t, log, tx)
  {
    hide Run, Step, Next, Insertable;
  }

  /** An action of one agent that moves its own transaction and nothing else that others see. */
  ghost predicate LocalMove(s: Sys, t: Sys, a: Agent) {
    && t.committed == s.committed && t.deliveries == s.deliveries && t.order == s.order && t.done == s.done
    && t.steps == s.steps + 1
    && s.nextSession <= t.nextSession && s.nextOutbox <= t.nextOutbox && s.drawn <= t.drawn
    && a in t.txs && t.txs == s.txs[a := t.txs[a]]
    && if a in s.txs
       then
         && t.began == s.began
         && forall at | at in InstantIn(t.txs[a]) ::
              at in InstantIn(s.txs[a]) || at == s.steps || (a in s.began && at == s.began[a])
       else t.began == s.began[a := s.steps] && InstantIn(t.txs[a]) == {}
  }

  lemma LocalDates(s: Sys, t: Sys, a: Agent)
    requires Dated(s) && LocalMove(s, t, a)
    ensures Dated(t)
  {
  }

  ghost predicate AllOk(s: Sys, log: Log) {
    forall a | a in s.txs :: TxOk(s, log, s.txs[a])
  }

  lemma AllOkLater(s: Sys, t: Sys, log: Log, a: Agent)
    requires AllOk(s, log) && LocalMove(s, t, a) && TxOk(t, log, t.txs[a])
    ensures AllOk(t, log)
  {
    hide TxOk, InstantIn;
    forall b | b in t.txs
      ensures TxOk(t, log, t.txs[b])
    {
      if b != a {
        TxLater(s, t, log, s.txs[b]);
      }
    }
  }

  ghost predicate ApartFrom(s: Sys, a: Agent, tx: Tx) {
    forall b | b in s.txs && b != a :: Separate(tx, s.txs[b]) && Separate(s.txs[b], tx)
  }

  /** A statement of one transaction: nothing is committed. */
  lemma LocalStep(s: Sys, t: Sys, log: Log, a: Agent)
    requires Explains(log, s) && LocalMove(s, t, a)
    requires TxOk(t, log, t.txs[a]) && ApartFrom(s, a, t.txs[a])
    ensures Explains(log, t)
  {
    LocalDates(s, t, a);
    AllOkLater(s, t, log, a);
    hide Run, Separate, TxOk, ValidRun, Dated, Accounts, InstantIn, Used, Deliveries;
  }

  /** The operation took effect just now. */
  ghost predicate Noted(s: Sys, t: Sys, op: Op, reply: Result<Reply>) {
    && t.steps == s.steps + 1 && t.order == s.order + [s.steps] && t.began == s.began
    && s.steps in t.done && t.done == s.done[s.steps := t.done[s.steps]]
    && var f := t.done[s.steps]; f.op == op && f.reply == reply && f.began <= s.steps == f.ended
  }

  lemma NotedDates(s: Sys, t: Sys, op: Op, reply: Result<Reply>)
    requires Dated(s) && Noted(s, t, op, reply) && forall a | a in t.txs :: a in s.txs && t.txs[a] == s.txs[a]
    ensures Dated(t)
  {
  }

  lemma NotedAccounts(s: Sys, t: Sys, log: Log, op: Op)
    requires Dated(s) && Accounts(log, s.order, s.done) && Noted(s, t, op, Step(Run(log), op).reply)
    ensures Accounts(log + [op], t.order, t.done)
  {
    RepliesSnoc(log, op);
    hide Run, Step, Replies;
    forall at | at in t.done
      ensures at in t.order
    {
      assert t.order[|s.order|] == s.steps;
      assert at in s.done ==> at in s.order;
    }
  }

  /** A committed operation: it goes to the end of the log. */
  lemma AppendedStep(s: Sys, t: Sys, log: Log, op: Op)
    requires Explains(log, s) && Admissible(log, op)
    requires t.committed == Step(s.committed, op).db
    requires Noted(s, t, op, Step(s.committed, op).reply)
    requires t.deliveries == s.deliveries + DeliveryOf(Step(s.committed, op).reply)
    requires s.drawn + TokenOf(op) <= t.drawn && s.nextSession <= t.nextSession && s.nextOutbox <= t.nextOutbox
    requires Ahead(t)
    requires forall a | a in t.txs :: a in s.txs && t.txs[a] == s.txs[a] && Undisturbed(log, op, t.txs[a])
    ensures Explains(log + [op], t)
  {
    Snoc(log, op);
    NotedDates(s, t, op, Step(s.committed, op).reply);
    NotedAccounts(s, t, log, op);
    ApieceStill(s, t);
    AllOkAfter(s, t, log, op);
    hide Run, Step, Apiece, AllOk, ValidRun, Undisturbed, Admissible, Ahead, Dated, Accounts, Used, Deliveries, Noted;
  }

  lemma ApieceStill(s: Sys, t: Sys)
    requires Apiece(s) && forall a | a in t.txs :: a in s.txs && t.txs[a] == s.txs[a]
    ensures Apiece(t)
  {
    hide Separate;
  }

  lemma AllOkAfter(s: Sys, t: Sys, log: Log, op: Op)
    requires AllOk(s, log) && ValidRun(log + [op])
    requires s.nextSession <= t.nextSession && s.nextOutbox <= t.nextOutbox && s.drawn <= t.drawn
    requires t.order == s.order + [s.steps] && s.steps < t.steps
    requires forall a | a in t.txs :: a in s.txs && t.txs[a] == s.txs[a] && Undisturbed(log, op, t.txs[a])
    ensures AllOk(t, log + [op])
  {
    hide Run, Step, TxOk, ValidRun, Undisturbed;
    forall a | a in t.txs
      ensures TxOk(t, log + [op], t.txs[a])
    {
      TxUndisturbed(s, t, log, op, s.txs[a]);
    }
  }

  /** A rolled back transaction leaves nothing but gaps in the sequences. */
  lemma AbortStep(s: Sys, log: Log, a: Agent)
    requires Explains(log, s) && a in s.txs
    ensures Explains(log, s.(txs := s.txs - {a}, steps := s.steps + 1))
  {
    hide Run, Step, Separate, TxOk, ValidRun, Accounts;
    var t := s.(txs := s.txs - {a}, steps := s.steps + 1);
    forall b | b in t.txs
      ensures TxOk(t, log, t.txs[b])
    {
      TxLater(s, t, log, s.txs[b]);
    }
  }

  // ---- operations of one statement, and refusals ----

  predicate OneStatement(db: Tables, op: Op) {
    op.OpCreate? || IsWorkerOp(op) || Step(db, op).reply.Err?
  }

  lemma OneStatementKeepsIds(s: Sys, op: Op)
    requires Ahead(s) && OneStatement(s.committed, op)
    ensures Ahead(Complete(s, op))
  {
    if Step(s.committed, op).reply.Err? {
      FailureRollsBack(s.committed, op);
    } else {
      OtherWrites(s.committed, op);
      if IsWorkerOp(op) {
        WorkerWrites(s.committed, op);
      }
    }
  }

  lemma CompleteStep(s: Sys, log: Log, op: Op)
    requires Explains(log, s) && Admissible(log, op) && OneStatement(s.committed, op)
    requires forall a | a in s.txs :: Undisturbed(log, op, s.txs[a])
    ensures Explains(log + [op], Complete(s, op))
  {
    OneStatementKeepsIds(s, op);
    hide Step, Undisturbed, Admissible, Ahead;
    AppendedStep(s, Complete(s, op), log, op);
  }

  lemma SubscriptionsUntouched(db: Tables, op: Op)
    requires op.OpCreate? || op.OpClaim? || op.OpFail? || Step(db, op).reply.Err?
    ensures Step(db, op).db.subscriptions == db.subscriptions
  {
    if Step(db, op).reply.Err? {
      FailureRollsBack(db, op);
    } else if IsWorkerOp(op) {
      WorkerWrites(db, op);
    }
  }

  /** Inserting a stick disturbs nobody. */
  lemma CreateUndisturbing(s: Sys, log: Log, op: Op, tx: Tx)
    requires op.OpCreate?
    ensures Undisturbed(log, op, tx)
  {
    SubscriptionsUntouched(Run(log), op);
  }

  /** Nor does a refusal on a stick whose lock was free. */
  lemma RefusalUndisturbing(s: Sys, log: Log, request: Request, tx: Tx)
    requires TxOk(s, log, tx) && Run(log) == s.committed
    requires request.id in s.committed.sticks ==> StickLock(tx) != Some(request.id)
    requires TokenOf(RequestOp(request)) !! s.drawn
    requires Step(Run(log), RequestOp(request)).reply.Err?
    ensures Undisturbed(log, RequestOp(request), tx)
  {
    SubscriptionsUntouched(Run(log), RequestOp(request));
    hide Step, Run, Next, Insertable;
  }

  /** Nor does a worker's statement on a row whose lock was free. */
  lemma RowOpUndisturbing(s: Sys, log: Log, op: Op, tx: Tx)
    requires Explains(log, s) && TxOk(s, log, tx)
    requires IsWorkerOp(op) && (op.OpSucceed? ==> Step(Run(log), op).reply.Err?)
    requires TokenOf(op) !! s.drawn
    requires Touched(Run(log), op).Some? ==> RowLock(tx) != Touched(Run(log), op)
    requires op.OpClaim? && op.row.Some? ==> op.row.value in Run(log).outbox
    requires !op.OpClaim? ==> op.delivery.id in Run(log).outbox
    ensures Undisturbed(log, op, tx)
  {
    hide Step, Run, Next, Insertable, Explains, Touched;
    SubscriptionsUntouched(Run(log), op);
  }

  lemma CreateStep(s: Sys, log: Log, act: Action) returns (after: Log)
    requires Explains(log, s) && act.Create? && Do(s, act).Some?
    ensures Explains(after, Do(s, act).value) && after == log + [OpCreate(act.stick)]
  {
    var op := OpCreate(act.stick);
    forall a | a in s.txs
      ensures Undisturbed(log, op, s.txs[a])
    {
      CreateUndisturbing(s, log, op, s.txs[a]);
    }
    hide Undisturbed, Explains, Step;
    CompleteStep(s, log, op);
    after := log + [op];
  }

  lemma RefusalStep(s: Sys, log: Log, request: Request)
    requires Explains(log, s)
    requires request.id in s.committed.sticks ==> StickFree(s, request.id)
    requires request.Follow? ==> request.token !in s.drawn
    requires request.Change? ==> !Proceeds(s.committed, request.id, request.expected, request.change)
    requires !request.Change? ==> ReadStick(s.committed, request.id, request.expected).Err?
    ensures Explains(log + [RequestOp(request)], Complete(s, RequestOp(request)))
  {
    var op := RequestOp(request);
    assert Step(s.committed, op).reply.Err?;
    assert Admissible(log, op);
    hide Step, Run, Next;
    forall a | a in s.txs
      ensures Undisturbed(log, op, s.txs[a])
    {
      RefusalUndisturbing(s, log, request, s.txs[a]);
    }
    hide Undisturbed, Explains;
    CompleteStep(s, log, op);
  }

  /** What a transaction in flight has taken lies below the counters. */
  predicate Drawn(s: Sys, tx: Tx) {
    && TokenIn(tx) <= s.drawn
    && (forall k | k in SessionIn(tx) :: k < s.nextSession)
    && (forall n | n in RowsIn(tx) :: n < s.nextOutbox)
    && (forall at | at in InstantIn(tx) :: at < s.steps)
  }

  lemma AllDrawn(s: Sys, log: Log, b: Agent)
    requires Explains(log, s) && b in s.txs
    ensures Drawn(s, s.txs[b])
  {
    hide Run, Next, Insertable, Accounts, Dated, Apiece, Ahead;
    assert TxOk(s, log, s.txs[b]);
  }

  /** A transaction that has locked a free stick, and taken nothing yet. */
  lemma FreshPair(s: Sys, tx: Tx, other: Tx)
    requires Drawn(s, other) && StickLock(tx).Some? && StickLock(other) != StickLock(tx)
    requires KeyLock(tx).None? && TokenIn(tx) !! s.drawn && SessionIn(tx) == {} && RowsIn(tx) == {}
             && InstantIn(tx) == {}
    ensures Separate(tx, other) && Separate(other, tx)
  {
  }

  lemma NewcomerSeparate(s: Sys, log: Log, a: Agent, tx: Tx)
    requires Explains(log, s) && StickLock(tx).Some? && StickFree(s, StickLock(tx).value)
    requires KeyLock(tx).None? && TokenIn(tx) !! s.drawn && SessionIn(tx) == {} && RowsIn(tx) == {}
             && InstantIn(tx) == {}
    ensures ApartFrom(s, a, tx)
  {
    hide Separate, Explains, StickLock, KeyLock, TokenIn, SessionIn, RowsIn, InstantIn;
    forall b | b in s.txs && b != a
      ensures Separate(tx, s.txs[b]) && Separate(s.txs[b], tx)
    {
      AllDrawn(s, log, b);
      FreshPair(s, tx, s.txs[b]);
    }
  }

  /** A first statement that takes a stick's lock. */
  lemma StartMoves(s: Sys, act: Action)
    requires act.Start? && Do(s, act).Some? && act.agent in Do(s, act).value.txs
    ensures LocalMove(s, Do(s, act).value, act.agent) && act.agent !in s.txs
    ensures var tx := Do(s, act).value.txs[act.agent];
            && StickLock(tx) == Some(act.request.id) && StickFree(s, act.request.id)
            && KeyLock(tx).None? && TokenIn(tx) !! s.drawn && TokenIn(tx) <= Do(s, act).value.drawn
            && SessionIn(tx) == {} && RowsIn(tx) == {} && InstantIn(tx) == {}
  {
    hide Next, Step, StickFree;
  }

  lemma StartOk(s: Sys, log: Log, act: Action)
    requires Run(log) == s.committed && Used(log) <= s.drawn
    requires act.Start? && Do(s, act).Some? && act.agent in Do(s, act).value.txs
    ensures TxOk(Do(s, act).value, log, Do(s, act).value.txs[act.agent])
  {
    hide Run, Step, Insertable, StickFree;
  }

  lemma Begins(s: Sys, log: Log, act: Action)
    requires Explains(log, s) && act.Start? && Do(s, act).Some? && act.agent in Do(s, act).value.txs
    ensures Explains(log, Do(s, act).value)
  {
    var a, t := act.agent, Do(s, act).value;
    StartMoves(s, act);
    ExplainsRun(log, s);
    ExplainsParts(log, s);
    StartOk(s, log, act);
    hide Do, Explains, TxOk, Separate, StickFree, LocalMove;
    NewcomerSeparate(s, log, a, t.txs[a]);
    LocalStep(s, t, log, a);
  }

  /** A first statement that ends its transaction at once. */
  lemma StartRefused(s: Sys, act: Action)
    requires act.Start? && Do(s, act).Some? && act.agent !in Do(s, act).value.txs
    ensures Do(s, act).value == Complete(s, RequestOp(act.request))
    ensures act.request.id in s.committed.sticks ==> StickFree(s, act.request.id)
    ensures act.request.Follow? ==> act.request.token !in s.drawn
    ensures act.request.Change? ==>
              !Proceeds(s.committed, act.request.id, act.request.expected, act.request.change)
    ensures !act.request.Change? ==> ReadStick(s.committed, act.request.id, act.request.expected).Err?
  {
    hide Next, Step, StickFree, Complete;
  }

  lemma StartStep(s: Sys, log: Log, act: Action) returns (after: Log)
    requires Explains(log, s) && act.Start? && Do(s, act).Some?
    ensures Explains(after, Do(s, act).value)
  {
    if act.agent in Do(s, act).value.txs {
      after := log;
      hide Do, Explains;
      Begins(s, log, act);
    } else {
      StartRefused(s, act);
      hide Do, Explains, Step, Complete, StickFree, Proceeds, ReadStick;
      RefusalStep(s, log, act.request);
      after := log + [RequestOp(act.request)];
    }
  }

  lemma ViewAtStart(s: Sys, tx: Tx)
    requires tx.ChangeTx? && !tx.stage.Enqueued?
    ensures View(s, tx).subscriptions == s.committed.subscriptions
    ensures View(s, tx).outbox == s.committed.outbox
    ensures tx.stage.Read? || tx.stage.Saved? ==> View(s, tx).sessions == s.committed.sessions
  {
  }

  lemma UpdateIsUnion<K, V>(m: map<K, V>, k: K, v: V)
    ensures m[k := v] == m + map[k := v]
  {
  }

  lemma AssignedRows(db: Tables, before: Stick, holder: Holder, at: Time, id: string, rows: map<nat, Key>)
    requires Assigns(db, id, rows)
    ensures NewRows(db, before, holder, at, rows).Keys == rows.Keys && rows.Keys !! db.outbox.Keys
  {
  }

  lemma NothingPut<K, V>(m: map<K, V>)
    ensures (m - {}) + map[] == m
  {
  }

  lemma UnionNothing<K, V>(m: map<K, V>)
    ensures m + map[] == m
  {
  }

  /** A release's operation, evaluated where it enqueues, writes what it has written. */
  lemma EnqueueIsRelease(db: Tables, tx: Tx)
    requires Consistent(db) && tx.ChangeTx? && tx.stage.Enqueued? && tx.change.Release?
    requires Proceeds(db, tx.id, tx.expected, tx.change)
    requires db.sticks[tx.id] == tx.before && Next(tx.before, tx.change) == Ok(tx.next)
    requires HasOpenSession(db, tx.id) && tx.stage.session == OpenSession(db, tx.id)
    requires tx.stage.closed == db.sessions[tx.stage.session].(releasedAt := Some(tx.change.releasedAt))
    requires tx.before.holder.Some? && Assigns(db, tx.id, tx.stage.grant)
    requires tx.stage.rows == NewRows(db, tx.before, tx.before.holder.value, tx.change.releasedAt, tx.stage.grant)
    ensures Step(db, OpOf(tx)) == Outcome(Overlay(db, WritesOf(tx).ToDelta()), Ok(GotStick(tx.next)))
    ensures Fits(db, WritesOf(tx)) && tx.stage.rows.Keys == tx.stage.grant.Keys
  {
    TransitionStep(db, OpOf(tx));
    AssignedRows(db, tx.before, tx.before.holder.value, tx.change.releasedAt, tx.id, tx.stage.grant);
    hide Step, Next, Consistent, Assigns, NewRows;
    UpdateIsUnion(db.sticks, tx.id, tx.next);
    UpdateIsUnion(db.sessions, tx.stage.session, tx.stage.closed);
    NothingPut(db.subscriptions);
  }

  lemma SameAssignment(db: Tables, view: Tables, id: string, rows: map<nat, Key>)
    requires view.subscriptions == db.subscriptions && view.outbox == db.outbox && Assigns(view, id, rows)
    ensures Assigns(db, id, rows)
  {
    assert forall key :: SubscribedTo(view, key, id) <==> SubscribedTo(db, key, id);
  }

  lemma ReleaseAdmissible(log: Log, op: Op)
    requires op.OpTransition? && op.change.Release? && Assigns(Run(log), op.id, op.grant.rows)
    ensures Admissible(log, op)
  {
  }

  lemma InsertableHere(order: seq<nat>, instant: nat, log: Log, op: Op, writes: Writes)
    requires ValidRun(log) && Admissible(log, op) && Fits(Run(log), writes)
    requires |order| == |log| && forall i | 0 <= i < |order| :: order[i] < instant
    requires Step(Run(log), op) == Outcome(Overlay(Run(log), writes.ToDelta()), Ok(GotStick(writes.next)))
    ensures Insertable(order, instant, log, op, writes)
  {
    Snoc(log, op);
    hide Step, Run, Fits, Admissible, Apart;
    assert log[..|log|] == log && log[|log|..] == [];
    assert InsertableAt(log, |log|, op, writes);
    assert PlacedAt(order, instant, log, |log|);
  }

  /** What a release knows before it enqueues. */
  lemma ClosedFacts(s: Sys, log: Log, tx: Tx)
    requires ValidRun(log) && tx.ChangeTx? && ChangeOk(s, log, tx) && tx.stage.Closed?
    ensures tx.change.Release? && tx.before.id == tx.id
    ensures var db := Run(log);
            && Proceeds(db, tx.id, tx.expected, tx.change) && db.sticks[tx.id] == tx.before
            && Next(tx.before, tx.change) == Ok(tx.next)
            && HasOpenSession(db, tx.id) && tx.stage.session == OpenSession(db, tx.id)
            && tx.stage.closed == db.sessions[tx.stage.session].(releasedAt := Some(tx.change.releasedAt))
  {
    ReachableConsistent(log);
    hide Run, Step, Next, ValidRun;
  }

  /** A release whose rows are written can be logged right there. */
  lemma EnqueueInsertable(s: Sys, log: Log, tx: Tx, view: Tables, done: Tx)
    requires ValidRun(log) && Run(log) == s.committed
    requires tx.ChangeTx? && ChangeOk(s, log, tx) && tx.stage.Closed? && tx.before.holder.Some?
    requires view.subscriptions == s.committed.subscriptions && view.outbox == s.committed.outbox
    requires done.ChangeTx? && done.stage.Enqueued? && done == tx.(stage := done.stage)
    requires done.stage.session == tx.stage.session && done.stage.closed == tx.stage.closed
    requires Assigns(view, tx.before.id, done.stage.grant)
    requires done.stage.rows == NewRows(view, tx.before, tx.before.holder.value, tx.change.releasedAt, done.stage.grant)
    requires |s.order| == |log| && forall i | 0 <= i < |s.order| :: s.order[i] < done.stage.instant
    ensures done.stage.rows.Keys == done.stage.grant.Keys && done.stage.rows.Keys !! s.committed.outbox.Keys
    ensures Insertable(s.order, done.stage.instant, log, OpOf(done), WritesOf(done))
  {
    hide Step, Run, Next, Assigns, NewRows, Insertable, InsertableAt, Consistent, Fits, IsOpen, HasOpenSession,
      Proceeds;
    hide ValidRun, Admissible, Overlay, WritesOf, OpOf, ChangeOk;
    ClosedFacts(s, log, tx);
    ReachableConsistent(log);
    EnqueueEvaluated(s.committed, tx, view, done);
    InsertableNow(s.order, log, done);
  }

  lemma InsertableNow(order: seq<nat>, log: Log, done: Tx)
    requires ValidRun(log) && done.ChangeTx? && done.stage.Enqueued? && done.change.Release?
    requires OpOf(done) == OpTransition(done.id, done.expected, done.change, Grant(0, done.stage.grant))
    requires Assigns(Run(log), done.id, done.stage.grant)
    requires Step(Run(log), OpOf(done)) == Outcome(Overlay(Run(log), WritesOf(done).ToDelta()), Ok(GotStick(done.next)))
    requires Fits(Run(log), WritesOf(done))
    requires |order| == |log| && forall i | 0 <= i < |order| :: order[i] < done.stage.instant
    ensures Insertable(order, done.stage.instant, log, OpOf(done), WritesOf(done))
  {
    assert WritesOf(done).next == done.next;
    hide Step, Run, Assigns, Insertable, Fits, ValidRun, Admissible, Overlay, WritesOf, OpOf;
    ReleaseAdmissible(log, OpOf(done));
    InsertableHere(order, done.stage.instant, log, OpOf(done), WritesOf(done));
  }

  /** The rows computed on the transaction's view are those of the tables. */
  lemma EnqueueEvaluated(db: Tables, tx: Tx, view: Tables, done: Tx)
    requires Consistent(db) && tx.ChangeTx? && tx.stage.Closed? && tx.change.Release? && tx.before.holder.Some?
    requires tx.before.id == tx.id && Proceeds(db, tx.id, tx.expected, tx.change) && db.sticks[tx.id] == tx.before
    requires Next(tx.before, tx.change) == Ok(tx.next)
    requires HasOpenSession(db, tx.id) && tx.stage.session == OpenSession(db, tx.id)
    requires tx.stage.closed == db.sessions[tx.stage.session].(releasedAt := Some(tx.change.releasedAt))
    requires view.subscriptions == db.subscriptions && view.outbox == db.outbox
    requires done.ChangeTx? && done.stage.Enqueued? && done == tx.(stage := done.stage)
    requires done.stage.session == tx.stage.session && done.stage.closed == tx.stage.closed
    requires Assigns(view, tx.before.id, done.stage.grant)
    requires done.stage.rows == NewRows(view, tx.before, tx.before.holder.value, tx.change.releasedAt, done.stage.grant)
    ensures OpOf(done) == OpTransition(tx.id, tx.expected, tx.change, Grant(0, done.stage.grant))
    ensures Assigns(db, tx.id, done.stage.grant)
    ensures done.stage.rows.Keys == done.stage.grant.Keys && done.stage.rows.Keys !! db.outbox.Keys
    ensures Step(db, OpOf(done)) == Outcome(Overlay(db, WritesOf(done).ToDelta()), Ok(GotStick(done.next)))
    ensures Fits(db, WritesOf(done))
  {
    var holder, at, rows := tx.before.holder.value, tx.change.releasedAt, done.stage.grant;
    assert OpOf(done) == OpTransition(tx.id, tx.expected, tx.change, Grant(0, rows));
    hide Step, Next, Assigns, NewRows, Consistent, Fits, IsOpen, HasOpenSession, Overlay, OpOf, WritesOf, Proceeds;
    SameNewRows(db, view, tx.before, holder, at, rows);
    SameAssignment(db, view, tx.id, rows);
    AssignedRows(db, tx.before, holder, at, tx.id, rows);
    EnqueueIsRelease(db, done);
  }

  lemma SuccessorPair(s: Sys, before: Tx, tx: Tx, other: Tx)
    requires Drawn(s, other) && Separate(before, other) && Separate(other, before)
    requires before.ChangeTx? && tx.ChangeTx? && tx.id == before.id
    requires forall k | k in SessionIn(tx) :: s.nextSession <= k
    requires forall n | n in RowsIn(tx) :: s.nextOutbox <= n
    requires forall at | at in InstantIn(tx) :: s.steps <= at
    ensures Separate(tx, other) && Separate(other, tx)
  {
  }

  lemma SuccessorSeparate(s: Sys, log: Log, a: Agent, tx: Tx)
    requires Explains(log, s) && a in s.txs && s.txs[a].ChangeTx? && tx.ChangeTx? && tx.id == s.txs[a].id
    requires forall k | k in SessionIn(tx) :: s.nextSession <= k
    requires forall n | n in RowsIn(tx) :: s.nextOutbox <= n
    requires forall at | at in InstantIn(tx) :: s.steps <= at
    ensures ApartFrom(s, a, tx)
  {
    ExplainsParts(log, s);
    hide Separate, Explains, SessionIn, RowsIn, InstantIn, Dated, Accounts, Ahead;
    forall b | b in s.txs && b != a
      ensures Separate(tx, s.txs[b]) && Separate(s.txs[b], tx)
    {
      AllDrawn(s, log, b);
      SuccessorPair(s, s.txs[a], tx, s.txs[b]);
    }
  }

  lemma SaveOpenOk(s: Sys, log: Log, act: Action)
    requires Explains(log, s) && (act.Save? || act.Open?) && Do(s, act).Some?
    ensures TxOk(Do(s, act).value, log, Do(s, act).value.txs[act.agent])
  {
    hide Step, Run, Insertable, Next;
    assert TxOk(s, log, s.txs[act.agent]);
  }

  lemma CloseOk(s: Sys, log: Log, act: Action)
    requires Explains(log, s) && act.Close? && Do(s, act).Some?
    ensures TxOk(Do(s, act).value, log, Do(s, act).value.txs[act.agent])
  {
    hide Do, Explains, Step, Run, Insertable, Next, Consistent, ValidRun, View, OpenSessionsBy, HasOpenSession;
    Closes(s, act);
    TxOkOf(s, log, act.agent);
    ExplainsRun(log, s);
    ReachableConsistent(log);
    CloseFindsOpenSession(s, log, s.txs[act.agent], act.session);
  }

  /** What the close makes of its transaction. */
  lemma Closes(s: Sys, act: Action)
    requires act.Close? && Do(s, act).Some?
    ensures act.agent in s.txs
    ensures var tx, view, t := s.txs[act.agent], View(s, s.txs[act.agent]), Do(s, act).value;
            && tx.ChangeTx? && tx.stage.Saved? && tx.change.Release?
            && OpenSessionsBy(view, tx.id, tx.change.subject) == {act.session} && act.session in view.sessions
            && t.order == s.order && t.steps == s.steps + 1
            && act.agent in t.txs && t.txs[act.agent] == tx.(stage := t.txs[act.agent].stage)
            && t.txs[act.agent].stage
               == Closed(act.session, view.sessions[act.session].(releasedAt := Some(tx.change.releasedAt)))
  {
    hide View, OpenSessionsBy;
  }

  lemma TxOkOf(s: Sys, log: Log, a: Agent)
    requires Explains(log, s) && a in s.txs
    ensures TxOk(s, log, s.txs[a])
  {
    hide TxOk, Run, ValidRun, Accounts, Dated, Ahead, Apiece;
  }

  /** What the enqueue makes of its transaction. */
  lemma Enqueues(s: Sys, act: Action)
    requires act.Enqueue? && Do(s, act).Some?
    ensures act.agent in s.txs
    ensures var tx, t := s.txs[act.agent], Do(s, act).value;
            && tx.ChangeTx? && tx.stage.Closed? && tx.change.Release? && tx.before.holder.Some?
            && Assigns(View(s, tx), tx.before.id, act.rows)
            && t.order == s.order && t.steps == s.steps + 1
            && t.nextOutbox == act.bound && t.nextSession == s.nextSession
            && (forall n | n in act.rows :: s.nextOutbox <= n < act.bound)
            && act.agent in t.txs
            && t.txs[act.agent]
               == tx.(stage := Stage.Enqueued(tx.stage.session, tx.stage.closed, act.rows,
                                              NewRows(View(s, tx), tx.before, tx.before.holder.value,
                                                      tx.change.releasedAt, act.rows),
                                              s.steps))
  {
    hide Assigns, View, NewRows;
  }

  lemma EnqueueOk(s: Sys, log: Log, act: Action)
    requires Explains(log, s) && act.Enqueue? && Do(s, act).Some?
    ensures TxOk(Do(s, act).value, log, Do(s, act).value.txs[act.agent])
  {
    hide Do, Explains, Step, Run, ValidRun, Insertable, Next, Assigns, NewRows, View, OpOf, WritesOf, Proceeds;
    hide HasOpenSession, ChangeOk, ReadStick, HasGeneration, Deliveries, Used;
    Enqueues(s, act);
    TxOkOf(s, log, act.agent);
    ExplainsRun(log, s);
    OrderSoFar(s, log);
    ViewAtStart(s, s.txs[act.agent]);
    EnqueueInsertable(s, log, s.txs[act.agent], View(s, s.txs[act.agent]), Do(s, act).value.txs[act.agent]);
    EnqueuedOk(s, Do(s, act).value, log, s.txs[act.agent], Do(s, act).value.txs[act.agent]);
  }

  lemma EnqueuedOk(s: Sys, t: Sys, log: Log, tx: Tx, done: Tx)
    requires tx.ChangeTx? && ChangeOk(s, log, tx) && tx.stage.Closed? && t.order == s.order
    requires done.ChangeTx? && done.stage.Enqueued? && done == tx.(stage := done.stage) && done.stage.instant < t.steps
    requires done.stage.rows.Keys == done.stage.grant.Keys && done.stage.rows.Keys !! Run(log).outbox.Keys
    requires forall n | n in done.stage.grant :: n < t.nextOutbox
    requires Insertable(s.order, done.stage.instant, log, OpOf(done), WritesOf(done))
    ensures ChangeOk(t, log, done)
  {
    hide Run, Next, Insertable, Proceeds, HasOpenSession, OpOf, WritesOf;
  }

  lemma OrderSoFar(s: Sys, log: Log)
    requires Explains(log, s)
    ensures |s.order| == |log| && forall i | 0 <= i < |s.order| :: s.order[i] < s.steps
  {
    hide AllOk, Run, ValidRun, Ahead, Apiece;
  }

  lemma ChangeStep(s: Sys, log: Log, act: Action)
    requires Explains(log, s) && (act.Save? || act.Open? || act.Close? || act.Enqueue?) && Do(s, act).Some?
    ensures Explains(log, Do(s, act).value)
  {
    var a, t := act.agent, Do(s, act).value;
    ChangeMoves(s, act);
    if act.Close? {
      CloseOk(s, log, act);
    } else if act.Enqueue? {
      EnqueueOk(s, log, act);
    } else {
      SaveOpenOk(s, log, act);
    }
    hide Do, TxOk, Separate, Explains, LocalMove;
    SuccessorSeparate(s, log, a, t.txs[a]);
    LocalStep(s, t, log, a);
  }

  /** A statement of a change moves its own transaction on and at most draws new ids. */
  lemma ChangeMoves(s: Sys, act: Action)
    requires (act.Save? || act.Open? || act.Close? || act.Enqueue?) && Do(s, act).Some?
    ensures var a, t := act.agent, Do(s, act).value;
            && a in s.txs && s.txs[a].ChangeTx? && LocalMove(s, t, a)
            && t.txs[a].ChangeTx? && t.txs[a].id == s.txs[a].id
            && (forall k | k in SessionIn(t.txs[a]) :: s.nextSession <= k)
            && (forall n | n in RowsIn(t.txs[a]) :: s.nextOutbox <= n)
            && (forall at | at in InstantIn(t.txs[a]) :: s.steps == at)
  {
    hide Assigns, OpenSessions, OpenSessionsBy, SaveStick, View;
  }

  lemma CloseFindsOpenSession(s: Sys, log: Log, tx: Tx, k: nat)
    requires Run(log) == s.committed && Consistent(s.committed) && tx.ChangeTx? && tx.stage.Saved? && tx.change.Release?
    requires OpenSessionsBy(View(s, tx), tx.id, tx.change.subject) == {k}
    ensures HasOpenSession(s.committed, tx.id) && k == OpenSession(s.committed, tx.id)
    ensures k in s.committed.sessions && View(s, tx).sessions[k] == s.committed.sessions[k]
  {
    ViewAtStart(s, tx);
    assert k in OpenSessionsBy(View(s, tx), tx.id, tx.change.subject);
    assert IsOpen(s.committed, k, tx.id);
  }

  /** A transaction that takes a free subscription lock stays apart from the others. */
  lemma KeyTaken(before: Tx, after: Tx, other: Tx)
    requires Separate(before, other) && Separate(other, before)
    requires (before.FollowTx? && after.FollowTx? && after.id == before.id && after.token == before.token)
             || (before.UnfollowTx? && after.UnfollowTx? && after.id == before.id)
    requires KeyLock(after).Some? ==> KeyLock(other) != KeyLock(after)
    ensures Separate(after, other) && Separate(other, after)
  {
  }

  lemma WriteMoves(s: Sys, a: Agent)
    requires DoWrite(s, a).Some?
    ensures a in s.txs && LocalMove(s, DoWrite(s, a).value, a)
  {
    hide Subscribe, View, KeyFree;
  }

  lemma WriteSeparate(s: Sys, a: Agent)
    requires Apiece(s) && DoWrite(s, a).Some?
    ensures a in s.txs && a in DoWrite(s, a).value.txs
    ensures ApartFrom(s, a, DoWrite(s, a).value.txs[a])
  {
    var tx := DoWrite(s, a).value.txs[a];
    hide Subscribe, View, Separate;
    forall b | b in s.txs && b != a
      ensures Separate(tx, s.txs[b]) && Separate(s.txs[b], tx)
    {
      assert KeyLock(tx).Some? ==> KeyLock(s.txs[b]) != KeyLock(tx);
      KeyTaken(s.txs[a], tx, s.txs[b]);
    }
  }

  lemma WriteOk(s: Sys, log: Log, a: Agent)
    requires Run(log) == s.committed && a in s.txs && TxOk(s, log, s.txs[a]) && DoWrite(s, a).Some?
    ensures TxOk(DoWrite(s, a).value, log, DoWrite(s, a).value.txs[a])
  {
    hide Run, Step, Subscribe, View, KeyFree, ReadStick;
  }

  lemma WriteStep(s: Sys, log: Log, act: Action)
    requires Explains(log, s) && act.Write? && Do(s, act).Some?
    ensures Explains(log, Do(s, act).value)
  {
    var a := act.agent;
    ExplainsRun(log, s);
    ExplainsParts(log, s);
    WriteMoves(s, a);
    WriteSeparate(s, a);
    assert TxOk(s, log, s.txs[a]);
    WriteOk(s, log, a);
    hide DoWrite, Explains, TxOk, Separate, LocalMove;
    LocalStep(s, DoWrite(s, a).value, log, a);
  }

  lemma DeleteMoves(s: Sys, a: Agent)
    requires DoDelete(s, a).Some?
    ensures a in s.txs && LocalMove(s, DoDelete(s, a).value, a)
  {
    hide HasGeneration, KeyFree;
  }

  /** A mark that takes a free subscription lock stays apart from the others. */
  lemma DeleteSeparate(s: Sys, a: Agent)
    requires Apiece(s) && DoDelete(s, a).Some?
    ensures ApartFrom(s, a, DoDelete(s, a).value.txs[a])
  {
    var tx := DoDelete(s, a).value.txs[a];
    hide HasGeneration;
    forall b | b in s.txs && b != a
      ensures Separate(tx, s.txs[b]) && Separate(s.txs[b], tx)
    {
      assert Separate(s.txs[a], s.txs[b]) && Separate(s.txs[b], s.txs[a]);
    }
  }

  lemma DeleteOk(s: Sys, log: Log, a: Agent)
    requires Run(log) == s.committed && a in s.txs && TxOk(s, log, s.txs[a]) && DoDelete(s, a).Some?
    ensures TxOk(DoDelete(s, a).value, log, DoDelete(s, a).value.txs[a])
  {
    hide Run, Step, HasGeneration, KeyFree, Owns;
  }

  lemma DeleteStep(s: Sys, log: Log, act: Action)
    requires Explains(log, s) && act.Delete? && Do(s, act).Some?
    ensures Explains(log, Do(s, act).value)
  {
    var a := act.agent;
    ExplainsRun(log, s);
    ExplainsParts(log, s);
    DeleteMoves(s, a);
    DeleteSeparate(s, a);
    assert TxOk(s, log, s.txs[a]);
    DeleteOk(s, log, a);
    hide DoDelete, Explains, TxOk, Separate, LocalMove;
    LocalStep(s, DoDelete(s, a).value, log, a);
  }

  lemma RowOpStep(s: Sys, log: Log, op: Op)
    requires Explains(log, s) && Admissible(log, op)
    requires IsWorkerOp(op) && (op.OpSucceed? ==> Step(s.committed, op).reply.Err?)
    requires TokenOf(op) !! s.drawn
    requires Touched(s.committed, op).Some? ==> RowFree(s, Touched(s.committed, op).value)
    requires !op.OpClaim? ==> op.delivery in s.deliveries
    ensures Explains(log + [op], Complete(s, op))
  {
    if !op.OpClaim? {
      DeliverySnapshot(log, op.delivery);
    }
    hide Step, Run, Next, Touched;
    forall a | a in s.txs
      ensures Undisturbed(log, op, s.txs[a])
    {
      RowOpUndisturbing(s, log, op, s.txs[a]);
    }
    hide Explains, Undisturbed, Admissible;
    CompleteStep(s, log, op);
  }

  lemma TakeStep(s: Sys, log: Log, act: Action)
    requires Explains(log, s) && act.Take? && Do(s, act).Some?
    ensures Explains(log + [OpClaim(act.row, act.now, act.staleBefore, act.token)], Do(s, act).value)
  {
    ExplainsRun(log, s);
    ExplainsParts(log, s);
    hide Explains, Run, Step, Accounts, Dated, Apiece, Ahead, ValidRun, RowFree, Eligible;
    RowOpStep(s, log, OpClaim(act.row, act.now, act.staleBefore, act.token));
  }

  lemma FailStep(s: Sys, log: Log, act: Action)
    requires Explains(log, s) && act.Fail? && Do(s, act).Some?
    ensures Explains(log + [OpFail(act.delivery, act.next, act.failure)], Do(s, act).value)
  {
    ExplainsRun(log, s);
    ExplainsParts(log, s);
    hide Explains, Run, Step, Accounts, Dated, Apiece, Ahead, ValidRun, RowFree;
    RowOpStep(s, log, OpFail(act.delivery, act.next, act.failure));
  }

  lemma LostMarkStep(s: Sys, log: Log, act: Action)
    requires Explains(log, s) && act.Mark? && Do(s, act).Some? && !Owns(s.committed, act.delivery)
    ensures Explains(log + [OpSucceed(act.delivery, act.at)], Do(s, act).value)
  {
    ExplainsRun(log, s);
    ExplainsParts(log, s);
    assert Step(s.committed, OpSucceed(act.delivery, act.at)).reply.Err?;
    hide Explains, Run, Step, Accounts, Dated, Apiece, Ahead, ValidRun, RowFree;
    RowOpStep(s, log, OpSucceed(act.delivery, act.at));
  }

  lemma WorkerStep(s: Sys, log: Log, act: Action) returns (after: Log)
    requires Explains(log, s) && (act.Take? || act.Fail? || act.Mark?) && Do(s, act).Some?
    ensures Explains(after, Do(s, act).value)
  {
    hide Explains, Do;
    if act.Take? {
      TakeStep(s, log, act);
      after := log + [OpClaim(act.row, act.now, act.staleBefore, act.token)];
    } else if act.Fail? {
      FailStep(s, log, act);
      after := log + [OpFail(act.delivery, act.next, act.failure)];
    } else if Owns(s.committed, act.delivery) {
      MarkBegins(s, log, act);
      after := log;
    } else {
      LostMarkStep(s, log, act);
      after := log + [OpSucceed(act.delivery, act.at)];
    }
  }

  lemma MarkMoves(s: Sys, log: Log, act: Action)
    requires Run(log) == s.committed && Deliveries(log) == s.deliveries
    requires act.Mark? && Do(s, act).Some? && Owns(s.committed, act.delivery)
    ensures var t := Do(s, act).value;
            LocalMove(s, t, act.agent) && TxOk(t, log, t.txs[act.agent]) && ApartFrom(s, act.agent, t.txs[act.agent])
  {
    hide Run, Step, Deliveries, Owns;
  }

  lemma MarkBegins(s: Sys, log: Log, act: Action)
    requires Explains(log, s) && act.Mark? && Do(s, act).Some? && Owns(s.committed, act.delivery)
    ensures Explains(log, Do(s, act).value)
  {
    ExplainsRun(log, s);
    ExplainsParts(log, s);
    MarkMoves(s, log, act);
    hide Do, Explains, TxOk, Owns, LocalMove;
    LocalStep(s, Do(s, act).value, log, act.agent);
  }

  // ---- commits other than a release's: the operation happens at the commit ----

  lemma ChangeCommits(s: Sys, log: Log, tx: Tx)
    requires ValidRun(log) && Run(log) == s.committed
    requires tx.ChangeTx? && ChangeOk(s, log, tx) && AllDone(tx) && !tx.change.Release?
    ensures Admissible(log, OpOf(tx))
    ensures Step(s.committed, OpOf(tx)) == Outcome(View(s, tx), Ok(ReplyOf(tx)))
  {
    var db := s.committed;
    hide Run, Step, Next, Insertable, Consistent;
    ReachableConsistent(log);
    TransitionStep(db, OpOf(tx));
    UpdateIsUnion(db.sticks, tx.id, tx.next);
    NothingPut(db.subscriptions);
    if tx.change.Claim? {
      UpdateIsUnion(db.sessions, tx.stage.session, HolderSession(tx.id, tx.next.holder.value)) by {
        HasHolder(tx);
      }
      HasHolder(tx);
    }
    assert View(s, tx) == Written(db, tx.id, tx.change, OpOf(tx).grant);
  }

  lemma HasHolder(tx: Tx)
    requires tx.ChangeTx? && tx.change.Claim? && Next(tx.before, tx.change) == Ok(tx.next)
    ensures tx.next.holder.Some?
  {
  }

  /** The upsert of a token nobody has puts one subscription. */
  lemma SubscribePuts(db: Tables, id: string, identity: Identity, token: Token)
    requires forall other :: !HasGeneration(db, other, token)
    ensures var put := map[Key(id, identity.sub) := Subscription(identity.name, identity.email, token)];
            Subscribe(db, id, identity, token) == Ok(Overlay(db, NO_WRITES.(put := put)))
  {
    hide HasGeneration;
    UpdateIsUnion(db.subscriptions, Key(id, identity.sub), Subscription(identity.name, identity.email, token));
    UnionNothing(db.sticks);
    UnionNothing(db.sessions);
    UnionNothing(db.outbox);
    assert db.subscriptions - {} == db.subscriptions;
  }

  lemma FollowCommits(s: Sys, log: Log, tx: Tx)
    requires ValidRun(log) && Run(log) == s.committed
    requires tx.FollowTx? && TxOk(s, log, tx) && AllDone(tx)
    ensures Admissible(log, OpOf(tx))
    ensures Step(s.committed, OpOf(tx)) == Outcome(View(s, tx), Ok(ReplyOf(tx)))
  {
    ReachableTokens(log);
    assert forall other :: !HasGeneration(s.committed, other, tx.token);
    hide Run, ValidRun, Subscribe, Overlay, HasGeneration;
    SubscribePuts(s.committed, tx.id, tx.identity, tx.token);
  }

  lemma UnfollowCommits(s: Sys, log: Log, tx: Tx)
    requires Run(log) == s.committed && tx.UnfollowTx? && TxOk(s, log, tx) && AllDone(tx)
    ensures Admissible(log, OpOf(tx))
    ensures Step(s.committed, OpOf(tx)) == Outcome(View(s, tx), Ok(ReplyOf(tx)))
  {
    hide Run;
  }

  lemma MarkCommits(s: Sys, log: Log, tx: Tx)
    requires Run(log) == s.committed && tx.MarkTx? && TxOk(s, log, tx) && AllDone(tx)
    ensures Admissible(log, OpOf(tx))
    ensures Step(s.committed, OpOf(tx)) == Outcome(View(s, tx), Ok(ReplyOf(tx)))
  {
    hide Run;
    UpdateIsUnion(s.committed.outbox, tx.delivery.id, tx.row);
  }

  /** Committing one transaction disturbs no other. */
  lemma CommitUndisturbing(s: Sys, log: Log, tx: Tx, other: Tx)
    requires ValidRun(log) && Run(log) == s.committed && TxOk(s, log, tx) && TxOk(s, log, other)
    requires AllDone(tx) && !(tx.ChangeTx? && tx.change.Release?)
    requires Separate(tx, other) && Separate(other, tx)
    requires Step(s.committed, OpOf(tx)) == Outcome(View(s, tx), Ok(ReplyOf(tx)))
    requires forall n | n in RowsIn(other) :: n !in s.committed.outbox
    ensures Undisturbed(log, OpOf(tx), other)
  {
    if other.MarkTx? {
      CommitKeepsMark(s, log, tx, other);
    } else {
      CommitKeepsLocked(s, log, tx, other);
    }
  }

  /** A transaction that holds a stick's lock. */
  lemma CommitKeepsLocked(s: Sys, log: Log, tx: Tx, other: Tx)
    requires TxOk(s, log, tx) && AllDone(tx) && !(tx.ChangeTx? && tx.change.Release?) && !other.MarkTx?
    requires Run(log) == s.committed && TxOk(s, log, other)
    requires Separate(tx, other) && Separate(other, tx)
    requires forall n | n in RowsIn(other) :: n !in s.committed.outbox
    ensures Undisturbed(log, OpOf(tx), other)
  {
    if other.ChangeTx? {
      hide Run, Next, Insertable, Proceeds, HasGeneration, HasOpenSession;
    } else {
      hide Run, Next, Insertable, Proceeds, HasGeneration, HasOpenSession, Owns, Apart;
    }
  }

  lemma CommitKeepsMark(s: Sys, log: Log, tx: Tx, other: Tx)
    requires ValidRun(log) && Run(log) == s.committed && TxOk(s, log, tx) && TxOk(s, log, other) && other.MarkTx?
    requires AllDone(tx) && !(tx.ChangeTx? && tx.change.Release?)
    requires Separate(tx, other) && Separate(other, tx)
    requires Step(s.committed, OpOf(tx)) == Outcome(View(s, tx), Ok(ReplyOf(tx)))
    ensures Undisturbed(log, OpOf(tx), other)
  {
    ReachableTokens(log);
    DeliverySnapshot(log, other.delivery);
    hide Step, Run, Next, Insertable, View, Proceeds, HasOpenSession;
    if other.deleted {
      GenerationKept(s, log, tx, other);
    }
  }

  lemma GenerationKept(s: Sys, log: Log, tx: Tx, other: Tx)
    requires Run(log) == s.committed && TxOk(s, log, tx) && TxOk(s, log, other)
    requires AllDone(tx) && !(tx.ChangeTx? && tx.change.Release?)
    requires Separate(tx, other) && other.MarkTx? && other.deleted
    requires other.delivery.snapshot.generation in Used(log)
    ensures var key, generation := other.delivery.snapshot.Recipient(), other.delivery.snapshot.generation;
            HasGeneration(View(s, tx), key, generation) <==> HasGeneration(s.committed, key, generation)
  {
    hide Run, Next, Insertable;
  }

  lemma CommitKeepsIds(s: Sys, log: Log, a: Agent)
    requires Explains(log, s) && a in s.txs
    requires AllDone(s.txs[a]) && !(s.txs[a].ChangeTx? && s.txs[a].change.Release?)
    ensures forall k | k in View(s, s.txs[a]).sessions :: k < s.nextSession
    ensures forall n | n in View(s, s.txs[a]).outbox :: n < s.nextOutbox
  {
    TxOkOf(s, log, a);
    ExplainsParts(log, s);
    ExplainsRun(log, s);
    hide Explains, Accounts, Dated, Apiece, ValidRun;
    ViewKeepsIds(s, log, s.txs[a]);
  }

  lemma ViewKeepsIds(s: Sys, log: Log, tx: Tx)
    requires Run(log) == s.committed && TxOk(s, log, tx) && Ahead(s)
    requires AllDone(tx) && !(tx.ChangeTx? && tx.change.Release?)
    ensures forall k | k in View(s, tx).sessions :: k < s.nextSession
    ensures forall n | n in View(s, tx).outbox :: n < s.nextOutbox
  {
    hide Run, Next, Insertable, Proceeds, HasGeneration, HasOpenSession, ReadStick;
  }

  lemma OtherRowsNew(s: Sys, log: Log, tx: Tx)
    requires Run(log) == s.committed && TxOk(s, log, tx)
    ensures forall n | n in RowsIn(tx) :: n !in s.committed.outbox && n < s.nextOutbox
  {
    hide Run, Next, Insertable;
  }

  /** A finished transaction other than a release commits as one operation. */
  lemma PlainCommits(s: Sys, log: Log, tx: Tx)
    requires ValidRun(log) && Run(log) == s.committed && TxOk(s, log, tx) && AllDone(tx)
    requires !(tx.ChangeTx? && tx.change.Release?)
    ensures Admissible(log, OpOf(tx))
    ensures Step(s.committed, OpOf(tx)) == Outcome(View(s, tx), Ok(ReplyOf(tx)))
  {
    hide Run, Step, Next, Insertable, View, OpOf, ReplyOf, TxOk, AllDone, Admissible;
    match tx {
      case ChangeTx(_, _, _, _, _, _) => ChangeCommits(s, log, tx) by { ChangeTxOk(s, log, tx); }
      case MarkTx(_, _, _, _, _) => MarkCommits(s, log, tx);
      case FollowTx(_, _, _, _, _) => FollowCommits(s, log, tx);
      case UnfollowTx(_, _, _, _, _) => UnfollowCommits(s, log, tx);
    }
  }

  lemma PlainCommitSpares(s: Sys, log: Log, a: Agent, b: Agent)
    requires Explains(log, s) && a in s.txs && b in s.txs && a != b
    requires AllDone(s.txs[a]) && !(s.txs[a].ChangeTx? && s.txs[a].change.Release?)
    requires Step(s.committed, OpOf(s.txs[a])) == Outcome(View(s, s.txs[a]), Ok(ReplyOf(s.txs[a])))
    ensures Undisturbed(log, OpOf(s.txs[a]), s.txs[b])
  {
    hide Explains, Run, Step, Separate, View, TxOk, Accounts, Dated, ValidRun, OpOf, ReplyOf, Undisturbed, AllDone;
    TxOkOf(s, log, a);
    TxOkOf(s, log, b);
    ExplainsRun(log, s);
    ExplainsParts(log, s);
    OtherRowsNew(s, log, s.txs[b]);
    CommitUndisturbing(s, log, s.txs[a], s.txs[b]);
  }

  lemma PlainCommitStep(s: Sys, log: Log, a: Agent) returns (after: Log)
    requires Explains(log, s) && a in s.txs && Do(s, Commit(a)).Some?
    requires !(s.txs[a].ChangeTx? && s.txs[a].change.Release?)
    ensures Explains(after, Do(s, Commit(a)).value) && after == log + [OpOf(s.txs[a])]
  {
    hide Explains, Do, Run, Step, Admissible, Undisturbed, View, TxOk, Noted, Accounts, Dated, ValidRun, OpOf, AllDone;
    var t, tx := Do(s, Commit(a)).value, s.txs[a];
    var op := OpOf(tx);
    CommitMoves(s, log, a);
    CommitKeepsIds(s, log, a);
    TxOkOf(s, log, a);
    ExplainsRun(log, s);
    ExplainsParts(log, s);
    PlainCommits(s, log, tx);
    TokenOfTx(s, log, tx);
    forall b | b in t.txs
      ensures Undisturbed(log, op, t.txs[b])
    {
      PlainCommitSpares(s, log, a, b);
    }
    AppendedStep(s, t, log, op);
    after := log + [op];
  }

  /** A commit that takes effect now. */
  lemma CommitMoves(s: Sys, log: Log, a: Agent)
    requires Explains(log, s) && Do(s, Commit(a)).Some?
    requires !(s.txs[a].ChangeTx? && s.txs[a].change.Release?)
    ensures var t, tx := Do(s, Commit(a)).value, s.txs[a];
            && AllDone(tx) && Noted(s, t, OpOf(tx), Ok(ReplyOf(tx))) && t.committed == View(s, tx)
            && t.txs == s.txs - {a} && t.deliveries == s.deliveries && t.drawn == s.drawn
            && t.nextSession == s.nextSession && t.nextOutbox == s.nextOutbox
  {
    if s.txs[a].ChangeTx? {
      NotEnqueued(s, log, a);
    }
    ExplainsParts(log, s);
    OrderSoFar(s, log);
    InsertedLast(s.order, s.steps);
    BeganBefore(s, a);
    hide Explains, Dated, Accounts, Apiece, Ahead, Inserted;
    CommitNow(s, a);
  }

  lemma CommitNow(s: Sys, a: Agent)
    requires Do(s, Commit(a)).Some? && InstantOf(s, s.txs[a]) == s.steps
    requires Inserted(s.order, s.steps) == s.order + [s.steps] && s.began[a] <= s.steps
    ensures var t, tx := Do(s, Commit(a)).value, s.txs[a];
            && AllDone(tx) && Noted(s, t, OpOf(tx), Ok(ReplyOf(tx))) && t.committed == View(s, tx)
            && t.txs == s.txs - {a} && t.deliveries == s.deliveries && t.drawn == s.drawn
            && t.nextSession == s.nextSession && t.nextOutbox == s.nextOutbox
  {
    hide View, OpOf, ReplyOf, Inserted, InstantOf;
  }

  lemma NotEnqueued(s: Sys, log: Log, a: Agent)
    requires Explains(log, s) && a in s.txs && s.txs[a].ChangeTx? && !s.txs[a].change.Release?
    ensures !s.txs[a].stage.Enqueued?
  {
    TxOkOf(s, log, a);
    hide Explains, Run, Step, Next, Insertable, Proceeds;
  }

  lemma BeganBefore(s: Sys, a: Agent)
    requires Dated(s) && a in s.txs
    ensures a in s.began && s.began[a] <= s.steps
  {
  }

  lemma InsertedLast(order: seq<nat>, instant: nat)
    requires forall i | 0 <= i < |order| :: order[i] < instant
    ensures Inserted(order, instant) == order + [instant]
  {
  }

  lemma ChangeTxOk(s: Sys, log: Log, tx: Tx)
    requires TxOk(s, log, tx) && tx.ChangeTx?
    ensures ChangeOk(s, log, tx)
  {
  }

  lemma TokenOfTx(s: Sys, log: Log, tx: Tx)
    requires TxOk(s, log, tx)
    ensures TokenOf(OpOf(tx)) <= s.drawn
    ensures DeliveryOf(Ok(ReplyOf(tx))) == {}
  {
    hide Run, Next, Insertable;
  }

  // ---- a release's commit: the operation happens where it enqueued ----

  lemma OverlaySwap(db: Tables, v: Writes, w: Writes)
    requires Fits(db, v) && Fits(db, w) && v.id != w.id && v.rows.Keys !! w.rows.Keys
    ensures Overlay(Overlay(db, v.ToDelta()), w.ToDelta()) == Overlay(Overlay(db, w.ToDelta()), v.ToDelta())
  {
    assert v.session != w.session;
    UnionSwap(db.sticks, v.ToDelta().sticks, w.ToDelta().sticks);
    UnionSwap(db.sessions, v.ToDelta().sessions, w.ToDelta().sessions);
    UnionSwap(db.outbox, v.rows, w.rows);
  }

  lemma FitsOver(db: Tables, v: Writes, w: Writes)
    requires Fits(db, v) && Fits(db, w) && v.id != w.id && v.rows.Keys !! w.rows.Keys
    ensures Fits(Overlay(db, v.ToDelta()), w)
  {
    OpenElsewhere(db, v, w.id);
  }

  lemma OutboxOfPrefix(log: Log, j: nat)
    requires ValidRun(log) && j <= |log|
    ensures ValidRun(log[..j]) && Run(log[..j]).outbox.Keys <= Run(log).outbox.Keys
  {
    PrefixValid(log, j);
    forall n | n in Run(log[..j]).outbox
      ensures n in Run(log).outbox
    {
      RowsPersist(log, j, n);
    }
  }

  lemma InsertedBefore<T>(log: seq<T>, k: nat, op: T, j: nat)
    requires j <= k <= |log|
    ensures (log[..k] + [op] + log[k..])[..j] == log[..j]
    ensures forall e | e in (log[..k] + [op] + log[k..])[j..] :: e == op || e in log[j..]
  {
    assert (log[..k] + [op] + log[k..])[j..] == log[j..k] + [op] + log[k..];
  }

  lemma InsertedBehind<T>(log: seq<T>, k: nat, op: T, j: nat)
    requires k <= j <= |log|
    ensures (log[..k] + [op] + log[k..])[..j + 1] == log[..k] + [op] + log[k..j]
    ensures (log[..k] + [op] + log[k..])[j + 1..] == log[j..]
  {
  }

  /** After one release has been put into the log, another one in flight still can be. */
  lemma InsertableInserted(
    order: seq<nat>, instant: nat, instant2: nat, log: Log, k: nat, op: Op, writes: Writes, op2: Op, writes2: Writes)
    requires ValidRun(log) && PlacedAt(order, instant, log, k) && InsertableAt(log, k, op, writes)
    requires Insertable(order, instant2, log, op2, writes2) && instant != instant2
    requires op.OpTransition? && op2.OpTransition?
    requires writes.rows.Keys !! Run(log).outbox.Keys
    requires writes.rows.Keys !! writes2.rows.Keys && writes.id != writes2.id
    requires Apart(op, writes2) && Apart(op2, writes)
    ensures Insertable(order[..k] + [instant] + order[k..], instant2, log[..k] + [op] + log[k..], op2, writes2)
  {
    hide Run, Step, Apart, Fits, Overlay, Admissible, ValidRun;
    var whole, dates := log[..k] + [op] + log[k..], order[..k] + [instant] + order[k..];
    var j: nat :| PlacedAt(order, instant2, log, j) && InsertableAt(log, j, op2, writes2);
    PlaceInserted(order, instant, instant2, log, k, op, j);
    if instant2 < instant {
      InsertableAhead(log, k, op, j, op2, writes2);
      assert PlacedAt(dates, instant2, whole, j) && InsertableAt(whole, j, op2, writes2);
    } else {
      InsertableBehind(log, k, op, writes, j, op2, writes2);
      InsertedBehind(log, k, op, j);
      assert PlacedAt(dates, instant2, whole, j + 1) && InsertableAt(whole, j + 1, op2, writes2);
    }
  }

  lemma NoLater(order: seq<nat>, early: nat, late: nat, j: nat, k: nat)
    requires SplitsAt(order, early, j) && SplitsAt(order, late, k) && early < late
    ensures j <= k
  {
    assert k < |order| ==> late < order[k];
  }

  /** Where an instant belongs, before and after another one is inserted. */
  lemma PlaceInserted(order: seq<nat>, instant: nat, instant2: nat, log: Log, k: nat, op: Op, j: nat)
    requires PlacedAt(order, instant, log, k) && PlacedAt(order, instant2, log, j) && instant != instant2
    ensures var dates, whole := order[..k] + [instant] + order[k..], log[..k] + [op] + log[k..];
            if instant2 < instant then j <= k && PlacedAt(dates, instant2, whole, j)
            else k <= j && PlacedAt(dates, instant2, whole, j + 1)
  {
    var dates := order[..k] + [instant] + order[k..];
    if instant2 < instant {
      NoLater(order, instant2, instant, j, k);
    } else {
      NoLater(order, instant, instant2, k, j);
    }
    forall i | 0 <= i < |dates|
      ensures dates[i] == if i < k then order[i] else if i == k then instant else order[i - 1]
    {
    }
  }

  lemma InsertableAhead(log: Log, k: nat, op: Op, j: nat, op2: Op, writes2: Writes)
    requires j <= k <= |log| && InsertableAt(log, j, op2, writes2) && Apart(op, writes2)
    ensures InsertableAt(log[..k] + [op] + log[k..], j, op2, writes2)
  {
    hide Run, Step, Apart, Fits, Overlay, Admissible, ValidRun;
    InsertedBefore(log, k, op, j);
  }

  lemma InsertableBehind(log: Log, k: nat, op: Op, writes: Writes, j: nat, op2: Op, writes2: Writes)
    requires ValidRun(log) && InsertableAt(log, k, op, writes) && InsertableAt(log, j, op2, writes2) && k <= j
    requires op.OpTransition? && op2.OpTransition?
    requires writes.rows.Keys !! Run(log).outbox.Keys
    requires writes.rows.Keys !! writes2.rows.Keys && writes.id != writes2.id
    requires Apart(op2, writes)
    ensures var over := log[..k] + [op] + log[k..j];
            && ValidRun(over + [op2])
            && Step(Run(over), op2) == Outcome(Overlay(Run(over), writes2.ToDelta()), Ok(GotStick(writes2.next)))
            && Fits(Run(over), writes2)
  {
    hide Run, Step, Apart, Fits, Overlay, Admissible;
    var under, over := log[..j], log[..k] + [op] + log[k..j];
    assert log[..k] + log[k..j] == under;
    OutboxOfPrefix(log, j);
    assert forall e | e in log[k..j] :: e in log[k..];
    InsertRelease(log[..k], op, log[k..j], writes);
    Snoc(under, op2);
    ReachableConsistent(over);
    StepCommutes(under, writes, op2);
    AdmissibleStill(under, over, writes, op2);
    Snoc(over, op2);
    OverlaySwap(Run(under), writes, writes2);
    FitsOver(Run(under), writes, writes2);
  }

  lemma ChangeInserted(s: Sys, t: Sys, instant: nat, log: Log, k: nat, op: Op, writes: Writes, tx: Tx)
    requires Explains(log, s) && tx.ChangeTx? && ChangeOk(s, log, tx) && tx.id != writes.id
    requires PlacedAt(s.order, instant, log, k) && InsertableAt(log, k, op, writes) && instant !in InstantIn(tx)
    requires t == s.(order := s.order[..k] + [instant] + s.order[k..], steps := t.steps) && s.steps <= t.steps
    requires op.OpTransition? && op.id == writes.id && op.grant.rows.Keys == writes.rows.Keys
    requires writes.rows.Keys !! Run(log).outbox.Keys && writes.rows.Keys !! RowsIn(tx)
    requires Fits(Run(log), writes)
    requires ValidRun(log[..k] + [op] + log[k..])
    requires Run(log[..k] + [op] + log[k..]) == Overlay(Run(log), writes.ToDelta())
    ensures ChangeOk(t, log[..k] + [op] + log[k..], tx)
  {
    var after := log[..k] + [op] + log[k..];
    if tx.stage.Enqueued? {
      EnqueuedInserted(s, t, instant, log, k, op, writes, tx);
    }
    ReachableConsistent(log);
    assert Proceeds(Run(log), tx.id, tx.expected, tx.change);
    StickElsewhere(Run(log), Run(after), writes, tx);
    hide Run, Step, Next, ValidRun, Insertable, InsertableAt, Explains, HasOpenSession, Consistent, Proceeds, Overlay,
      Fits;
    SameChangeOk(s, t, log, after, writes, tx);
  }

  lemma SameChangeOk(s: Sys, t: Sys, log: Log, after: Log, writes: Writes, tx: Tx)
    requires tx.ChangeTx? && ChangeOk(s, log, tx) && s.nextSession == t.nextSession && s.nextOutbox == t.nextOutbox
    requires s.steps <= t.steps && writes.rows.Keys !! RowsIn(tx)
    requires Proceeds(Run(after), tx.id, tx.expected, tx.change) && Run(after).sticks[tx.id] == Run(log).sticks[tx.id]
    requires Run(after).sessions.Keys == Run(log).sessions.Keys
    requires Run(after).outbox.Keys == Run(log).outbox.Keys + writes.rows.Keys
    requires HasOpenSession(Run(log), tx.id) ==>
               && HasOpenSession(Run(after), tx.id) && OpenSession(Run(after), tx.id) == OpenSession(Run(log), tx.id)
               && Run(after).sessions[OpenSession(Run(log), tx.id)] == Run(log).sessions[OpenSession(Run(log), tx.id)]
    requires tx.stage.Enqueued? ==> Insertable(t.order, tx.stage.instant, after, OpOf(tx), WritesOf(tx))
    ensures ChangeOk(t, after, tx)
  {
    hide Run, Step, Next, Insertable, HasOpenSession, Proceeds;
  }

  /** Another transaction's stick and sessions, under the release's writes. */
  lemma StickElsewhere(db: Tables, over: Tables, writes: Writes, tx: Tx)
    requires Consistent(db) && Fits(db, writes) && over == Overlay(db, writes.ToDelta()) && tx.ChangeTx?
             && tx.id != writes.id
    requires Proceeds(db, tx.id, tx.expected, tx.change)
    ensures Proceeds(over, tx.id, tx.expected, tx.change) && over.sticks[tx.id] == db.sticks[tx.id]
    ensures over.sessions.Keys == db.sessions.Keys && over.outbox.Keys == db.outbox.Keys + writes.rows.Keys
    ensures HasOpenSession(db, tx.id) ==>
              && HasOpenSession(over, tx.id) && OpenSession(over, tx.id) == OpenSession(db, tx.id)
              && over.sessions[OpenSession(db, tx.id)] == db.sessions[OpenSession(db, tx.id)]
  {
    assert writes.session in db.sessions;
    if HasOpenSession(db, tx.id) {
      OpenSessionElsewhere(db, writes, tx.id);
    }
    hide Consistent, IsOpen, Next;
  }

  lemma EnqueuedInserted(s: Sys, t: Sys, instant: nat, log: Log, k: nat, op: Op, writes: Writes, tx: Tx)
    requires Explains(log, s) && tx.ChangeTx? && tx.stage.Enqueued? && ChangeOk(s, log, tx) && tx.id != writes.id
    requires PlacedAt(s.order, instant, log, k) && InsertableAt(log, k, op, writes) && instant !in InstantIn(tx)
    requires t == s.(order := s.order[..k] + [instant] + s.order[k..], steps := t.steps) && s.steps <= t.steps
    requires op.OpTransition? && op.id == writes.id && op.grant.rows.Keys == writes.rows.Keys
    requires writes.rows.Keys !! Run(log).outbox.Keys && writes.rows.Keys !! RowsIn(tx)
    ensures Insertable(t.order, tx.stage.instant, log[..k] + [op] + log[k..], OpOf(tx), WritesOf(tx))
  {
    hide Run, Step, Next, ValidRun, Insertable, InsertableAt, Explains, Proceeds;
    ExplainsRun(log, s);
    InsertableInserted(s.order, instant, tx.stage.instant, log, k, op, writes, OpOf(tx), WritesOf(tx));
  }

  lemma ExplainsRun(log: Log, s: Sys)
    requires Explains(log, s)
    ensures ValidRun(log) && Run(log) == s.committed
  {
  }

  lemma TxInserted(s: Sys, t: Sys, instant: nat, log: Log, k: nat, op: Op, writes: Writes, tx: Tx)
    requires Explains(log, s) && TxOk(s, log, tx) && StickLock(tx) != Some(writes.id)
    requires PlacedAt(s.order, instant, log, k) && InsertableAt(log, k, op, writes) && instant !in InstantIn(tx)
    requires t == s.(order := s.order[..k] + [instant] + s.order[k..], steps := t.steps) && s.steps <= t.steps
    requires op.OpTransition? && op.id == writes.id && op.grant.rows.Keys == writes.rows.Keys
    requires writes.rows.Keys !! Run(log).outbox.Keys && writes.rows.Keys !! RowsIn(tx)
    requires Fits(Run(log), writes)
    requires var after := log[..k] + [op] + log[k..];
             ValidRun(after) && Run(after) == Overlay(Run(log), writes.ToDelta())
             && Used(after) == Used(log) && Deliveries(after) == Deliveries(log)
    ensures TxOk(t, log[..k] + [op] + log[k..], tx)
  {
    hide Run, Step, Next, Insertable, InsertableAt, Explains, ChangeOk;
    SameGenerations(Run(log), writes);
    if tx.ChangeTx? {
      ChangeInserted(s, t, instant, log, k, op, writes, tx);
    }
  }

  /** The transactions still in flight after a release was put into the log. */
  lemma OthersInserted(s: Sys, t: Sys, log: Log, k: nat, op: Op, writes: Writes, a: Agent)
    requires Explains(log, s) && a in s.txs && s.txs[a].ChangeTx? && s.txs[a].stage.Enqueued?
    requires op == OpOf(s.txs[a]) && writes == WritesOf(s.txs[a]) && op.grant.rows.Keys == writes.rows.Keys
    requires t.txs == s.txs - {a} && s.steps <= t.steps
    requires s.nextSession == t.nextSession && s.nextOutbox == t.nextOutbox && s.drawn == t.drawn
    requires PlacedAt(s.order, s.txs[a].stage.instant, log, k) && InsertableAt(log, k, op, writes)
             && Fits(Run(log), writes)
    requires t.order == s.order[..k] + [s.txs[a].stage.instant] + s.order[k..]
    requires writes.rows.Keys !! Run(log).outbox.Keys
    requires var after := log[..k] + [op] + log[k..];
             ValidRun(after) && Run(after) == Overlay(Run(log), writes.ToDelta())
             && Used(after) == Used(log) && Deliveries(after) == Deliveries(log)
    ensures forall b | b in t.txs :: TxOk(t, log[..k] + [op] + log[k..], t.txs[b])
  {
    var instant, m := s.txs[a].stage.instant, s.(order := t.order, steps := t.steps);
    hide Run, Step, Next, ValidRun, InsertableAt, TxOk, Separate, Fits, Overlay, Used, Deliveries, Accounts;
    forall b | b in t.txs
      ensures TxOk(t, log[..k] + [op] + log[k..], t.txs[b])
    {
      SeparateFacts(s.txs[a], s.txs[b]);
      TxInserted(s, m, instant, log, k, op, writes, s.txs[b]);
      TxLater(m, t, log[..k] + [op] + log[k..], s.txs[b]);
    }
  }

  /** What a release about to commit has, spelled out. */
  lemma ReleaseReady(s: Sys, log: Log, a: Agent) returns (k: nat)
    requires Explains(log, s) && Do(s, Commit(a)).Some?
    requires s.txs[a].ChangeTx? && s.txs[a].change.Release?
    ensures s.txs[a].stage.Enqueued?
    ensures var op, writes := OpOf(s.txs[a]), WritesOf(s.txs[a]);
            && PlacedAt(s.order, s.txs[a].stage.instant, log, k) && InsertableAt(log, k, op, writes)
            && op.grant.rows.Keys == writes.rows.Keys
            && writes.rows.Keys !! Run(log).outbox.Keys
            && (forall n | n in writes.rows :: n < s.nextOutbox)
            && s.txs[a].stage.instant < s.steps
  {
    hide Run, Step, Next, InsertableAt, PlacedAt, Separate, Accounts, Used, Deliveries, ValidRun;
    var tx := s.txs[a];
    assert TxOk(s, log, tx);
    k :| PlacedAt(s.order, tx.stage.instant, log, k) && InsertableAt(log, k, OpOf(tx), WritesOf(tx));
  }

  lemma {:induction false} InsertedAt(order: seq<nat>, instant: nat, k: nat)
    requires SplitsAt(order, instant, k)
    ensures Inserted(order, instant) == order[..k] + [instant] + order[k..]
  {
    if k == |order| {
      assert order[..k] == order && order[k..] == [];
    } else {
      var z := |order| - 1;
      InsertedAt(order[..z], instant, k);
      assert order[k..] == order[..z][k..] + [order[z]];
    }
  }

  lemma CommitOfRelease(s: Sys, a: Agent, k: nat)
    requires a in s.txs && s.txs[a].ChangeTx? && s.txs[a].stage.Enqueued? && Do(s, Commit(a)).Some?
    requires SplitsAt(s.order, s.txs[a].stage.instant, k)
    ensures a in s.began
    ensures var op, writes, instant := OpOf(s.txs[a]), WritesOf(s.txs[a]), s.txs[a].stage.instant;
            Do(s, Commit(a)).value
            == s.(committed := Overlay(s.committed, writes.ToDelta()), txs := s.txs - {a}, steps := s.steps + 1,
            order := s.order[..k] + [instant] + s.order[k..],
            done := s.done[instant := Finished(op, Ok(GotStick(writes.next)), s.began[a], s.steps)])
  {
    InsertedAt(s.order, s.txs[a].stage.instant, k);
    hide Overlay, Inserted;
  }

  lemma ReleaseCommitStep(s: Sys, log: Log, a: Agent) returns (after: Log, k: nat)
    requires Explains(log, s) && a in s.txs && Do(s, Commit(a)).Some?
    requires s.txs[a].ChangeTx? && s.txs[a].change.Release?
    ensures Explains(after, Do(s, Commit(a)).value) && s.txs[a].stage.Enqueued?
    ensures k <= |log| && PlacedAt(s.order, s.txs[a].stage.instant, log, k)
    ensures InsertableAt(log, k, OpOf(s.txs[a]), WritesOf(s.txs[a]))
    ensures after == log[..k] + [OpOf(s.txs[a])] + log[k..]
  {
    k := ReleaseReady(s, log, a);
    CommitOfRelease(s, a, k);
    var t, op, writes := Do(s, Commit(a)).value, OpOf(s.txs[a]), WritesOf(s.txs[a]);
    assert op.OpTransition?;
    hide Run, Step, Next, ValidRun, Apart, Separate, Fits, TxOk, Overlay, Used, Deliveries, Replies, Accounts, Dated;
    hide InsertableAt, PlacedAt, Explains, Do, OpOf, WritesOf, Ahead, Apiece;
    after := log[..k] + [op] + log[k..];
    ExplainsRun(log, s);
    ExplainsParts(log, s);
    ReleaseInserted(log, k, op, writes);
    OthersInserted(s, t, log, k, op, writes, a);
    FitsAhead(s, t, writes);
    var f := Finished(op, Ok(GotStick(writes.next)), s.began[a], s.steps);
    InsertedAccounts(log, s.order, s.done, k, s.txs[a].stage.instant, f);
    InsertedDates(s, t, k, a, f);
    ReleaseExplained(s, t, log, after, a, writes);
  }

  lemma ReleaseInserted(log: Log, k: nat, op: Op, writes: Writes)
    requires InsertableAt(log, k, op, writes) && ValidRun(log) && op.OpTransition?
    requires writes.rows.Keys !! Run(log).outbox.Keys
    ensures k <= |log|
    ensures var after := log[..k] + [op] + log[k..];
            && ValidRun(after) && Run(after) == Overlay(Run(log), writes.ToDelta())
            && Fits(Run(log), writes)
            && Replies(after) == Replies(log)[..k] + [Ok(GotStick(writes.next))] + Replies(log)[k..]
            && Used(after) == Used(log) && Deliveries(after) == Deliveries(log)
  {
    hide Run, Step, ValidRun, Apart, Fits, Overlay, Used, Deliveries, Replies;
    assert log[..k] + log[k..] == log;
    InsertRelease(log[..k], op, log[k..], writes);
    RepliesPrefix(log, k);
  }

  lemma {:induction false} RepliesPrefix(log: Log, k: nat)
    requires k <= |log|
    ensures Replies(log[..k]) == Replies(log)[..k]
  {
    hide Run, Step;
    if k < |log| {
      var front := log[..|log| - 1];
      assert front[..k] == log[..k];
      RepliesPrefix(front, k);
      assert Replies(log)[..k] == Replies(front)[..k];
    } else {
      assert log[..k] == log;
    }
  }

  lemma InsertedAccounts(log: Log, order: seq<nat>, done: map<nat, Finished>, k: nat, instant: nat, f: Finished)
    requires Accounts(log, order, done) && PlacedAt(order, instant, log, k)
    requires var after := log[..k] + [f.op] + log[k..];
             Replies(after) == Replies(log)[..k] + [f.reply] + Replies(log)[k..]
    ensures Accounts(log[..k] + [f.op] + log[k..], order[..k] + [instant] + order[k..], done[instant := f])
  {
    hide Replies;
    var after, dates := log[..k] + [f.op] + log[k..], order[..k] + [instant] + order[k..];
    forall at | at in done[instant := f]
      ensures at in dates
    {
      if at == instant {
        assert dates[k] == instant;
      } else {
        var i :| 0 <= i < |order| && order[i] == at;
        assert dates[if i < k then i else i + 1] == at;
      }
    }
    forall i: nat | i < |after|
      ensures dates[i] in done[instant := f]
      ensures done[instant := f][dates[i]].op == after[i] && done[instant := f][dates[i]].reply == Replies(after)[i]
    {
      if i != k {
        var j := if i < k then i else i - 1;
        assert dates[i] == order[j] && after[i] == log[j] && Replies(after)[i] == Replies(log)[j];
        assert order[j] != instant;
      }
    }
  }

  lemma OrderInserted(order: seq<nat>, instant: nat, k: nat, bound: nat)
    requires Increasing(order) && SplitsAt(order, instant, k)
    requires instant < bound && forall i | 0 <= i < |order| :: order[i] < bound
    ensures Increasing(order[..k] + [instant] + order[k..])
    ensures forall i | 0 <= i < |order| + 1 :: (order[..k] + [instant] + order[k..])[i] < bound
  {
    var after := order[..k] + [instant] + order[k..];
    forall i, j | 0 <= i < j < |after|
      ensures after[i] < after[j]
    {
      assert i < k ==> after[i] == order[i];
      assert k < i ==> after[i] == order[i - 1];
      assert j < k ==> after[j] == order[j];
      assert k < j ==> after[j] == order[j - 1];
    }
  }

  lemma InsertedDates(s: Sys, t: Sys, k: nat, a: Agent, f: Finished)
    requires Dated(s) && a in s.txs && s.txs[a].ChangeTx? && s.txs[a].stage.Enqueued?
    requires SplitsAt(s.order, s.txs[a].stage.instant, k) && s.txs[a].stage.instant < s.steps
    requires t.txs == s.txs - {a} && t.began == s.began && t.steps == s.steps + 1
    requires f.began == s.began[a] && f.ended == s.steps
    requires var instant := s.txs[a].stage.instant;
             t.order == s.order[..k] + [instant] + s.order[k..] && t.done == s.done[instant := f]
    ensures Dated(t)
  {
    var instant := s.txs[a].stage.instant;
    OrderInserted(s.order, instant, k, s.steps);
    hide SplitsAt, Increasing;
    assert instant in InstantIn(s.txs[a]);
  }

  lemma ExplainsParts(log: Log, s: Sys)
    requires Explains(log, s)
    ensures Accounts(log, s.order, s.done) && Used(log) <= s.drawn && Deliveries(log) == s.deliveries
    ensures Ahead(s) && Dated(s) && Apiece(s)
  {
  }

  lemma ReleaseExplained(s: Sys, t: Sys, log: Log, after: Log, a: Agent, writes: Writes)
    requires Explains(log, s) && a in s.txs && t.txs == s.txs - {a}
    requires ValidRun(after) && Run(after) == t.committed && Accounts(after, t.order, t.done) && Dated(t)
    requires Used(after) == Used(log) && Deliveries(after) == Deliveries(log)
    requires t.drawn == s.drawn && t.deliveries == s.deliveries && Ahead(t)
    requires forall b | b in t.txs :: TxOk(t, after, t.txs[b])
    ensures Explains(after, t)
  {
    hide Run, ValidRun, Accounts, Dated, Used, Deliveries, Ahead, Separate, TxOk;
  }

  lemma SeparateFacts(t: Tx, u: Tx)
    requires Separate(t, u) && t.ChangeTx? && t.stage.Enqueued?
    ensures StickLock(u) != Some(t.id) && t.stage.rows.Keys !! RowsIn(u) && t.stage.instant !in InstantIn(u)
  {
  }

  lemma FitsAhead(s: Sys, t: Sys, writes: Writes)
    requires Ahead(s) && Fits(s.committed, writes) && t.committed == Overlay(s.committed, writes.ToDelta())
    requires forall n | n in writes.rows :: n < s.nextOutbox
    requires t.nextSession == s.nextSession && t.nextOutbox == s.nextOutbox
    ensures Ahead(t)
  {
  }

  // ---- whole executions ----

  lemma Explained(s: Sys, log: Log, act: Action) returns (after: Log)
    requires Explains(log, s) && Do(s, act).Some?
    ensures Explains(after, Do(s, act).value)
  {
    hide Explains, Run, Step;
    after := log;
    match act
    case Create(_) => after := CreateStep(s, log, act);
    case Start(_, _) => after := StartStep(s, log, act);
    case Write(_) => WriteStep(s, log, act);
    case Delete(_) => DeleteStep(s, log, act);
    case Abort(a) => AbortStep(s, log, a);
    case Commit(a) =>
      if s.txs[a].ChangeTx? && s.txs[a].change.Release? {
        var place;
        after, place := ReleaseCommitStep(s, log, a);
      } else {
        after := PlainCommitStep(s, log, a);
      }
    case Take(_, _, _, _) => after := WorkerStep(s, log, act);
    case Mark(_, _, _) => after := WorkerStep(s, log, act);
    case Fail(_, _, _) => after := WorkerStep(s, log, act);
    case _ => ChangeStep(s, log, act);
  }

  lemma InitiallyExplained()
    ensures Explains([], INIT)
  {
  }

  lemma {:induction false} Executed(acts: seq<Action>) returns (log: Log)
    requires Exec(acts).Some?
    ensures Explains(log, Exec(acts).value)
  {
    if acts == [] {
      log := [];
      InitiallyExplained();
    } else {
      hide Explains, Do;
      var front := acts[..|acts| - 1];
      log := Executed(front);
      log := Explained(Exec(front).value, log, acts[|acts| - 1]);
    }
  }

  /** The committed tables are those of a valid run of whole operations.  The operations of
      that run, one by one, are those that are over, with the replies their clients were
      given; each has its instant, the instants are in the order of the run, and each lies
      between the operation's first statement and its commit.  So an operation that was over
      before another began comes before it. */
  ghost predicate StrictlySerial(s: Sys, log: Log) {
    && ValidRun(log) && Run(log) == s.committed
    && |s.order| == |log| && Increasing(s.order) && (forall at :: at in s.done <==> at in s.order)
    && (forall i: nat | i < |log| ::
          && s.order[i] in s.done
          && var f := s.done[s.order[i]];
          f.op == log[i] && f.reply == ReplyAt(log, i) && f.began <= s.order[i] <= f.ended)
    && (forall i: nat, j: nat | i < |log| && j < |log| ::
          s.done[s.order[i]].ended < s.done[s.order[j]].began ==> i < j)
  }

  lemma InOrder(s: Sys, log: Log)
    requires Explains(log, s)
    ensures StrictlySerial(s, log)
  {
    hide Run, Step, ValidRun, Replies, Explains, Apiece, Ahead, Dated, ReplyAt;
    ExplainsRun(log, s);
    ExplainsParts(log, s);
    DatesOf(s);
    forall i: nat | i < |log|
      ensures Replies(log)[i] == ReplyAt(log, i)
    {
      RepliesAt(log, i);
    }
    forall i: nat, j: nat | i < |log| && j < |log| && s.done[s.order[i]].ended < s.done[s.order[j]].began
      ensures i < j
    {
      EarlierFirst(s, i, j);
    }
  }

  lemma DatesOf(s: Sys)
    requires Dated(s)
    ensures Increasing(s.order) && forall at | at in s.done :: s.done[at].began <= at <= s.done[at].ended
  {
  }

  lemma EarlierFirst(s: Sys, i: nat, j: nat)
    requires Dated(s) && i < |s.order| && j < |s.order| && s.order[i] in s.done && s.order[j] in s.done
    requires s.done[s.order[i]].ended < s.done[s.order[j]].began
    ensures i < j
  {
    assert s.order[i] < s.order[j];
  }

  /** Any interleaving of statements, commits, rollbacks and worker steps is strictly serial. */
  lemma Serializable(acts: seq<Action>) returns (log: Log)
    requires Exec(acts).Some?
    ensures StrictlySerial(Exec(acts).value, log)
  {
    log := Executed(acts);
    InOrder(Exec(acts).value, log);
  }
}
