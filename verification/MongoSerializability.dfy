/** Why the increment of zero is there: with it every interleaving of MongoDB transactions is
    serial.  It gives a stick's document the part that the row lock plays in PostgreSQL, so
    the transactions in flight satisfy the same invariant; what is new is that they read a
    snapshot, and which documents still agree with it. */
module MongoSerializability {
  import opened Core
  import opened Database
  import opened Protocol
  import opened Consistency
  import opened Fencing
  import opened Reordering
  import opened Interleaving
  import opened Serializability
  import M = MongoTransactions

  // ---- what a transaction in flight may rely on ----

  predicate SameAt<K(==), V(==)>(x: map<K, V>, y: map<K, V>, k: K) {
    (k in x <==> k in y) && (k in x ==> x[k] == y[k])
  }

  predicate SameDoc(x: M.Snap, y: M.Snap, doc: M.Doc) {
    match doc
    case StickDoc(id) => SameAt(x.tables.sticks, y.tables.sticks, id)
    case SessionDoc(k) => SameAt(x.tables.sessions, y.tables.sessions, k)
    case KeyDoc(key) => SameAt(x.tables.subscriptions, y.tables.subscriptions, key)
    case RowDoc(n) => SameAt(x.tables.outbox, y.tables.outbox, n)
    case SessionCounter => x.nextSession == y.nextSession
    case OutboxCounter => x.nextOutbox == y.nextOutbox
  }

  function Now(m: M.Db): M.Snap {
    M.Snap(m.base.committed, m.base.nextSession, m.base.nextOutbox)
  }

  /** What nobody has written since its snapshot is as the transaction sees it, and what it
      has written itself nobody else has. */
  ghost predicate TxTracked(m: M.Db, a: Agent)
    requires a in m.base.txs
  {
    var tx := m.base.txs[a];
    && a in m.base.began && a in m.snaps && m.base.began[a] < m.base.steps
    && (forall doc | doc in M.Docs(true, tx) :: M.Unwritten(m, a, doc))
    && (forall doc | M.Unwritten(m, a, doc) :: SameDoc(Now(m), m.snaps[a], doc))
    && (tx.ChangeTx? && tx.stage.Opened? ==> tx.stage.session == m.snaps[a].nextSession)
    && (tx.ChangeTx? && tx.stage.Enqueued? ==>
          && tx.stage.instant == m.base.began[a]
          && forall n | n in tx.stage.rows :: m.snaps[a].nextOutbox <= n < m.snaps[a].nextOutbox + |tx.stage.grant|)
  }

  /** Two transactions write different documents. */
  predicate PairApart(m: M.Db, a: Agent, b: Agent) {
    && a in m.base.txs && b in m.base.txs && a in m.base.began && b in m.base.began
    && M.Docs(true, m.base.txs[a]) !! M.Docs(true, m.base.txs[b]) && m.base.began[a] != m.base.began[b]
  }

  ghost predicate Tracked(m: M.Db) {
    && (forall a | a in m.base.txs :: TxTracked(m, a))
    && (forall a, b | a in m.base.txs && b in m.base.txs && a != b :: PairApart(m, a, b))
    && (forall doc | doc in m.written :: m.written[doc] < m.base.steps)
  }

  predicate Counted(s: Sys) {
    && 0 < s.nextSession
    && (forall k | k in s.committed.sessions :: k < s.nextSession)
    && (forall n | n in s.committed.outbox :: n < s.nextOutbox)
  }

  ghost predicate SameSubscribers(x: Tables, y: Tables, id: string) {
    forall key: Key | key.stickId == id :: SameAt(x.subscriptions, y.subscriptions, key)
  }

  /** At this point of the log the stick's subscribers were those of the snapshot, and nothing
      has happened to the stick since. */
  ghost predicate StickStill(snap: M.Snap, log: Log, k: nat, id: string) {
    && k <= |log|
    && id in Run(log[..k]).sticks && SameSubscribers(Run(log[..k]), snap.tables, id)
    && forall e | e in log[k..] :: OffStick(e, id)
  }

  predicate Trackable(m: M.Db, a: Agent) {
    a in m.base.txs && a in m.base.began && a in m.snaps
  }

  /** The snapshot of a change of stick has its place in the log. */
  ghost predicate Placed(m: M.Db, log: Log, a: Agent)
    requires Trackable(m, a)
  {
    m.base.txs[a].ChangeTx? ==>
      exists k: nat :: PlacedAt(m.base.order, m.base.began[a], log, k)
                       && StickStill(m.snaps[a], log, k, m.base.txs[a].id)
  }

  /** A subscription that the snapshot does not have will not turn up. */
  ghost predicate Missing(m: M.Db, a: Agent)
    requires Trackable(m, a)
  {
    var db, seen := m.base.committed, m.snaps[a].tables;
    match m.base.txs[a]
    case UnfollowTx(id, subject, _, _, _) =>
      Key(id, subject) in db.subscriptions ==> Key(id, subject) in seen.subscriptions
    case MarkTx(delivery, _, _, _, _) =>
      var key, generation := delivery.snapshot.Recipient(), delivery.snapshot.generation;
      HasGeneration(db, key, generation) ==> HasGeneration(seen, key, generation)
    case _ => true
  }

  /** The outbox rows an operation is about. */
  function RowsOf(op: Op): set<nat> {
    match op
    case OpTransition(_, _, _, grant) => grant.rows.Keys
    case OpClaim(row, _, _, _) => if row.Some? then {row.value} else {}
    case OpSucceed(delivery, _) => {delivery.id}
    case OpFail(delivery, _, _) => {delivery.id}
    case _ => {}
  }

  ghost predicate RowsKnown(log: Log, db: Tables) {
    forall e | e in log :: RowsOf(e) <= db.outbox.Keys
  }

  /** The system as the invariant of PostgreSQL sees it: ids are below some bounds. */
  function Shadow(m: M.Db, nextSession: nat, nextOutbox: nat): Sys {
    m.base.(nextSession := nextSession, nextOutbox := nextOutbox)
  }

  ghost predicate InFlight(m: M.Db, log: Log) {
    forall a | a in m.base.txs :: Trackable(m, a) && Placed(m, log, a) && Missing(m, a)
  }

  ghost predicate Inv(m: M.Db, log: Log, ns: nat, no: nat) {
    && Explains(log, Shadow(m, ns, no)) && Tracked(m) && Counted(m.base) && RowsKnown(log, m.base.committed)
    && m.base.nextSession <= ns && m.base.nextOutbox <= no && InFlight(m, log)
  }

  lemma InvFrom(m: M.Db, log: Log, ns: nat, no: nat)
    requires Explains(log, Shadow(m, ns, no)) && Tracked(m) && Counted(m.base) && RowsKnown(log, m.base.committed)
    requires m.base.nextSession <= ns && m.base.nextOutbox <= no && InFlight(m, log)
    ensures Inv(m, log, ns, no)
  {
    hide Explains, Tracked, Counted, RowsKnown, InFlight;
  }

  // ---- nobody else is disturbed ----

  lemma Raised(log: Log, s: Sys, ns: nat, no: nat)
    requires Explains(log, s) && s.nextSession <= ns && s.nextOutbox <= no
    ensures Explains(log, s.(nextSession := ns, nextOutbox := no))
  {
    var t := s.(nextSession := ns, nextOutbox := no);
    hide Run, Step, Separate, TxOk, ValidRun, Accounts;
    forall b | b in t.txs
      ensures TxOk(t, log, t.txs[b])
    {
      TxLater(s, t, log, s.txs[b]);
    }
  }

  /** These documents were written by the action just made. */
  ghost predicate Bumps(m: M.Db, t: M.Db, docs: set<M.Doc>) {
    && (forall doc :: doc in t.written <==> doc in m.written || doc in docs)
    && (forall doc | doc in t.written :: t.written[doc] == if doc in docs then m.base.steps else m.written[doc])
  }

  ghost predicate OnlyAt(m: M.Db, t: M.Db, docs: set<M.Doc>) {
    forall doc | doc !in docs :: SameDoc(Now(t), Now(m), doc)
  }

  /** The transaction of `b` is where it was. */
  predicate Unmoved(m: M.Db, t: M.Db, b: Agent) {
    && b in m.base.txs && b in t.base.txs && t.base.txs[b] == m.base.txs[b]
    && b in m.base.began && b in t.base.began && t.base.began[b] == m.base.began[b]
    && b in m.snaps && b in t.snaps && t.snaps[b] == m.snaps[b]
  }

  lemma StillTracked(m: M.Db, t: M.Db, docs: set<M.Doc>, b: Agent)
    requires Tracked(m) && Unmoved(m, t, b) && t.base.steps == m.base.steps + 1
    requires Bumps(m, t, docs) && OnlyAt(m, t, docs) && docs !! M.Docs(true, m.base.txs[b])
    ensures TxTracked(t, b)
  {
    assert TxTracked(m, b);
    forall doc | M.Unwritten(t, b, doc)
      ensures SameDoc(Now(t), t.snaps[b], doc)
    {
      assert doc !in docs;
      assert M.Unwritten(m, b, doc);
    }
  }

  lemma PlacedAfter(m: M.Db, t: M.Db, log: Log, op: Op, b: Agent)
    requires Unmoved(m, t, b) && Placed(m, log, b) && m.base.began[b] < m.base.steps
    requires t.base.order == m.base.order + [m.base.steps]
    requires m.base.txs[b].ChangeTx? ==> OffStick(op, m.base.txs[b].id)
    ensures Placed(t, log + [op], b)
  {
    hide Run, OffStick, SameSubscribers;
    if m.base.txs[b].ChangeTx? {
      var id := m.base.txs[b].id;
      var k: nat :| PlacedAt(m.base.order, m.base.began[b], log, k) && StickStill(m.snaps[b], log, k, id);
      assert (log + [op])[..k] == log[..k] && (log + [op])[k..] == log[k..] + [op];
      assert PlacedAt(t.base.order, t.base.began[b], log + [op], k) && StickStill(t.snaps[b], log + [op], k, id);
    }
  }

  lemma PlacedStill(m: M.Db, t: M.Db, log: Log, b: Agent)
    requires Unmoved(m, t, b) && Placed(m, log, b) && t.base.order == m.base.order
    ensures Placed(t, log, b)
  {
    hide StickStill, PlacedAt;
  }

  /** What it takes for the transactions in flight that an action goes on without them. */
  ghost predicate Passes(m: M.Db, t: M.Db, docs: set<M.Doc>) {
    && t.base.steps == m.base.steps + 1 && Bumps(m, t, docs) && OnlyAt(m, t, docs)
    && forall b | b in t.base.txs :: Unmoved(m, t, b) && docs !! M.Docs(true, m.base.txs[b])
  }

  lemma TrackedOn(m: M.Db, t: M.Db, docs: set<M.Doc>)
    requires Tracked(m) && Passes(m, t, docs)
    ensures Tracked(t)
  {
    hide M.Docs, TxTracked, OnlyAt;
    forall a, b | a in t.base.txs && b in t.base.txs && a != b
      ensures PairApart(t, a, b)
    {
      assert Unmoved(m, t, a) && Unmoved(m, t, b) && PairApart(m, a, b);
    }
    hide Unmoved, PairApart;
    forall b | b in t.base.txs
      ensures TxTracked(t, b)
    {
      StillTracked(m, t, docs, b);
    }
  }

  /** An operation of one statement, or one refused at its first. */
  lemma CompletedKeeps(m: M.Db, t: M.Db, log: Log, op: Op, docs: set<M.Doc>, ns: nat, no: nat)
    requires Inv(m, log, ns, no) && t.base == Complete(m.base, op) && t.snaps == m.snaps
    requires Explains(log + [op], Shadow(t, ns, no)) && Passes(m, t, docs)
    requires OneStatement(m.base.committed, op) && RowsOf(op) <= m.base.committed.outbox.Keys
    requires t.base.committed.subscriptions == m.base.committed.subscriptions
    requires forall b | b in m.base.txs && m.base.txs[b].ChangeTx? :: OffStick(op, m.base.txs[b].id)
    ensures Inv(t, log + [op], ns, no)
  {
    hide Explains, Step, M.Docs, OneStatement, TxTracked, Passes, Placed, Missing, Tracked, OffStick, RowsOf;
    TrackedOn(m, t, docs);
    OneStatementKeeps(m.base.committed, op);
    forall b | b in t.base.txs
      ensures Trackable(t, b) && Placed(t, log + [op], b) && Missing(t, b)
    {
      CompletedSpares(m, t, log, op, docs, b);
    }
  }

  lemma CompletedSpares(m: M.Db, t: M.Db, log: Log, op: Op, docs: set<M.Doc>, b: Agent)
    requires Tracked(m) && t.base == Complete(m.base, op) && t.snaps == m.snaps && b in m.base.txs
    requires Passes(m, t, docs) && Trackable(m, b) && Placed(m, log, b) && Missing(m, b)
    requires t.base.committed.subscriptions == m.base.committed.subscriptions
    requires m.base.txs[b].ChangeTx? ==> OffStick(op, m.base.txs[b].id)
    ensures Trackable(t, b) && Placed(t, log + [op], b) && Missing(t, b)
  {
    assert TxTracked(m, b);
    assert Unmoved(m, t, b);
    hide Step, M.Docs, OnlyAt, Bumps;
    PlacedAfter(m, t, log, op, b);
  }

  lemma OneStatementKeeps(db: Tables, op: Op)
    requires OneStatement(db, op)
    ensures Step(db, op).db.sessions.Keys == db.sessions.Keys && Step(db, op).db.outbox.Keys == db.outbox.Keys
  {
    if Step(db, op).reply.Err? {
      FailureRollsBack(db, op);
    } else {
      OtherWrites(db, op);
      if IsWorkerOp(op) {
        WorkerWrites(db, op);
      }
    }
  }

  // ---- operations of one statement ----

  lemma LockedExists(s: Sys, log: Log, b: Agent)
    requires Explains(log, s) && b in s.txs
    ensures StickLock(s.txs[b]).Some? ==> StickLock(s.txs[b]).value in s.committed.sticks
  {
    TxOkOf(s, log, b);
    ExplainsRun(log, s);
    hide Explains, Run, Next, Insertable, HasOpenSession;
  }

  function SessionDocs(tx: Tx): set<nat> {
    if !tx.ChangeTx? then {} else
    match tx.stage
    case Opened(k) => {k}
    case Closed(k, _) => {k}
    case Enqueued(k, _, _, _, _) => {k}
    case _ => {}
  }

  /** The documents written are those of the locks PostgreSQL would hold, the sessions and new
      rows, and the counters the ids of these come from. */
  lemma DocsAre(tx: Tx)
    ensures forall id :: M.StickDoc(id) in M.Docs(true, tx) <==> StickLock(tx) == Some(id)
    ensures forall key :: M.KeyDoc(key) in M.Docs(true, tx) <==> KeyLock(tx) == Some(key)
    ensures forall n: nat :: M.RowDoc(n) in M.Docs(true, tx) <==> RowLock(tx) == Some(n) || n in RowsIn(tx)
    ensures forall k: nat :: M.SessionDoc(k) in M.Docs(true, tx) <==> k in SessionDocs(tx)
    ensures M.SessionCounter in M.Docs(true, tx) <==> SessionIn(tx) != {}
    ensures M.OutboxCounter in M.Docs(true, tx) <==> RowsIn(tx) != {}
  {
    if tx.ChangeTx? && tx.stage.Enqueued? {
      assert tx.stage.rows != map[] <==> tx.stage.rows.Keys != {};
    }
  }

  /** A row that is there is written by nobody who does not hold its lock. */
  lemma RowDocFree(s: Sys, log: Log, n: nat, b: Agent)
    requires Explains(log, s) && b in s.txs && n in s.committed.outbox && RowLock(s.txs[b]) != Some(n)
    ensures M.RowDoc(n) !in M.Docs(true, s.txs[b])
  {
    hide Explains, TxOk, M.Docs, RowsIn, RowLock;
    TxOkOf(s, log, b);
    ExplainsRun(log, s);
    OtherRowsNew(s, log, s.txs[b]);
    DocsAre(s.txs[b]);
  }

  lemma StickDocFree(s: Sys, log: Log, id: string, b: Agent)
    requires Explains(log, s) && b in s.txs && (id in s.committed.sticks ==> StickLock(s.txs[b]) != Some(id))
    ensures M.StickDoc(id) !in M.Docs(true, s.txs[b])
    ensures s.txs[b].ChangeTx? ==> s.txs[b].id != id
  {
    hide Explains, TxOk, M.Docs;
    LockedExists(s, log, b);
    DocsAre(s.txs[b]);
  }

  lemma InvParts(m: M.Db, log: Log, ns: nat, no: nat)
    requires Inv(m, log, ns, no)
    ensures Explains(log, Shadow(m, ns, no)) && ValidRun(log) && Run(log) == m.base.committed
    ensures Tracked(m) && Counted(m.base)
    ensures forall b | b in m.base.txs :: Trackable(m, b) && TxTracked(m, b) && Placed(m, log, b) && Missing(m, b)
  {
    ExplainsRun(log, Shadow(m, ns, no));
  }

  lemma Creates(m: M.Db, act: Action, ns: nat, no: nat)
    requires act.Create? && M.Do(true, m, act).Some?
    ensures var t, op := M.Do(true, m, act).value, OpCreate(act.stick);
            && t.base == Complete(m.base, op) && t.snaps == m.snaps && t.base.txs == m.base.txs
            && Do(Shadow(m, ns, no), act) == Some(Shadow(t, ns, no))
            && var docs := if act.stick.id in m.base.committed.sticks then {} else {M.StickDoc(act.stick.id)};
            Bumps(m, t, docs) && OnlyAt(m, t, docs)
  {
    hide NewStick;
  }

  lemma CreateKeeps(m: M.Db, log: Log, act: Action, ns: nat, no: nat) returns (after: Log)
    requires Inv(m, log, ns, no) && act.Create? && M.Do(true, m, act).Some?
    ensures Inv(M.Do(true, m, act).value, after, ns, no)
  {
    hide Explains, Do, M.Do, M.Docs, TxTracked, Placed, Missing, Inv, Step, OnlyAt, Bumps, Complete;
    var s, t, op := Shadow(m, ns, no), M.Do(true, m, act).value, OpCreate(act.stick);
    InvParts(m, log, ns, no);
    Creates(m, act, ns, no);
    after := CreateStep(s, log, act);
    var docs := if act.stick.id in m.base.committed.sticks then {} else {M.StickDoc(act.stick.id)};
    CompletedPasses(m, t, op, docs);
    forall b | b in m.base.txs
      ensures docs !! M.Docs(true, m.base.txs[b])
    {
      if act.stick.id !in m.base.committed.sticks {
        StickDocFree(s, log, act.stick.id, b);
      }
    }
    assert Passes(m, t, docs);
    assert OneStatement(m.base.committed, op);
    SubscriptionsUntouched(m.base.committed, op);
    CompletedKeeps(m, t, log, op, docs, ns, no);
  }

  lemma CompletedPasses(m: M.Db, t: M.Db, op: Op, docs: set<M.Doc>)
    requires Tracked(m) && t.base == Complete(m.base, op) && t.snaps == m.snaps
    requires forall b | b in m.base.txs :: Trackable(m, b)
    ensures t.base.txs == m.base.txs && t.base.steps == m.base.steps + 1
    ensures forall b | b in m.base.txs :: Unmoved(m, t, b)
    ensures t.base.committed == Step(m.base.committed, op).db
  {
  }

  /** A worker's statement on a row, or a mark whose claim is lost. */
  lemma RowOpKeeps(m: M.Db, t: M.Db, log: Log, op: Op, docs: set<M.Doc>, ns: nat, no: nat)
    requires Inv(m, log, ns, no) && t.base == Complete(m.base, op) && t.snaps == m.snaps
    requires Explains(log + [op], Shadow(t, ns, no)) && Bumps(m, t, docs) && OnlyAt(m, t, docs)
    requires IsWorkerOp(op) && (op.OpSucceed? ==> Step(m.base.committed, op).reply.Err?)
    requires RowsOf(op) <= m.base.committed.outbox.Keys && docs <= set n | n in RowsOf(op) :: M.RowDoc(n)
    requires forall b, n: nat | b in m.base.txs && M.RowDoc(n) in docs :: RowLock(m.base.txs[b]) != Some(n)
    ensures Inv(t, log + [op], ns, no)
  {
    hide Explains, M.Docs, TxTracked, Placed, Missing, Inv, Step, OnlyAt, Bumps, Complete, RowsOf, RowLock;
    InvParts(m, log, ns, no);
    CompletedPasses(m, t, op, docs);
    forall b | b in m.base.txs
      ensures docs !! M.Docs(true, m.base.txs[b])
    {
      forall doc | doc in docs
        ensures doc !in M.Docs(true, m.base.txs[b])
      {
        RowDocFree(Shadow(m, ns, no), log, doc.row, b);
      }
    }
    assert Passes(m, t, docs);
    assert OneStatement(m.base.committed, op);
    SubscriptionsUntouched(m.base.committed, op);
    CompletedKeeps(m, t, log, op, docs, ns, no);
  }

  lemma Takes(m: M.Db, act: Action, ns: nat, no: nat)
    requires act.Take? && M.Do(true, m, act).Some?
    ensures var t, op := M.Do(true, m, act).value, OpClaim(act.row, act.now, act.staleBefore, act.token);
            && t.base == Complete(m.base, op) && t.snaps == m.snaps
            && Do(Shadow(m, ns, no), act) == Some(Shadow(t, ns, no))
            && RowsOf(op) <= m.base.committed.outbox.Keys
            && (forall n | n in RowsOf(op) :: RowFree(m.base, n))
            && Bumps(m, t, TakenDoc(act))
  {
    hide Eligible, Step;
    assert SkipsTo(m.base, act.row, act.now, act.staleBefore);
  }

  function TakenDoc(act: Action): set<M.Doc>
    requires act.Take?
  {
    if act.row.Some? then {M.RowDoc(act.row.value)} else {}
  }

  lemma TakesOnly(m: M.Db, t: M.Db, act: Action)
    requires act.Take? && t.base == Complete(m.base, OpClaim(act.row, act.now, act.staleBefore, act.token))
    ensures OnlyAt(m, t, TakenDoc(act))
  {
    WorkerWrites(m.base.committed, OpClaim(act.row, act.now, act.staleBefore, act.token));
    hide Eligible, Step;
  }

  lemma TakeKeeps(m: M.Db, log: Log, act: Action, ns: nat, no: nat)
    requires Inv(m, log, ns, no) && act.Take? && M.Do(true, m, act).Some?
    ensures Inv(M.Do(true, m, act).value, log + [OpClaim(act.row, act.now, act.staleBefore, act.token)], ns, no)
  {
    hide Explains, Do, M.Do, Inv, Step, OnlyAt, Bumps, Complete;
    var t, op := M.Do(true, m, act).value, OpClaim(act.row, act.now, act.staleBefore, act.token);
    InvParts(m, log, ns, no);
    Takes(m, act, ns, no);
    TakesOnly(m, t, act);
    TakeStep(Shadow(m, ns, no), log, act);
    RowOpKeeps(m, t, log, op, TakenDoc(act), ns, no);
  }

  lemma Fails(m: M.Db, act: Action, ns: nat, no: nat)
    requires act.Fail? && M.Do(true, m, act).Some?
    ensures var t, op := M.Do(true, m, act).value, OpFail(act.delivery, act.next, act.failure);
            && t.base == Complete(m.base, op) && t.snaps == m.snaps
            && Do(Shadow(m, ns, no), act) == Some(Shadow(t, ns, no)) && RowFree(m.base, act.delivery.id)
            && Bumps(m, t, FailedDoc(m, act))
  {
    hide Step, Owns;
  }

  function FailedDoc(m: M.Db, act: Action): set<M.Doc>
    requires act.Fail?
  {
    if Owns(m.base.committed, act.delivery) then {M.RowDoc(act.delivery.id)} else {}
  }

  lemma FailsOnly(m: M.Db, t: M.Db, act: Action)
    requires act.Fail? && t.base == Complete(m.base, OpFail(act.delivery, act.next, act.failure))
    ensures OnlyAt(m, t, FailedDoc(m, act))
  {
    WorkerWrites(m.base.committed, OpFail(act.delivery, act.next, act.failure));
    hide Step, Owns;
  }

  lemma FailKeeps(m: M.Db, log: Log, act: Action, ns: nat, no: nat)
    requires Inv(m, log, ns, no) && act.Fail? && M.Do(true, m, act).Some?
    ensures Inv(M.Do(true, m, act).value, log + [OpFail(act.delivery, act.next, act.failure)], ns, no)
  {
    hide Explains, Do, M.Do, Inv, Step, OnlyAt, Bumps, Complete;
    var t, op := M.Do(true, m, act).value, OpFail(act.delivery, act.next, act.failure);
    InvParts(m, log, ns, no);
    Fails(m, act, ns, no);
    FailsOnly(m, t, act);
    FailStep(Shadow(m, ns, no), log, act);
    DeliveredRow(m, log, act, ns, no);
    RowOpKeeps(m, t, log, op, FailedDoc(m, act), ns, no);
  }

  /** A worker was given the row it marks. */
  lemma DeliveredRow(m: M.Db, log: Log, act: Action, ns: nat, no: nat)
    requires Explains(log, Shadow(m, ns, no)) && (act.Fail? || act.Mark?)
    requires Do(Shadow(m, ns, no), act).Some?
    ensures act.delivery.id in m.base.committed.outbox && act.delivery in Deliveries(log)
  {
    ExplainsRun(log, Shadow(m, ns, no));
    ExplainsParts(log, Shadow(m, ns, no));
    hide Explains, Accounts, Dated, Apiece, Ahead, Step, RowFree;
    DeliverySnapshot(log, act.delivery);
  }

  // ---- first statements ----

  lemma Refuses(m: M.Db, act: Action, ns: nat, no: nat)
    requires act.Start? && M.Do(true, m, act).Some? && act.agent !in M.Do(true, m, act).value.base.txs
    requires act.request.id in m.base.committed.sticks ==> StickFree(m.base, act.request.id)
    ensures var t, op := M.Do(true, m, act).value, RequestOp(act.request);
            && t.base == Complete(m.base, op) && t.snaps == m.snaps && t.written == m.written
            && Do(Shadow(m, ns, no), act) == Some(Shadow(t, ns, no))
  {
    hide Step, Next, M.Docs;
  }

  lemma NoWrites(m: M.Db, t: M.Db, op: Op)
    requires t.base == Complete(m.base, op) && t.written == m.written
    requires Step(m.base.committed, op).db == m.base.committed
    ensures Bumps(m, t, {}) && OnlyAt(m, t, {})
  {
    hide Step;
  }

  lemma RefusalKeeps(m: M.Db, log: Log, act: Action, ns: nat, no: nat)
    requires Inv(m, log, ns, no) && act.Start? && M.Do(true, m, act).Some?
    requires act.agent !in M.Do(true, m, act).value.base.txs
    requires act.request.id in m.base.committed.sticks ==> StickFree(m.base, act.request.id)
    ensures Inv(M.Do(true, m, act).value, log + [RequestOp(act.request)], ns, no)
  {
    hide Explains, Do, M.Do, Inv, Step, OnlyAt, Bumps, Complete, M.Docs, TxTracked, Placed, Missing, StickFree;
    var s, t, op := Shadow(m, ns, no), M.Do(true, m, act).value, RequestOp(act.request);
    InvParts(m, log, ns, no);
    Refuses(m, act, ns, no);
    StartRefused(s, act);
    RefusalStep(s, log, act.request);
    RefusedWrites(m.base.committed, act.request);
    NoWrites(m, t, op);
    CompletedPasses(m, t, op, {});
    forall b | b in m.base.txs && m.base.txs[b].ChangeTx?
      ensures OffStick(op, m.base.txs[b].id)
    {
      OffRequest(s, log, act.request, b);
    }
    assert Passes(m, t, {});
    CompletedKeeps(m, t, log, op, {}, ns, no);
  }

  lemma RefusedWrites(db: Tables, request: Request)
    requires request.Change? ==> !Proceeds(db, request.id, request.expected, request.change)
    requires !request.Change? ==> ReadStick(db, request.id, request.expected).Err?
    ensures Step(db, RequestOp(request)).reply.Err? && Step(db, RequestOp(request)).db == db
    ensures RowsOf(RequestOp(request)) == {}
  {
    hide Next, Work, SaveStick, Subscribe;
    FailureRollsBack(db, RequestOp(request));
  }

  lemma OffRequest(s: Sys, log: Log, request: Request, b: Agent)
    requires Explains(log, s) && b in s.txs && s.txs[b].ChangeTx?
    requires request.id in s.committed.sticks ==> StickFree(s, request.id)
    ensures OffStick(RequestOp(request), s.txs[b].id)
  {
    hide Explains;
    LockedExists(s, log, b);
  }

  /** With the increment of zero a stick is free for a first statement as with a lock. */
  lemma ReserveIsLock(m: M.Db, act: Action)
    requires act.Start? && M.Do(true, m, act).Some? && act.request.id in m.base.committed.sticks
    ensures StickFree(m.base, act.request.id)
  {
    hide M.Docs;
    forall b | b in m.base.txs
      ensures StickLock(m.base.txs[b]) != Some(act.request.id)
    {
      DocsAre(m.base.txs[b]);
    }
  }

  /** A transaction begins: it sees what is there now. */
  ghost predicate BeginsWith(m: M.Db, t: M.Db, a: Agent, tx: Tx) {
    && a !in m.base.txs && t.base.txs == m.base.txs[a := tx] && t.base.began == m.base.began[a := m.base.steps]
    && t.snaps == m.snaps[a := Now(m)] && t.written == m.written
    && t.base.committed == m.base.committed && t.base.steps == m.base.steps + 1 && t.base.order == m.base.order
    && t.base.nextSession == m.base.nextSession && t.base.nextOutbox == m.base.nextOutbox
    && (tx.ChangeTx? ==> tx.stage.Read?)
    && (forall b | b in m.base.txs :: M.Docs(true, tx) !! M.Docs(true, m.base.txs[b]))
  }

  lemma BegunTracked(m: M.Db, t: M.Db, a: Agent, tx: Tx)
    requires Tracked(m) && BeginsWith(m, t, a, tx)
    ensures Tracked(t)
  {
    hide M.Docs, SameDoc;
    assert Now(t) == Now(m);
    forall b | b in t.base.txs
      ensures TxTracked(t, b)
    {
      if b == a {
        SeesItself(t);
      } else {
        assert TxTracked(m, b);
        assert forall doc | M.Unwritten(t, b, doc) :: M.Unwritten(m, b, doc);
      }
    }
    forall b, c | b in t.base.txs && c in t.base.txs && b != c
      ensures PairApart(t, b, c)
    {
      if b != a && c != a {
        assert PairApart(m, b, c);
      } else {
        assert b != a ==> TxTracked(m, b);
        assert c != a ==> TxTracked(m, c);
      }
    }
  }

  lemma SeesItself(m: M.Db)
    ensures forall doc :: SameDoc(Now(m), Now(m), doc)
  {
  }

  lemma BegunKeeps(m: M.Db, t: M.Db, log: Log, a: Agent, tx: Tx, ns: nat, no: nat)
    requires Inv(m, log, ns, no) && BeginsWith(m, t, a, tx) && Explains(log, Shadow(t, ns, no))
    requires tx.ChangeTx? ==> tx.id in m.base.committed.sticks
    ensures Inv(t, log, ns, no)
  {
    hide Explains, M.Docs, TxTracked;
    InvParts(m, log, ns, no);
    BegunTracked(m, t, a, tx);
    OrderSoFar(Shadow(m, ns, no), log);
    hide Tracked;
    forall b | b in t.base.txs
      ensures Trackable(t, b) && Placed(t, log, b) && Missing(t, b)
    {
      if b == a {
        BegunPlaced(m, t, log, a, tx);
      } else {
        assert Trackable(m, b) && Placed(m, log, b) && Missing(m, b);
        PlacedStill(m, t, log, b);
      }
    }
  }

  lemma BegunPlaced(m: M.Db, t: M.Db, log: Log, a: Agent, tx: Tx)
    requires BeginsWith(m, t, a, tx) && Run(log) == m.base.committed
    requires |m.base.order| == |log| && forall i | 0 <= i < |m.base.order| :: m.base.order[i] < m.base.steps
    requires tx.ChangeTx? ==> tx.id in m.base.committed.sticks
    ensures Trackable(t, a) && Placed(t, log, a) && Missing(t, a)
  {
    hide Run, OffStick, M.Docs;
    if tx.ChangeTx? {
      assert log[..|log|] == log && log[|log|..] == [];
      assert PlacedAt(t.base.order, t.base.began[a], log, |log|);
      assert StickStill(t.snaps[a], log, |log|, tx.id);
    }
  }

  lemma Started(m: M.Db, act: Action, ns: nat, no: nat) returns (tx: Tx)
    requires act.Start? && M.Do(true, m, act).Some? && act.agent in M.Do(true, m, act).value.base.txs
    requires act.agent !in m.base.txs
    requires act.request.id in m.base.committed.sticks ==> StickFree(m.base, act.request.id)
    ensures var t := M.Do(true, m, act).value;
            && Do(Shadow(m, ns, no), act) == Some(Shadow(t, ns, no))
            && t.base.txs == m.base.txs[act.agent := tx] && t.base.began == m.base.began[act.agent := m.base.steps]
            && t.snaps == m.snaps[act.agent := Now(m)] && t.written == m.written
            && t.base.committed == m.base.committed && t.base.steps == m.base.steps + 1
            && t.base.order == m.base.order
            && t.base.nextSession == m.base.nextSession && t.base.nextOutbox == m.base.nextOutbox
            && act.request.id in m.base.committed.sticks && M.Docs(true, tx) == {M.StickDoc(act.request.id)}
            && (tx.ChangeTx? ==> tx.stage.Read? && tx.id == act.request.id)
  {
    tx := M.Do(true, m, act).value.base.txs[act.agent];
    hide Step, Next, StickFree;
  }

  lemma StartKeeps(m: M.Db, log: Log, act: Action, ns: nat, no: nat) returns (after: Log)
    requires Inv(m, log, ns, no) && act.Start? && M.Do(true, m, act).Some?
    ensures Inv(M.Do(true, m, act).value, after, ns, no)
  {
    hide Explains, Do, M.Do, Inv, StickFree, M.Docs, TxTracked, Placed, Missing, Tracked;
    var s, t, a := Shadow(m, ns, no), M.Do(true, m, act).value, act.agent;
    InvParts(m, log, ns, no);
    if act.request.id in m.base.committed.sticks {
      ReserveIsLock(m, act);
    }
    NotTwice(m, act);
    if a in t.base.txs {
      var tx := Started(m, act, ns, no);
      Begins(s, log, act);
      after := log;
      forall b | b in m.base.txs
        ensures M.Docs(true, tx) !! M.Docs(true, m.base.txs[b])
      {
        FreeForAll(m, act.request.id, b);
        StickDocFree(s, log, act.request.id, b);
      }
      BegunKeeps(m, t, log, a, tx, ns, no);
    } else {
      RefusalKeeps(m, log, act, ns, no);
      after := log + [RequestOp(act.request)];
    }
  }

  lemma NotTwice(m: M.Db, act: Action)
    requires act.Start? && M.Do(true, m, act).Some?
    ensures act.agent !in m.base.txs
  {
    hide Step, Next, M.Docs;
  }

  lemma FreeForAll(m: M.Db, id: string, b: Agent)
    requires b in m.base.txs && StickFree(m.base, id)
    ensures StickLock(m.base.txs[b]) != Some(id)
  {
  }

  // ---- marks ----

  lemma Marked(m: M.Db, act: Action, ns: nat, no: nat) returns (tx: Tx)
    requires act.Mark? && M.Do(true, m, act).Some? && Owns(m.base.committed, act.delivery)
    ensures var t := M.Do(true, m, act).value;
            && Do(Shadow(m, ns, no), act) == Some(Shadow(t, ns, no)) && act.agent !in m.base.txs
            && t.base.txs == m.base.txs[act.agent := tx] && t.base.began == m.base.began[act.agent := m.base.steps]
            && t.snaps == m.snaps[act.agent := Now(m)] && t.written == m.written
            && t.base.committed == m.base.committed && t.base.steps == m.base.steps + 1
            && t.base.order == m.base.order
            && t.base.nextSession == m.base.nextSession && t.base.nextOutbox == m.base.nextOutbox
            && RowFree(m.base, act.delivery.id) && M.Docs(true, tx) == {M.RowDoc(act.delivery.id)} && tx.MarkTx?
  {
    tx := M.Do(true, m, act).value.base.txs[act.agent];
    hide Step, RowFree, Owns;
  }

  lemma LosesClaim(m: M.Db, act: Action, ns: nat, no: nat)
    requires act.Mark? && M.Do(true, m, act).Some? && !Owns(m.base.committed, act.delivery)
    ensures var t, op := M.Do(true, m, act).value, OpSucceed(act.delivery, act.at);
            && t.base == Complete(m.base, op) && t.snaps == m.snaps && t.written == m.written
            && Do(Shadow(m, ns, no), act) == Some(Shadow(t, ns, no))
            && Step(m.base.committed, op) == Outcome(m.base.committed, Err(ClaimLost))
  {
  }

  lemma MarkKeeps(m: M.Db, log: Log, act: Action, ns: nat, no: nat) returns (after: Log)
    requires Inv(m, log, ns, no) && act.Mark? && M.Do(true, m, act).Some?
    ensures Inv(M.Do(true, m, act).value, after, ns, no)
  {
    hide Explains, Do, M.Do, Inv, M.Docs, TxTracked, Placed, Missing, Tracked, RowFree, Owns, Bumps, OnlyAt, Step;
    var s, t, op := Shadow(m, ns, no), M.Do(true, m, act).value, OpSucceed(act.delivery, act.at);
    InvParts(m, log, ns, no);
    if Owns(m.base.committed, act.delivery) {
      var tx := Marked(m, act, ns, no);
      MarkBegins(s, log, act);
      DeliveredRow(m, log, act, ns, no);
      after := log;
      forall b | b in m.base.txs
        ensures M.Docs(true, tx) !! M.Docs(true, m.base.txs[b])
      {
        RowForAll(m, act.delivery.id, b);
        RowDocFree(s, log, act.delivery.id, b);
      }
      BegunKeeps(m, t, log, act.agent, tx, ns, no);
    } else {
      LosesClaim(m, act, ns, no);
      LostMarkStep(s, log, act);
      DeliveredRow(m, log, act, ns, no);
      NoWrites(m, t, op);
      after := log + [op];
      RowOpKeeps(m, t, log, op, {}, ns, no);
    }
  }

  lemma RowForAll(m: M.Db, n: nat, b: Agent)
    requires b in m.base.txs && RowFree(m.base, n)
    ensures RowLock(m.base.txs[b]) != Some(n)
  {
  }

  // ---- giving up ----

  lemma Aborted(m: M.Db, a: Agent, ns: nat, no: nat)
    requires M.Do(true, m, Abort(a)).Some?
    ensures var t := M.Do(true, m, Abort(a)).value;
            && t.snaps == m.snaps && t.written == m.written && a in m.base.txs
            && t.base == m.base.(txs := m.base.txs - {a}, steps := m.base.steps + 1)
  {
  }

  lemma AbortKeeps(m: M.Db, log: Log, a: Agent, ns: nat, no: nat)
    requires Inv(m, log, ns, no) && M.Do(true, m, Abort(a)).Some?
    ensures Inv(M.Do(true, m, Abort(a)).value, log, ns, no)
  {
    hide Explains, M.Docs, SameDoc, RowsOf, M.Do, Placed, Missing, TxTracked, PairApart;
    var t := M.Do(true, m, Abort(a)).value;
    Aborted(m, a, ns, no);
    AbortStep(Shadow(m, ns, no), log, a);
    forall b | b in t.base.txs
      ensures TxTracked(t, b) && Trackable(t, b) && Placed(t, log, b) && Missing(t, b)
    {
      assert Trackable(m, b) && TxTracked(m, b) && Placed(m, log, b) && Missing(m, b);
      Abides(m, t, log, a, b);
    }
    forall b, c | b in t.base.txs && c in t.base.txs && b != c
      ensures PairApart(t, b, c)
    {
      assert PairApart(m, b, c);
      PairStays(m, t, b, c);
    }
  }

  lemma PairStays(m: M.Db, t: M.Db, b: Agent, c: Agent)
    requires PairApart(m, b, c) && Unmoved(m, t, b) && Unmoved(m, t, c)
    ensures PairApart(t, b, c)
  {
    hide M.Docs;
  }

  lemma Abides(m: M.Db, t: M.Db, log: Log, a: Agent, b: Agent)
    requires t.snaps == m.snaps && t.written == m.written && b in t.base.txs
    requires t.base == m.base.(txs := m.base.txs - {a}, steps := m.base.steps + 1)
    requires Trackable(m, b) && TxTracked(m, b) && Placed(m, log, b) && Missing(m, b)
    ensures TxTracked(t, b) && Trackable(t, b) && Placed(t, log, b) && Missing(t, b)
  {
    hide M.Docs, SameDoc;
    assert forall doc | M.Unwritten(t, b, doc) :: M.Unwritten(m, b, doc);
    PlacedStill(m, t, log, b);
  }

  // ---- the statements in between ----

  /** A statement that meets no other write. */
  ghost predicate Wrote(m: M.Db, t: M.Db, a: Agent, tx: Tx) {
    && a in m.base.txs && a in m.base.began
    && t == m.(base := Put(m.base, a, tx))
    && M.NoConflict(true, m, a, M.Docs(true, tx) - M.Docs(true, m.base.txs[a]))
  }

  /** The transaction goes on as it began. */
  ghost predicate Succeeds(m: M.Db, a: Agent, before: Tx, tx: Tx)
    requires a in m.base.began && a in m.snaps
  {
    && StickLock(tx) == StickLock(before) && TokenIn(tx) == TokenIn(before)
    && (before.ChangeTx? <==> tx.ChangeTx?)
    && (before.UnfollowTx? <==> tx.UnfollowTx?) && (tx.UnfollowTx? ==> tx.subject == before.subject)
    && (before.MarkTx? <==> tx.MarkTx?) && (tx.MarkTx? ==> tx.delivery == before.delivery)
    && (forall at | at in InstantIn(tx) :: at == m.base.began[a])
    && (tx.ChangeTx? && tx.stage.Opened? ==> tx.stage.session == m.snaps[a].nextSession)
    && (tx.ChangeTx? && tx.stage.Enqueued? ==>
          forall n | n in tx.stage.rows :: m.snaps[a].nextOutbox <= n < m.snaps[a].nextOutbox + |tx.stage.grant|)
  }

  lemma LocksApart(tx: Tx, other: Tx)
    requires M.Docs(true, tx) !! M.Docs(true, other)
    ensures StickLock(tx).Some? ==> StickLock(tx) != StickLock(other)
    ensures KeyLock(tx).Some? ==> KeyLock(tx) != KeyLock(other)
    ensures RowLock(tx).Some? ==> RowLock(tx) != RowLock(other)
    ensures SessionIn(tx) == {} || SessionIn(other) == {}
    ensures RowsIn(tx) == {} || RowsIn(other) == {}
  {
    hide M.Docs, StickLock, KeyLock, RowLock, SessionIn, RowsIn;
    DocsAre(tx);
    DocsAre(other);
    if StickLock(tx).Some? {
      assert M.StickDoc(StickLock(tx).value) in M.Docs(true, tx);
    }
    if KeyLock(tx).Some? {
      assert M.KeyDoc(KeyLock(tx).value) in M.Docs(true, tx);
    }
    if RowLock(tx).Some? {
      assert M.RowDoc(RowLock(tx).value) in M.Docs(true, tx);
    }
  }

  /** Different documents and different beginnings keep two transactions separate. */
  lemma DocsSeparate(tx: Tx, other: Tx)
    requires M.Docs(true, tx) !! M.Docs(true, other)
    requires TokenIn(tx) !! TokenIn(other) && InstantIn(tx) !! InstantIn(other)
    ensures Separate(tx, other) && Separate(other, tx)
  {
    hide M.Docs, StickLock, KeyLock, RowLock, SessionIn, RowsIn, TokenIn, InstantIn;
    LocksApart(tx, other);
    LocksApart(other, tx);
  }

  lemma WroteApart(m: M.Db, t: M.Db, a: Agent, tx: Tx, b: Agent)
    requires Wrote(m, t, a, tx) && b in m.base.txs && b != a && PairApart(m, a, b)
    ensures M.Docs(true, tx) !! M.Docs(true, m.base.txs[b])
  {
    var before := M.Docs(true, m.base.txs[a]);
    assert M.Docs(true, tx) <= (M.Docs(true, tx) - before) + before;
    hide M.Docs;
  }

  lemma WroteTracked(m: M.Db, t: M.Db, a: Agent, tx: Tx)
    requires Tracked(m) && Wrote(m, t, a, tx) && a in m.snaps && Succeeds(m, a, m.base.txs[a], tx)
    ensures Tracked(t)
  {
    hide M.Docs, SameDoc;
    assert Now(t) == Now(m);
    forall b | b in t.base.txs
      ensures TxTracked(t, b)
    {
      assert TxTracked(m, b);
      assert forall doc | M.Unwritten(t, b, doc) :: M.Unwritten(m, b, doc);
      assert forall doc | M.Unwritten(m, b, doc) :: M.Unwritten(t, b, doc);
    }
    forall b, c | b in t.base.txs && c in t.base.txs && b != c
      ensures PairApart(t, b, c)
    {
      assert PairApart(m, b, c) && PairApart(m, c, b);
      if b == a {
        WroteApart(m, t, a, tx, c);
      } else if c == a {
        WroteApart(m, t, a, tx, b);
      }
    }
  }

  lemma InstantsApart(m: M.Db, log: Log, a: Agent, tx: Tx, b: Agent, ns: nat, no: nat)
    requires Inv(m, log, ns, no) && a in m.base.txs && b in m.base.txs && a != b
    requires a in m.base.began && a in m.snaps && Succeeds(m, a, m.base.txs[a], tx)
    ensures InstantIn(tx) !! InstantIn(m.base.txs[b]) && TokenIn(tx) !! TokenIn(m.base.txs[b])
  {
    InvParts(m, log, ns, no);
    ExplainsParts(log, Shadow(m, ns, no));
    hide Explains, M.Docs, Inv, Placed, Missing, SameDoc, Dated, Accounts, Ahead;
    assert PairApart(m, a, b);
    assert Separate(Shadow(m, ns, no).txs[a], Shadow(m, ns, no).txs[b]);
    assert TxTracked(m, b);
  }

  lemma WroteExplains(m: M.Db, t: M.Db, log: Log, a: Agent, tx: Tx, ns: nat, no: nat, ns2: nat, no2: nat)
    requires Inv(m, log, ns, no) && Wrote(m, t, a, tx) && a in m.snaps && Succeeds(m, a, m.base.txs[a], tx)
    requires ns <= ns2 && no <= no2 && TxOk(Shadow(t, ns2, no2), log, tx)
    ensures Explains(log, Shadow(t, ns2, no2))
  {
    hide Explains, M.Docs, Inv, Placed, Missing, TxTracked, TxOk, Separate, Succeeds, M.NoConflict;
    var s := Shadow(m, ns, no);
    InvParts(m, log, ns, no);
    forall b | b in s.txs && b != a
      ensures Separate(tx, s.txs[b]) && Separate(s.txs[b], tx)
    {
      assert PairApart(m, a, b);
      WroteApart(m, t, a, tx, b);
      InstantsApart(m, log, a, tx, b, ns, no);
      DocsSeparate(tx, s.txs[b]);
    }
    assert LocalMove(s, Shadow(t, ns2, no2), a) by {
      assert forall at | at in InstantIn(tx) :: at == m.base.began[a] by {
        InstantsOf(m, a, tx);
      }
    }
    LocalStep(s, Shadow(t, ns2, no2), log, a);
  }

  lemma InstantsOf(m: M.Db, a: Agent, tx: Tx)
    requires a in m.base.txs && a in m.base.began && a in m.snaps && Succeeds(m, a, m.base.txs[a], tx)
    ensures forall at | at in InstantIn(tx) :: at == m.base.began[a]
  {
  }

  lemma WroteKeeps(m: M.Db, t: M.Db, log: Log, a: Agent, tx: Tx, ns: nat, no: nat, ns2: nat, no2: nat)
    requires Inv(m, log, ns, no) && Wrote(m, t, a, tx) && a in m.snaps && Succeeds(m, a, m.base.txs[a], tx)
    requires ns <= ns2 && no <= no2 && TxOk(Shadow(t, ns2, no2), log, tx)
    ensures Inv(t, log, ns2, no2)
  {
    hide Inv, Explains, M.Docs, TxTracked, TxOk, Tracked, M.NoConflict, Placed, Missing, Succeeds;
    InvParts(m, log, ns, no);
    InvBounds(m, log, ns, no);
    WroteExplains(m, t, log, a, tx, ns, no, ns2, no2);
    WroteTracked(m, t, a, tx);
    forall b | b in t.base.txs
      ensures Trackable(t, b) && Placed(t, log, b) && Missing(t, b)
    {
      assert Trackable(m, b) && Placed(m, log, b) && Missing(m, b);
      WroteSpares(m, t, log, a, tx, b);
    }
    InvFrom(t, log, ns2, no2);
  }

  lemma WroteSpares(m: M.Db, t: M.Db, log: Log, a: Agent, tx: Tx, b: Agent)
    requires Wrote(m, t, a, tx) && a in m.snaps && Succeeds(m, a, m.base.txs[a], tx) && b in m.base.txs
    requires Trackable(m, b) && Placed(m, log, b) && Missing(m, b)
    ensures Trackable(t, b) && Placed(t, log, b) && Missing(t, b)
  {
    hide StickStill, PlacedAt, M.NoConflict, HasGeneration;
  }

  lemma OkNow(m: M.Db, log: Log, a: Agent, ns: nat, no: nat)
    requires Inv(m, log, ns, no) && a in m.base.txs
    ensures TxOk(Shadow(m, ns, no), log, m.base.txs[a]) && Run(log) == m.base.committed && ValidRun(log)
    ensures Trackable(m, a) && TxTracked(m, a) && Missing(m, a) && Placed(m, log, a)
  {
    hide Explains, TxOk, TxTracked, Placed, Missing, Inv;
    InvParts(m, log, ns, no);
    TxOkOf(Shadow(m, ns, no), log, a);
  }

  /** A document just written agrees with the snapshot. */
  lemma WrittenAgrees(m: M.Db, t: M.Db, a: Agent, tx: Tx, doc: M.Doc)
    requires Wrote(m, t, a, tx) && TxTracked(m, a) && doc in M.Docs(true, tx)
    ensures SameDoc(Now(m), m.snaps[a], doc)
  {
    hide M.Docs, SameDoc;
    assert M.Unwritten(m, a, doc);
  }

  lemma Saves(m: M.Db, act: Action)
    requires act.Save? && M.Do(true, m, act).Some?
    ensures var a := act.agent;
            && a in m.base.txs && a in m.base.began && a in m.snaps && m.base.txs[a].ChangeTx?
            && m.base.txs[a].stage.Read?
            && Wrote(m, M.Do(true, m, act).value, a, m.base.txs[a].(stage := Saved))
  {
    hide M.NoConflict, SaveStick, M.See;
  }

  lemma SaveKeeps(m: M.Db, log: Log, act: Action, ns: nat, no: nat)
    requires Inv(m, log, ns, no) && act.Save? && M.Do(true, m, act).Some?
    ensures Inv(M.Do(true, m, act).value, log, ns, no)
  {
    hide Explains, M.Do, Inv, TxTracked, Placed, Missing, Wrote, Run, Next, Proceeds;
    Saves(m, act);
    OkNow(m, log, act.agent, ns, no);
    var t, tx := M.Do(true, m, act).value, m.base.txs[act.agent].(stage := Saved);
    WroteKeeps(m, t, log, act.agent, tx, ns, no, ns, no);
  }

  lemma Opens(m: M.Db, act: Action)
    requires act.Open? && M.Do(true, m, act).Some?
    ensures var a := act.agent;
            && a in m.base.txs && a in m.base.began && a in m.snaps && m.base.txs[a].ChangeTx?
            && m.base.txs[a].stage.Saved? && m.base.txs[a].change.Claim?
            && Wrote(m, M.Do(true, m, act).value, a, m.base.txs[a].(stage := Opened(m.snaps[a].nextSession)))
  {
    hide M.NoConflict, OpenSessions, M.See;
  }

  lemma OpenKeeps(m: M.Db, log: Log, act: Action, ns: nat, no: nat)
    requires Inv(m, log, ns, no) && act.Open? && M.Do(true, m, act).Some?
    ensures Inv(M.Do(true, m, act).value, log, ns + 1, no)
  {
    hide Explains, M.Do, TxTracked, Placed, Missing, Wrote, Run, Next, Proceeds;
    Opens(m, act);
    OkNow(m, log, act.agent, ns, no);
    var t, a := M.Do(true, m, act).value, act.agent;
    var tx := m.base.txs[a].(stage := Opened(m.snaps[a].nextSession));
    WrittenAgrees(m, t, a, tx, M.SessionCounter);
    assert m.snaps[a].nextSession == m.base.nextSession;
    hide Inv;
    WroteKeeps(m, t, log, a, tx, ns, no, ns + 1, no);
  }

  lemma Closing(m: M.Db, act: Action)
    requires act.Close? && M.Do(true, m, act).Some?
    ensures var a := act.agent;
            && a in m.base.txs && a in m.base.began && a in m.snaps && m.base.txs[a].ChangeTx?
            && m.base.txs[a].stage.Saved? && m.base.txs[a].change.Release?
            && var tx, sessions := m.base.txs[a], m.snaps[a].tables.sessions;
            && act.session in sessions && IsOpenBy(m.snaps[a].tables, act.session, tx.id, tx.change.subject)
            && Wrote(m, M.Do(true, m, act).value, a,
                     tx.(stage := Closed(act.session,
                                         sessions[act.session].(releasedAt := Some(tx.change.releasedAt)))))
  {
    var a := act.agent;
    var tx := m.base.txs[a];
    ViewAtStart(m.base.(committed := m.snaps[a].tables), tx);
    assert M.See(m, a).sessions == m.snaps[a].tables.sessions;
    assert act.session in OpenSessionsBy(M.See(m, a), tx.id, tx.change.subject);
    hide M.NoConflict, M.See;
  }

  lemma CloseKeeps(m: M.Db, log: Log, act: Action, ns: nat, no: nat)
    requires Inv(m, log, ns, no) && act.Close? && M.Do(true, m, act).Some?
    ensures Inv(M.Do(true, m, act).value, log, ns, no)
  {
    hide Explains, M.Do, Inv, TxTracked, Placed, Missing, Wrote, Run, Next, Proceeds;
    Closing(m, act);
    OkNow(m, log, act.agent, ns, no);
    var t, a := M.Do(true, m, act).value, act.agent;
    var closed := m.snaps[a].tables.sessions[act.session].(releasedAt := Some(m.base.txs[a].change.releasedAt));
    var tx := m.base.txs[a].(stage := Closed(act.session, closed));
    WrittenAgrees(m, t, a, tx, M.SessionDoc(act.session));
    ReachableConsistent(log);
    OnlyOpenSession(m.base.committed, act.session, tx.id);
    hide Consistent, IsOpen;
    WroteKeeps(m, t, log, a, tx, ns, no, ns, no);
  }

  lemma OnlyOpenSession(db: Tables, k: nat, id: string)
    requires Consistent(db) && IsOpen(db, k, id)
    ensures HasOpenSession(db, id) && OpenSession(db, id) == k
  {
  }

  // ---- subscriptions ----

  lemma WritesKey(m: M.Db, act: Action) returns (tx: Tx)
    requires act.Write? && M.Do(true, m, act).Some?
    ensures var a := act.agent;
            && a in m.base.txs && a in m.base.began && a in m.snaps
            && Wrote(m, M.Do(true, m, act).value, a, tx)
            && match m.base.txs[a]
               case FollowTx(id, identity, expected, token, _) => tx == FollowTx(id, identity, expected, token, true)
               case UnfollowTx(id, subject, expected, false, _) =>
                 tx == UnfollowTx(id, subject, expected, true, Key(id, subject) in m.snaps[a].tables.subscriptions)
               case _ => false
  {
    var a := act.agent;
    tx := M.Do(true, m, act).value.base.txs[a];
    if m.base.txs[a].UnfollowTx? {
      assert M.See(m, a).subscriptions == m.snaps[a].tables.subscriptions;
    }
    hide M.NoConflict, M.See, Subscribe;
  }

  lemma WriteKeeps(m: M.Db, log: Log, act: Action, ns: nat, no: nat)
    requires Inv(m, log, ns, no) && act.Write? && M.Do(true, m, act).Some?
    ensures Inv(M.Do(true, m, act).value, log, ns, no)
  {
    hide Explains, M.Do, Inv, TxTracked, Placed, M.NoConflict, Run;
    var tx := WritesKey(m, act);
    OkNow(m, log, act.agent, ns, no);
    WriteOkNow(m, M.Do(true, m, act).value, log, act.agent, tx, ns, no);
    hide TxOk;
    WroteKeeps(m, M.Do(true, m, act).value, log, act.agent, tx, ns, no, ns, no);
  }

  lemma WriteOkNow(m: M.Db, t: M.Db, log: Log, a: Agent, tx: Tx, ns: nat, no: nat)
    requires Trackable(m, a) && TxOk(Shadow(m, ns, no), log, m.base.txs[a]) && Missing(m, a)
    requires Run(log) == m.base.committed && t.base.drawn == m.base.drawn
    requires match m.base.txs[a]
             case FollowTx(id, identity, expected, token, _) => tx == FollowTx(id, identity, expected, token, true)
             case UnfollowTx(id, subject, expected, false, _) =>
               tx == UnfollowTx(id, subject, expected, true, Key(id, subject) in m.snaps[a].tables.subscriptions)
             case _ => false
    ensures TxOk(Shadow(t, ns, no), log, tx)
  {
    hide Run;
  }

  lemma Deletes(m: M.Db, act: Action) returns (tx: Tx)
    requires act.Delete? && M.Do(true, m, act).Some?
    requires act.agent in m.base.txs && m.base.txs[act.agent].MarkTx? && m.base.txs[act.agent].hit ==>
               m.base.txs[act.agent].deleted
    ensures var a := act.agent;
            && a in m.base.txs && a in m.base.began && a in m.snaps
            && Wrote(m, M.Do(true, m, act).value, a, tx)
            && match m.base.txs[a]
               case MarkTx(delivery, at, row, false, _) =>
                 var key, generation := delivery.snapshot.Recipient(), delivery.snapshot.generation;
                 tx == MarkTx(delivery, at, row, true, HasGeneration(m.snaps[a].tables, key, generation))
               case _ => false
  {
    var a := act.agent;
    tx := M.Do(true, m, act).value.base.txs[a];
    assert M.See(m, a).subscriptions == m.snaps[a].tables.subscriptions;
    hide M.NoConflict, M.See;
  }

  lemma DeleteKeeps(m: M.Db, log: Log, act: Action, ns: nat, no: nat)
    requires Inv(m, log, ns, no) && act.Delete? && M.Do(true, m, act).Some?
    ensures Inv(M.Do(true, m, act).value, log, ns, no)
  {
    hide Explains, M.Do, Inv, TxTracked, Placed, Wrote, Run, Owns;
    if act.agent in m.base.txs {
      OkNow(m, log, act.agent, ns, no);
    }
    var tx := Deletes(m, act);
    if tx.hit {
      WrittenAgrees(m, M.Do(true, m, act).value, act.agent, tx, M.KeyDoc(tx.delivery.snapshot.Recipient()));
    }
    WroteKeeps(m, M.Do(true, m, act).value, log, act.agent, tx, ns, no, ns, no);
  }

  // ---- the rows of a release ----

  /** What does not happen to a stick leaves it and its open session alone. */
  lemma {:induction false} Unchanged(log: Log, k: nat, id: string)
    requires ValidRun(log) && k <= |log| && id in Run(log[..k]).sticks
    requires forall e | e in log[k..] :: OffStick(e, id)
    ensures var db, later := Run(log[..k]), Run(log);
            && id in later.sticks && later.sticks[id] == db.sticks[id]
            && (forall j: nat :: IsOpen(later, j, id) <==> IsOpen(db, j, id))
            && (forall j: nat | IsOpen(db, j, id) :: later.sessions[j] == db.sessions[j])
  {
    if k == |log| {
      assert log[..k] == log;
    } else {
      var front, op := log[..|log| - 1], log[|log| - 1];
      assert front[..k] == log[..k] && log == front + [op];
      assert log[k..] == front[k..] + [op];
      hide Run, OffStick, IsOpen;
      Snoc(front, op);
      Unchanged(front, k, id);
      OffStickFrame(front, op, id);
    }
  }

  lemma SameSession(db: Tables, later: Tables, id: string)
    requires Consistent(db) && Consistent(later) && HasOpenSession(later, id)
    requires forall j: nat :: IsOpen(later, j, id) <==> IsOpen(db, j, id)
    requires forall j: nat | IsOpen(db, j, id) :: later.sessions[j] == db.sessions[j]
    ensures HasOpenSession(db, id) && OpenSession(db, id) == OpenSession(later, id)
    ensures db.sessions[OpenSession(db, id)] == later.sessions[OpenSession(db, id)]
  {
    assert IsOpen(later, OpenSession(later, id), id);
    assert IsOpen(db, OpenSession(later, id), id);
    OnlyOpenSession(db, OpenSession(later, id), id);
  }

  lemma SameSubscribersAssign(db: Tables, seen: Tables, id: string, rows: map<nat, Key>)
    requires SameSubscribers(db, seen, id) && Assigns(seen, id, rows) && rows.Keys !! db.outbox.Keys
    ensures Assigns(db, id, rows)
  {
    assert forall key :: SubscribedTo(db, key, id) <==> SubscribedTo(seen, key, id);
  }

  lemma SameSubscribersRows(
    db: Tables, seen: Tables, before: Stick, holder: Holder, at: Time, id: string, rows: map<nat, Key>)
    requires SameSubscribers(db, seen, id) && Assigns(seen, id, rows)
    ensures NewRows(db, before, holder, at, rows) == NewRows(seen, before, holder, at, rows)
  {
    assert forall n | n in rows ::
        SubscribedTo(seen, rows[n], id) && SameAt(db.subscriptions, seen.subscriptions, rows[n]);
  }

  /** What a release knows of its stick before it enqueues. */
  ghost predicate ReadyToEnqueue(db: Tables, tx: Tx) {
    && tx.ChangeTx? && tx.stage.Closed? && tx.change.Release? && tx.before.id == tx.id && tx.before.holder.Some?
    && Proceeds(db, tx.id, tx.expected, tx.change) && db.sticks[tx.id] == tx.before
    && Next(tx.before, tx.change) == Ok(tx.next)
    && HasOpenSession(db, tx.id) && tx.stage.session == OpenSession(db, tx.id)
    && tx.stage.closed == db.sessions[tx.stage.session].(releasedAt := Some(tx.change.releasedAt))
  }

  lemma ReadyThen(log: Log, k: nat, seen: M.Snap, tx: Tx)
    requires tx.ChangeTx? && ValidRun(log) && StickStill(seen, log, k, tx.id) && ReadyToEnqueue(Run(log), tx)
    ensures ReadyToEnqueue(Run(log[..k]), tx)
  {
    hide Run, Step, ValidRun, Next, Consistent, OffStick, SameSubscribers, IsOpen;
    PrefixValid(log, k);
    ReachableConsistent(log);
    ReachableConsistent(log[..k]);
    Unchanged(log, k, tx.id);
    SameSession(Run(log[..k]), Run(log), tx.id);
    hide HasOpenSession, OpenSession;
  }

  /** The rows the release makes from what it sees. */
  ghost predicate MakesRows(seen: Tables, tx: Tx, done: Tx) {
    && tx.ChangeTx? && tx.stage.Closed? && tx.change.Release? && tx.before.holder.Some?
    && done.ChangeTx? && done.stage.Enqueued? && done == tx.(stage := done.stage)
    && done.stage.session == tx.stage.session && done.stage.closed == tx.stage.closed
    && Assigns(seen, tx.id, done.stage.grant)
    && done.stage.rows == NewRows(seen, tx.before, tx.before.holder.value, tx.change.releasedAt, done.stage.grant)
  }

  lemma MakesThem(db: Tables, seen: Tables, tx: Tx, done: Tx)
    requires Consistent(db) && ReadyToEnqueue(db, tx) && MakesRows(seen, tx, done)
    requires SameSubscribers(db, seen, tx.id) && done.stage.grant.Keys !! db.outbox.Keys
    ensures Step(db, OpOf(done)) == Outcome(Overlay(db, WritesOf(done).ToDelta()), Ok(GotStick(done.next)))
    ensures Fits(db, WritesOf(done)) && done.stage.rows.Keys == done.stage.grant.Keys
    ensures Assigns(db, done.id, done.stage.grant)
  {
    hide Step, Next, Assigns, NewRows, Fits, Overlay, Consistent, SameSubscribers, HasOpenSession, Proceeds;
    SameSubscribersAssign(db, seen, tx.id, done.stage.grant);
    SameSubscribersRows(db, seen, tx.before, tx.before.holder.value, tx.change.releasedAt, tx.id, done.stage.grant);
    EnqueueIsRelease(db, done);
  }

  /** The release can be put into the log where its snapshot was taken. */
  lemma FitsWhereSeen(log: Log, k: nat, seen: M.Snap, tx: Tx, done: Tx)
    requires tx.ChangeTx? && ValidRun(log) && StickStill(seen, log, k, tx.id) && RowsKnown(log, Run(log))
    requires ReadyToEnqueue(Run(log), tx) && MakesRows(seen.tables, tx, done)
    requires done.stage.grant.Keys !! Run(log).outbox.Keys
    ensures InsertableAt(log, k, OpOf(done), WritesOf(done)) && done.stage.rows.Keys == done.stage.grant.Keys
  {
    hide Run, Step, ValidRun, Fits, Overlay, Consistent, OffStick, SameSubscribers, ReadyToEnqueue, MakesRows;
    OutboxOfPrefix(log, k);
    ReachableConsistent(log[..k]);
    ReadyThen(log, k, seen, tx);
    MadeFacts(seen.tables, tx, done);
    MakesThem(Run(log[..k]), seen.tables, tx, done);
    ReleaseAdmissible(log[..k], OpOf(done));
    Snoc(log[..k], OpOf(done));
    forall e | e in log[k..]
      ensures Apart(e, WritesOf(done))
    {
      assert e in log;
      KeepsOff(e, WritesOf(done), Run(log));
    }
  }

  lemma MadeFacts(seen: Tables, tx: Tx, done: Tx)
    requires MakesRows(seen, tx, done)
    ensures done.ChangeTx? && done.stage.Enqueued? && done.change.Release? && done.id == tx.id && done.next == tx.next
    ensures OpOf(done) == OpTransition(done.id, done.expected, done.change, Grant(0, done.stage.grant))
    ensures WritesOf(done).id == done.id && WritesOf(done).next == done.next && WritesOf(done).rows == done.stage.rows
  {
  }

  lemma KeepsOff(e: Op, writes: Writes, db: Tables)
    requires OffStick(e, writes.id) && RowsOf(e) <= db.outbox.Keys && writes.rows.Keys !! db.outbox.Keys
    ensures Apart(e, writes)
  {
  }

  predicate CanEnqueue(m: M.Db, a: Agent) {
    && Trackable(m, a) && m.base.txs[a].ChangeTx? && m.base.txs[a].stage.Closed? && m.base.txs[a].change.Release?
    && m.base.txs[a].before.holder.Some?
  }

  lemma Enqueuing(m: M.Db, act: Action)
    requires act.Enqueue? && M.Do(true, m, act).Some?
    ensures var a := act.agent;
            && CanEnqueue(m, a) && Wrote(m, M.Do(true, m, act).value, a, M.WithRows(m, a, act.rows))
            && Assigns(M.See(m, a), m.base.txs[a].before.id, act.rows)
            && forall n | n in act.rows :: m.snaps[a].nextOutbox <= n < m.snaps[a].nextOutbox + |act.rows|
  {
    hide M.NoConflict, M.See, Assigns, M.WithRows;
  }

  /** The view of a release that has not enqueued shows the subscriptions of its snapshot. */
  lemma RowsFromSnapshot(m: M.Db, a: Agent, rows: map<nat, Key>)
    requires CanEnqueue(m, a) && Assigns(M.See(m, a), m.base.txs[a].before.id, rows)
    requires m.base.txs[a].before.id == m.base.txs[a].id
    ensures var done := M.WithRows(m, a, rows);
            && MakesRows(m.snaps[a].tables, m.base.txs[a], done) && done.stage.Enqueued? && done.stage.grant == rows
            && done.stage.instant == m.base.began[a] && done.stage.rows.Keys == rows.Keys
  {
    var tx, seen := m.base.txs[a], m.snaps[a].tables;
    ViewAtStart(m.base.(committed := seen), tx);
    assert M.See(m, a).subscriptions == seen.subscriptions && M.See(m, a).outbox == seen.outbox;
    hide M.See, Assigns, NewRows;
    SameAssignment(seen, M.See(m, a), tx.id, rows);
    SameNewRows(seen, M.See(m, a), tx.before, tx.before.holder.value, tx.change.releasedAt, rows);
    AssignedRows(seen, tx.before, tx.before.holder.value, tx.change.releasedAt, tx.id, rows);
  }

  lemma RowsAreNew(m: M.Db, t: M.Db, a: Agent, done: Tx)
    requires Wrote(m, t, a, done) && a in m.snaps && TxTracked(m, a) && Counted(m.base)
    requires done.ChangeTx? && done.stage.Enqueued? && done.stage.rows.Keys == done.stage.grant.Keys
    requires forall n | n in done.stage.rows :: m.snaps[a].nextOutbox <= n < m.snaps[a].nextOutbox + |done.stage.grant|
    ensures done.stage.grant.Keys !! m.base.committed.outbox.Keys
    ensures forall n | n in done.stage.rows :: n < m.base.nextOutbox + |done.stage.grant|
  {
    DocsAre(done);
    hide M.Docs, TxTracked;
    if n :| n in done.stage.rows {
      assert n in RowsIn(done);
      WrittenAgrees(m, t, a, done, M.OutboxCounter);
    }
  }

  lemma ReadyNow(s: Sys, log: Log, tx: Tx)
    requires ValidRun(log) && TxOk(s, log, tx) && tx.ChangeTx? && tx.stage.Closed? && tx.before.holder.Some?
    ensures ReadyToEnqueue(Run(log), tx) && ChangeOk(s, log, tx)
  {
    hide TxOk, ChangeOk, Run, Next;
    ChangeTxOk(s, log, tx);
    ClosedFacts(s, log, tx);
  }

  lemma EnqueueKeeps(m: M.Db, log: Log, act: Action, ns: nat, no: nat)
    requires Inv(m, log, ns, no) && act.Enqueue? && M.Do(true, m, act).Some?
    ensures Inv(M.Do(true, m, act).value, log, ns, no + |act.rows|)
  {
    hide Explains, M.Do, TxTracked, Missing, Wrote, Run, Next, Proceeds, Insertable, InsertableAt, StickStill, PlacedAt;
    hide TxOk, ChangeOk, ReadyToEnqueue, MakesRows, OpOf, WritesOf, M.Docs, ValidRun, Tracked, RowsKnown, M.WithRows;
    hide M.See, Assigns;
    var a, t, no2 := act.agent, M.Do(true, m, act).value, no + |act.rows|;
    Enqueuing(m, act);
    OkNow(m, log, a, ns, no);
    var tx := m.base.txs[a];
    ReadyNow(Shadow(m, ns, no), log, tx);
    ReadyId(m.base.committed, tx);
    var done := M.WithRows(m, a, act.rows);
    RowsFromSnapshot(m, a, act.rows);
    MadeFacts(m.snaps[a].tables, tx, done);
    MadeFrom(m.snaps[a].tables, tx, done);
    RowsAreNew(m, t, a, done);
    var k: nat :| PlacedAt(m.base.order, m.base.began[a], log, k) && StickStill(m.snaps[a], log, k, tx.id);
    FitsWhereSeen(log, k, m.snaps[a], tx, done);
    assert Insertable(m.base.order, done.stage.instant, log, OpOf(done), WritesOf(done)) by {
      InsertableFrom(m.base.order, done.stage.instant, log, k, OpOf(done), WritesOf(done));
    }
    PutSteps(m, t, a, done);
    EnqueuedOk(Shadow(m, ns, no), Shadow(t, ns, no2), log, tx, done);
    TxOkFrom(Shadow(t, ns, no2), log, done);
    EnqueuedSucceeds(m, a, tx, done);
    hide Inv;
    WroteKeeps(m, t, log, a, done, ns, no, ns, no2);
  }

  lemma ReadyId(db: Tables, tx: Tx)
    requires ReadyToEnqueue(db, tx)
    ensures tx.ChangeTx? && tx.stage.Closed? && tx.before.id == tx.id
  {
  }

  lemma MadeFrom(seen: Tables, tx: Tx, done: Tx)
    requires MakesRows(seen, tx, done)
    ensures done == tx.(stage := done.stage)
  {
  }

  lemma InsertableFrom(order: seq<nat>, instant: nat, log: Log, k: nat, op: Op, writes: Writes)
    requires PlacedAt(order, instant, log, k) && InsertableAt(log, k, op, writes)
    ensures Insertable(order, instant, log, op, writes)
  {
  }

  lemma PutSteps(m: M.Db, t: M.Db, a: Agent, tx: Tx)
    requires Wrote(m, t, a, tx) && TxTracked(m, a)
    ensures t.base.order == m.base.order && t.base.steps == m.base.steps + 1 && m.base.began[a] < m.base.steps
  {
    hide M.NoConflict, M.Docs, SameDoc;
  }

  lemma TxOkFrom(s: Sys, log: Log, tx: Tx)
    requires tx.ChangeTx? && ChangeOk(s, log, tx)
    ensures TxOk(s, log, tx)
  {
    hide ChangeOk;
  }

  lemma EnqueuedSucceeds(m: M.Db, a: Agent, tx: Tx, done: Tx)
    requires a in m.base.began && a in m.snaps && tx.ChangeTx? && done.ChangeTx? && done.stage.Enqueued?
    requires done == tx.(stage := done.stage) && done.stage.instant == m.base.began[a]
    requires forall n | n in done.stage.rows :: m.snaps[a].nextOutbox <= n < m.snaps[a].nextOutbox + |done.stage.grant|
    ensures Succeeds(m, a, tx, done)
  {
  }

  // ---- commits ----

  lemma Commits(m: M.Db, a: Agent, ns: nat, no: nat)
    requires M.Do(true, m, Commit(a)).Some?
    ensures Trackable(m, a) && AllDone(m.base.txs[a])
    ensures var t, tx := M.Do(true, m, Commit(a)).value, m.base.txs[a];
            && Do(Shadow(m, ns, no), Commit(a)) == Some(Shadow(t, ns, no))
            && t.snaps == m.snaps && Bumps(m, t, M.Docs(true, tx))
            && t.base.txs == m.base.txs - {a} && t.base.began == m.base.began && t.base.steps == m.base.steps + 1
            && t.base.committed == Overlay(m.base.committed, DeltaOf(tx))
            && t.base.order == Inserted(m.base.order, InstantOf(m.base, tx))
            && t.base.nextSession
               == (if M.SessionCounter in M.Docs(true, tx) then m.snaps[a].nextSession + 1 else m.base.nextSession)
            && t.base.nextOutbox
               == (if M.OutboxCounter in M.Docs(true, tx) then m.snaps[a].nextOutbox + |tx.stage.grant|
                   else m.base.nextOutbox)
  {
    hide M.Docs, DeltaOf, Overlay, Inserted, OpOf, ReplyOf;
  }

  /** What a commit changes lies in the documents the transaction has written. */
  lemma DeltaInDocs(s: Sys, log: Log, tx: Tx)
    requires Run(log) == s.committed && TxOk(s, log, tx)
    ensures var db, after := s.committed, Overlay(s.committed, DeltaOf(tx));
            && (forall id | M.StickDoc(id) !in M.Docs(true, tx) :: SameAt(after.sticks, db.sticks, id))
            && (forall k: nat | M.SessionDoc(k) !in M.Docs(true, tx) :: SameAt(after.sessions, db.sessions, k))
            && (forall key | M.KeyDoc(key) !in M.Docs(true, tx) :: SameAt(after.subscriptions, db.subscriptions, key))
            && (forall n: nat | M.RowDoc(n) !in M.Docs(true, tx) :: SameAt(after.outbox, db.outbox, n))
  {
    hide M.Docs, DeltaOf, TxOk;
    DocsAre(tx);
    DeltaOfChange(tx);
    DeltaOfKeys(s, log, tx);
    hide StickLock, KeyLock, RowLock, SessionDocs, RowsIn;
  }

  lemma DeltaOfChange(tx: Tx)
    ensures forall id | id in DeltaOf(tx).sticks :: StickLock(tx) == Some(id)
    ensures DeltaOf(tx).sessions.Keys <= SessionDocs(tx)
    ensures forall n | n in DeltaOf(tx).outbox :: RowLock(tx) == Some(n) || n in RowsIn(tx)
  {
  }

  lemma DeltaOfKeys(s: Sys, log: Log, tx: Tx)
    requires Run(log) == s.committed && TxOk(s, log, tx)
    ensures forall key | key in DeltaOf(tx).put :: KeyLock(tx) == Some(key)
    ensures forall key | key in DeltaOf(tx).removed :: KeyLock(tx) == Some(key) || key !in s.committed.subscriptions
  {
    hide Run, Next, Insertable, Proceeds, HasGeneration, HasOpenSession, ReadStick, Owns;
  }

  lemma CommitOnlyAt(m: M.Db, log: Log, a: Agent, ns: nat, no: nat)
    requires Inv(m, log, ns, no) && M.Do(true, m, Commit(a)).Some?
    ensures a in m.base.txs && OnlyAt(m, M.Do(true, m, Commit(a)).value, M.Docs(true, m.base.txs[a]))
  {
    hide Explains, M.Do, M.Docs, Inv, TxTracked, Placed, Missing, TxOk, DeltaOf, Overlay, Inserted, SameAt, Run;
    Commits(m, a, ns, no);
    OkNow(m, log, a, ns, no);
    DeltaInDocs(Shadow(m, ns, no), log, m.base.txs[a]);
  }

  lemma CommitPasses(m: M.Db, log: Log, a: Agent, ns: nat, no: nat)
    requires Inv(m, log, ns, no) && M.Do(true, m, Commit(a)).Some?
    ensures a in m.base.txs && Passes(m, M.Do(true, m, Commit(a)).value, M.Docs(true, m.base.txs[a]))
    ensures Tracked(M.Do(true, m, Commit(a)).value)
  {
    hide Explains, M.Do, M.Docs, TxTracked, Placed, Missing, OnlyAt, Bumps, Inserted, Overlay, DeltaOf;
    var t := M.Do(true, m, Commit(a)).value;
    Commits(m, a, ns, no);
    CommitOnlyAt(m, log, a, ns, no);
    forall b | b in t.base.txs
      ensures Unmoved(m, t, b) && M.Docs(true, m.base.txs[a]) !! M.Docs(true, m.base.txs[b])
    {
      assert Trackable(m, b) && PairApart(m, a, b);
    }
    TrackedOn(m, t, M.Docs(true, m.base.txs[a]));
  }

  /** Session and row ids below the counters, after the commit as before. */
  lemma CommitCounted(m: M.Db, log: Log, a: Agent, ns: nat, no: nat)
    requires Inv(m, log, ns, no) && M.Do(true, m, Commit(a)).Some?
    ensures var t := M.Do(true, m, Commit(a)).value;
            && Counted(t.base) && a in m.base.txs && m.base.committed.outbox.Keys <= t.base.committed.outbox.Keys
            && t.base.nextSession <= ns + 1 && t.base.nextOutbox <= no + |GrantOf(m.base.txs[a])|
  {
    hide Explains, M.Do, M.Docs, Inv, Placed, Missing, TxOk, SameDoc, Inserted, Run;
    Commits(m, a, ns, no);
    OkNow(m, log, a, ns, no);
    InvParts(m, log, ns, no);
    InvBounds(m, log, ns, no);
    var tx := m.base.txs[a];
    DocsAre(tx);
    CounterAgrees(m, a);
    CommittedIds(m, log, a, ns, no);
  }

  function GrantOf(tx: Tx): map<nat, Key> {
    if tx.ChangeTx? && tx.stage.Enqueued? then tx.stage.grant else map[]
  }

  lemma InvBounds(m: M.Db, log: Log, ns: nat, no: nat)
    requires Inv(m, log, ns, no)
    ensures m.base.nextSession <= ns && m.base.nextOutbox <= no && RowsKnown(log, m.base.committed)
  {
  }

  lemma CounterAgrees(m: M.Db, a: Agent)
    requires a in m.base.txs && TxTracked(m, a)
    ensures a in m.snaps
    ensures M.SessionCounter in M.Docs(true, m.base.txs[a]) ==> m.snaps[a].nextSession == m.base.nextSession
    ensures M.OutboxCounter in M.Docs(true, m.base.txs[a]) ==> m.snaps[a].nextOutbox == m.base.nextOutbox
  {
    hide M.Docs;
    if M.SessionCounter in M.Docs(true, m.base.txs[a]) {
      assert M.Unwritten(m, a, M.SessionCounter);
    }
    if M.OutboxCounter in M.Docs(true, m.base.txs[a]) {
      assert M.Unwritten(m, a, M.OutboxCounter);
    }
  }

  /** The session a transaction writes is there, unless it opens it. */
  lemma SessionThere(s: Sys, log: Log, tx: Tx)
    requires ValidRun(log) && Run(log) == s.committed && TxOk(s, log, tx)
    ensures forall k | k in SessionDocs(tx) && k !in SessionIn(tx) :: k in s.committed.sessions
  {
    hide Run, Step, Next, Insertable, Proceeds, InsertableAt, PlacedAt, Fits, OpOf, WritesOf, Apart, ValidRun;
    if tx.ChangeTx? && tx.stage.Enqueued? {
      ReleaseFits(s, log, tx);
    }
  }

  lemma ReleaseFits(s: Sys, log: Log, tx: Tx)
    requires ValidRun(log) && Run(log) == s.committed && TxOk(s, log, tx) && tx.ChangeTx? && tx.stage.Enqueued?
    ensures tx.stage.session in s.committed.sessions
  {
    hide Run, Step, Next, Proceeds, InsertableAt, PlacedAt, Apart, ValidRun;
    var k: nat :| PlacedAt(s.order, tx.stage.instant, log, k) && InsertableAt(log, k, OpOf(tx), WritesOf(tx));
    ReleaseInserted(log, k, OpOf(tx), WritesOf(tx));
  }

  /** The ids in the tables after a commit. */
  lemma CommittedIds(m: M.Db, log: Log, a: Agent, ns: nat, no: nat)
    requires Trackable(m, a) && TxTracked(m, a) && Counted(m.base)
    requires ValidRun(log) && Run(log) == m.base.committed && TxOk(Shadow(m, ns, no), log, m.base.txs[a])
    ensures var after, tx := Overlay(m.base.committed, DeltaOf(m.base.txs[a])), m.base.txs[a];
            && m.base.committed.outbox.Keys <= after.outbox.Keys
            && (forall k | k in after.sessions ::
                  k < if SessionIn(tx) != {} then m.base.nextSession + 1 else m.base.nextSession)
            && (forall n | n in after.outbox ::
                  n < if RowsIn(tx) != {} then m.base.nextOutbox + |GrantOf(tx)| else m.base.nextOutbox)
  {
    var s, tx := Shadow(m, ns, no), m.base.txs[a];
    hide Run, TxOk, ValidRun, M.Docs, DeltaOf;
    DocsAre(tx);
    DeltaInDocs(s, log, tx);
    SessionThere(s, log, tx);
    CounterAgrees(m, a);
    OwnIds(m, a);
    MarkedRow(s, log, tx);
    hide TxTracked, SessionDocs, SessionIn, RowsIn, RowLock;
    forall k | k in Overlay(m.base.committed, DeltaOf(tx)).sessions
      ensures k < if SessionIn(tx) != {} then m.base.nextSession + 1 else m.base.nextSession
    {
      assert k !in SessionDocs(tx) ==> k in m.base.committed.sessions;
    }
    forall n | n in Overlay(m.base.committed, DeltaOf(tx)).outbox
      ensures n < if RowsIn(tx) != {} then m.base.nextOutbox + |GrantOf(tx)| else m.base.nextOutbox
    {
      assert n !in RowsIn(tx) && RowLock(tx) != Some(n) ==> n in m.base.committed.outbox;
    }
  }

  lemma OwnIds(m: M.Db, a: Agent)
    requires a in m.base.txs && TxTracked(m, a)
    ensures forall k | k in SessionIn(m.base.txs[a]) :: k == m.snaps[a].nextSession
    ensures forall n | n in RowsIn(m.base.txs[a]) :: n < m.snaps[a].nextOutbox + |GrantOf(m.base.txs[a])|
  {
    hide M.Docs, SameDoc;
  }

  lemma MarkedRow(s: Sys, log: Log, tx: Tx)
    requires Run(log) == s.committed && TxOk(s, log, tx)
    ensures RowLock(tx).Some? ==> RowLock(tx).value in s.committed.outbox
  {
    hide Run, Next, Insertable;
  }

  lemma PlainCommitKeeps(m: M.Db, log: Log, a: Agent, ns: nat, no: nat)
    requires Inv(m, log, ns, no) && M.Do(true, m, Commit(a)).Some?
    requires a in m.base.txs && !(m.base.txs[a].ChangeTx? && m.base.txs[a].change.Release?)
    ensures Inv(M.Do(true, m, Commit(a)).value, log + [OpOf(m.base.txs[a])], ns + 1, no + |GrantOf(m.base.txs[a])|)
  {
    hide Explains, M.Do, Do, M.Docs, Placed, Missing, TxTracked, Tracked, TxOk, Inserted, DeltaOf, OpOf, Run, Passes;
    hide Inv, Counted, RowsOf, Overlay, InstantOf;
    var s, t, op := Shadow(m, ns, no), M.Do(true, m, Commit(a)).value, OpOf(m.base.txs[a]);
    Commits(m, a, ns, no);
    CommitPasses(m, log, a, ns, no);
    CommitCounted(m, log, a, ns, no);
    InvParts(m, log, ns, no);
    var after := PlainCommitStep(s, log, a);
    Raised(after, Shadow(t, ns, no), ns + 1, no + |GrantOf(m.base.txs[a])|);
    InvBounds(m, log, ns, no);
    PlainRows(m, log, a, ns, no);
    forall b | b in t.base.txs
      ensures Trackable(t, b) && Placed(t, after, b) && Missing(t, b)
    {
      PlainSpares(m, log, a, b, ns, no);
    }
    InvFrom(t, after, ns + 1, no + |GrantOf(m.base.txs[a])|);
  }

  lemma PlainRows(m: M.Db, log: Log, a: Agent, ns: nat, no: nat)
    requires Inv(m, log, ns, no) && a in m.base.txs && AllDone(m.base.txs[a])
    requires !(m.base.txs[a].ChangeTx? && m.base.txs[a].change.Release?)
    ensures RowsOf(OpOf(m.base.txs[a])) <= m.base.committed.outbox.Keys
  {
    hide Explains, TxTracked, Placed, Missing, Inv, Run, Next, Insertable, Proceeds;
    OkNow(m, log, a, ns, no);
  }

  /** A plain commit takes effect now. */
  lemma PlainOrder(m: M.Db, log: Log, a: Agent, ns: nat, no: nat)
    requires Inv(m, log, ns, no) && M.Do(true, m, Commit(a)).Some?
    requires a in m.base.txs && !(m.base.txs[a].ChangeTx? && m.base.txs[a].change.Release?)
    ensures M.Do(true, m, Commit(a)).value.base.order == m.base.order + [m.base.steps]
  {
    hide Explains, M.Do, Do, M.Docs, Placed, Missing, TxTracked, TxOk, Inserted, Inv;
    Commits(m, a, ns, no);
    InvParts(m, log, ns, no);
    if m.base.txs[a].ChangeTx? {
      NotEnqueued(Shadow(m, ns, no), log, a);
    }
    OrderSoFar(Shadow(m, ns, no), log);
    InsertedLast(m.base.order, m.base.steps);
  }

  lemma PlainSpares(m: M.Db, log: Log, a: Agent, b: Agent, ns: nat, no: nat)
    requires Inv(m, log, ns, no) && M.Do(true, m, Commit(a)).Some?
    requires a in m.base.txs && !(m.base.txs[a].ChangeTx? && m.base.txs[a].change.Release?)
    requires b in m.base.txs && b != a
    ensures var t := M.Do(true, m, Commit(a)).value;
            Trackable(t, b) && Placed(t, log + [OpOf(m.base.txs[a])], b) && Missing(t, b)
  {
    hide Explains, M.Do, Do, M.Docs, Placed, Missing, TxOk, Inserted, DeltaOf, OpOf, Run, Bumps, OnlyAt, Inv;
    var t, tx, theirs := M.Do(true, m, Commit(a)).value, m.base.txs[a], m.base.txs[b];
    Commits(m, a, ns, no);
    CommitPasses(m, log, a, ns, no);
    PlainOrder(m, log, a, ns, no);
    OkNow(m, log, a, ns, no);
    OkNow(m, log, b, ns, no);
    assert Unmoved(m, t, b);
    PairLocks(m, log, a, b, ns, no);
    hide Passes;
    OffTheirStick(tx, theirs);
    PlacedAfter(m, t, log, OpOf(tx), b);
    MissingAfter(m, t, log, a, b, ns, no);
  }

  lemma PairLocks(m: M.Db, log: Log, a: Agent, b: Agent, ns: nat, no: nat)
    requires Inv(m, log, ns, no) && a in m.base.txs && b in m.base.txs && a != b
    ensures StickLock(m.base.txs[a]).Some? ==> StickLock(m.base.txs[a]) != StickLock(m.base.txs[b])
  {
    hide Explains, M.Docs, TxTracked, Placed, Missing;
    assert PairApart(m, a, b);
    DocsAre(m.base.txs[a]);
    DocsAre(m.base.txs[b]);
    if StickLock(m.base.txs[a]).Some? {
      assert M.StickDoc(StickLock(m.base.txs[a]).value) in M.Docs(true, m.base.txs[a]);
    }
  }

  lemma OffTheirStick(tx: Tx, theirs: Tx)
    requires StickLock(tx).Some? ==> StickLock(tx) != StickLock(theirs)
    ensures theirs.ChangeTx? ==> OffStick(OpOf(tx), theirs.id)
  {
  }

  /** A commit brings back no subscription that a snapshot in flight does not have. */
  lemma MissingAfter(m: M.Db, t: M.Db, log: Log, a: Agent, b: Agent, ns: nat, no: nat)
    requires ValidRun(log) && Run(log) == m.base.committed && Trackable(m, a) && Trackable(m, b) && a != b
    requires TxOk(Shadow(m, ns, no), log, m.base.txs[a]) && TxOk(Shadow(m, ns, no), log, m.base.txs[b])
    requires Missing(m, b) && Unmoved(m, t, b)
    requires StickLock(m.base.txs[a]).Some? ==> StickLock(m.base.txs[a]) != StickLock(m.base.txs[b])
    requires t.base.committed == Overlay(m.base.committed, DeltaOf(m.base.txs[a]))
    ensures Missing(t, b)
  {
    if m.base.txs[b].MarkTx? {
      DeliveredGeneration(log, m.base.txs[b].delivery);
    }
    hide Run, Next, Insertable, Proceeds, ReadStick, Owns, HasOpenSession, ValidRun;
  }

  lemma DeliveredGeneration(log: Log, delivery: Delivery)
    requires ValidRun(log)
    ensures delivery in Deliveries(log) ==> delivery.snapshot.generation in Used(log)
  {
    if delivery in Deliveries(log) {
      ReachableTokens(log);
      DeliverySnapshot(log, delivery);
    }
  }

  // ---- the commit of a release ----

  /** A snapshot keeps its place when a release is put into the log before or after it. */
  lemma PlaceShifts(log: Log, k: nat, op: Op, writes: Writes, snap: M.Snap, j: nat, id: string)
    requires ValidRun(log) && InsertableAt(log, k, op, writes) && op.OpTransition? && OffStick(op, id)
    requires writes.rows.Keys !! Run(log).outbox.Keys && StickStill(snap, log, j, id)
    ensures var whole := log[..k] + [op] + log[k..];
            && (j <= k ==> StickStill(snap, whole, j, id))
            && (k <= j ==> StickStill(snap, whole, j + 1, id))
  {
    hide Run, Step, ValidRun, Apart, Fits, Overlay, OffStick;
    if j <= k {
      InsertedBefore(log, k, op, j);
    }
    if k <= j {
      InsertedBehind(log, k, op, j);
      PrefixInserted(log, k, op, writes, j);
      assert (log[..j])[..k] == log[..k] && (log[..j])[k..] == log[k..j];
      OverlaySubscribers(Run(log[..j]), writes, snap.tables, id);
    }
  }

  lemma PrefixInserted(log: Log, k: nat, op: Op, writes: Writes, j: nat)
    requires ValidRun(log) && InsertableAt(log, k, op, writes) && op.OpTransition? && k <= j <= |log|
    requires writes.rows.Keys !! Run(log).outbox.Keys
    ensures Run(log[..k] + [op] + log[k..j]) == Overlay(Run(log[..j]), writes.ToDelta())
  {
    hide Run, Step, ValidRun, Apart, Fits, Overlay;
    OutboxOfPrefix(log, j);
    assert log[..j][..k] == log[..k] && log[..j][k..] == log[k..j];
    assert forall e | e in log[k..j] :: e in log[k..];
    ReleaseInserted(log[..j], k, op, writes);
  }

  lemma OverlaySubscribers(db: Tables, writes: Writes, seen: Tables, id: string)
    requires SameSubscribers(db, seen, id) && id in db.sticks
    ensures SameSubscribers(Overlay(db, writes.ToDelta()), seen, id) && id in Overlay(db, writes.ToDelta()).sticks
  {
  }

  lemma PlacedInserted(m: M.Db, t: M.Db, log: Log, k: nat, op: Op, writes: Writes, instant: nat, b: Agent)
    requires k <= |log| == |m.base.order|
    requires ValidRun(log) && PlacedAt(m.base.order, instant, log, k) && InsertableAt(log, k, op, writes)
    requires op.OpTransition? && writes.rows.Keys !! Run(log).outbox.Keys
    requires Unmoved(m, t, b) && Placed(m, log, b) && m.base.began[b] != instant
    requires t.base.order == m.base.order[..k] + [instant] + m.base.order[k..]
    requires m.base.txs[b].ChangeTx? ==> OffStick(op, m.base.txs[b].id)
    ensures Placed(t, log[..k] + [op] + log[k..], b)
  {
    hide Run, ValidRun, InsertableAt, PlacedAt, OffStick, StickStill;
    if m.base.txs[b].ChangeTx? {
      var id, began, whole := m.base.txs[b].id, m.base.began[b], log[..k] + [op] + log[k..];
      var j: nat :| PlacedAt(m.base.order, began, log, j) && StickStill(m.snaps[b], log, j, id);
      PlaceInserted(m.base.order, instant, began, log, k, op, j);
      PlaceShifts(log, k, op, writes, m.snaps[b], j, id);
      var place: nat := if began < instant then j else j + 1;
      assert PlacedAt(t.base.order, began, whole, place) && StickStill(t.snaps[b], whole, place, id);
    }
  }

  lemma ReleaseOrder(m: M.Db, a: Agent, ns: nat, no: nat, log: Log, k: nat)
    requires M.Do(true, m, Commit(a)).Some? && Trackable(m, a) && TxTracked(m, a)
    requires m.base.txs[a].ChangeTx? && m.base.txs[a].stage.Enqueued?
    requires PlacedAt(m.base.order, m.base.txs[a].stage.instant, log, k)
    ensures m.base.txs[a].stage.instant == m.base.began[a]
    ensures M.Do(true, m, Commit(a)).value.base.order
         == m.base.order[..k] + [m.base.began[a]] + m.base.order[k..]
  {
    hide M.Do, M.Docs, SameDoc;
    Commits(m, a, ns, no);
    InsertedAt(m.base.order, m.base.txs[a].stage.instant, k);
  }

  lemma ReleaseSpares(m: M.Db, log: Log, a: Agent, b: Agent, ns: nat, no: nat, k: nat)
    requires Inv(m, log, ns, no) && M.Do(true, m, Commit(a)).Some?
    requires a in m.base.txs && m.base.txs[a].ChangeTx? && m.base.txs[a].stage.Enqueued?
    requires k <= |log| == |m.base.order| && PlacedAt(m.base.order, m.base.txs[a].stage.instant, log, k)
    requires InsertableAt(log, k, OpOf(m.base.txs[a]), WritesOf(m.base.txs[a]))
    requires b in m.base.txs && b != a
    ensures var t := M.Do(true, m, Commit(a)).value;
            && Trackable(t, b) && Missing(t, b)
            && Placed(t, log[..k] + [OpOf(m.base.txs[a])] + log[k..], b)
  {
    hide Explains, M.Do, Do, M.Docs, Placed, Missing, TxOk, Inserted, DeltaOf, Run, Bumps, OnlyAt, Inv, TxTracked;
    hide PlacedAt, InsertableAt, OffStick;
    var t, tx := M.Do(true, m, Commit(a)).value, m.base.txs[a];
    Commits(m, a, ns, no);
    CommitPasses(m, log, a, ns, no);
    OkNow(m, log, a, ns, no);
    OkNow(m, log, b, ns, no);
    assert Unmoved(m, t, b);
    InvPair(m, log, a, b, ns, no);
    hide Passes;
    ReleaseOrder(m, a, ns, no, log, k);
    OtherRowsNew(Shadow(m, ns, no), log, tx);
    OffTheirStick(tx, m.base.txs[b]);
    PlacedInserted(m, t, log, k, OpOf(tx), WritesOf(tx), m.base.began[a], b);
    MissingAfter(m, t, log, a, b, ns, no);
  }

  lemma InvPair(m: M.Db, log: Log, a: Agent, b: Agent, ns: nat, no: nat)
    requires Inv(m, log, ns, no) && a in m.base.txs && b in m.base.txs && a != b
    ensures a in m.base.began && b in m.base.began && m.base.began[a] != m.base.began[b]
    ensures StickLock(m.base.txs[a]).Some? ==> StickLock(m.base.txs[a]) != StickLock(m.base.txs[b])
  {
    hide Explains, M.Docs, TxTracked, Placed, Missing;
    PairLocks(m, log, a, b, ns, no);
    assert PairApart(m, a, b);
  }

  lemma ReleaseCommitKeeps(m: M.Db, log: Log, a: Agent, ns: nat, no: nat) returns (after: Log)
    requires Inv(m, log, ns, no) && M.Do(true, m, Commit(a)).Some?
    requires a in m.base.txs && m.base.txs[a].ChangeTx? && m.base.txs[a].change.Release?
    ensures Inv(M.Do(true, m, Commit(a)).value, after, ns + 1, no + |GrantOf(m.base.txs[a])|)
  {
    hide Explains, M.Do, Do, M.Docs, Placed, Missing, TxTracked, Tracked, TxOk, Inserted, DeltaOf, Run, Passes;
    hide InsertableAt, PlacedAt, Inv, Counted, RowsOf, Overlay, InstantOf, RowsKnown, OpOf, WritesOf;
    var s, t, op := Shadow(m, ns, no), M.Do(true, m, Commit(a)).value, OpOf(m.base.txs[a]);
    Commits(m, a, ns, no);
    CommitPasses(m, log, a, ns, no);
    CommitCounted(m, log, a, ns, no);
    InvParts(m, log, ns, no);
    OrderSoFar(s, log);
    var k: nat;
    after, k := ReleaseCommitStep(s, log, a);
    Raised(after, Shadow(t, ns, no), ns + 1, no + |GrantOf(m.base.txs[a])|);
    ReleaseRows(m, log, a, ns, no);
    InvBounds(m, log, ns, no);
    RowsKnownInserted(log, k, op, m.base.committed, t.base.committed);
    forall b | b in t.base.txs
      ensures Trackable(t, b) && Placed(t, after, b) && Missing(t, b)
    {
      ReleaseSpares(m, log, a, b, ns, no, k);
    }
    InvFrom(t, after, ns + 1, no + |GrantOf(m.base.txs[a])|);
  }

  lemma ReleaseRows(m: M.Db, log: Log, a: Agent, ns: nat, no: nat)
    requires Inv(m, log, ns, no) && M.Do(true, m, Commit(a)).Some?
    requires a in m.base.txs && m.base.txs[a].ChangeTx? && m.base.txs[a].change.Release?
    ensures RowsOf(OpOf(m.base.txs[a])) <= M.Do(true, m, Commit(a)).value.base.committed.outbox.Keys
  {
    hide Explains, M.Do, M.Docs, Placed, Missing, TxTracked, Tracked, Inserted, Inv, Run, Next, Insertable, Proceeds;
    Commits(m, a, ns, no);
    OkNow(m, log, a, ns, no);
  }

  lemma RowsKnownInserted(log: Log, k: nat, op: Op, db: Tables, after: Tables)
    requires k <= |log| && RowsKnown(log, db) && db.outbox.Keys <= after.outbox.Keys && RowsOf(op) <= after.outbox.Keys
    ensures RowsKnown(log[..k] + [op] + log[k..], after)
  {
    hide RowsOf;
    forall e | e in log[..k] + [op] + log[k..]
      ensures RowsOf(e) <= after.outbox.Keys
    {
      assert e == op || e in log;
    }
  }

  // ---- whole executions ----

  lemma CommitKeeps(m: M.Db, log: Log, a: Agent, ns: nat, no: nat) returns (after: Log, ns2: nat, no2: nat)
    requires Inv(m, log, ns, no) && M.Do(true, m, Commit(a)).Some?
    ensures Inv(M.Do(true, m, Commit(a)).value, after, ns2, no2)
  {
    hide Inv, OpOf, M.Do;
    Commits(m, a, ns, no);
    if m.base.txs[a].ChangeTx? && m.base.txs[a].change.Release? {
      after := ReleaseCommitKeeps(m, log, a, ns, no);
    } else {
      PlainCommitKeeps(m, log, a, ns, no);
      after := log + [OpOf(m.base.txs[a])];
    }
    ns2, no2 := ns + 1, no + |GrantOf(m.base.txs[a])|;
  }

  lemma Kept(m: M.Db, log: Log, act: Action, ns: nat, no: nat) returns (after: Log, ns2: nat, no2: nat)
    requires Inv(m, log, ns, no) && M.Do(true, m, act).Some?
    ensures Inv(M.Do(true, m, act).value, after, ns2, no2)
  {
    hide Inv, OpOf, M.Do;
    after, ns2, no2 := log, ns, no;
    match act
    case Create(_) => after := CreateKeeps(m, log, act, ns, no);
    case Start(_, _) => after := StartKeeps(m, log, act, ns, no);
    case Save(_) => SaveKeeps(m, log, act, ns, no);
    case Open(_) =>
      OpenKeeps(m, log, act, ns, no);
      ns2 := ns + 1;
    case Close(_, _) => CloseKeeps(m, log, act, ns, no);
    case Enqueue(_, rows, _) =>
      EnqueueKeeps(m, log, act, ns, no);
      no2 := no + |rows|;
    case Write(_) => WriteKeeps(m, log, act, ns, no);
    case Delete(_) => DeleteKeeps(m, log, act, ns, no);
    case Abort(a) => AbortKeeps(m, log, a, ns, no);
    case Commit(a) =>
      after, ns2, no2 := CommitKeeps(m, log, a, ns, no);
    case Take(row, now, staleBefore, token) =>
      TakeKeeps(m, log, act, ns, no);
      after := log + [OpClaim(row, now, staleBefore, token)];
    case Mark(_, _, _) => after := MarkKeeps(m, log, act, ns, no);
    case Fail(delivery, next, failure) =>
      FailKeeps(m, log, act, ns, no);
      after := log + [OpFail(delivery, next, failure)];
  }

  lemma Initially()
    ensures Inv(M.START, [], 1, 1)
  {
    InitiallyExplained();
  }

  lemma {:induction false} Executed(acts: seq<Action>) returns (log: Log, ns: nat, no: nat)
    requires M.Exec(true, acts).Some?
    ensures Inv(M.Exec(true, acts).value, log, ns, no)
  {
    if acts == [] {
      log, ns, no := [], 1, 1;
      Initially();
    } else {
      hide Inv, M.Do;
      var front := acts[..|acts| - 1];
      log, ns, no := Executed(front);
      log, ns, no := Kept(M.Exec(true, front).value, log, acts[|acts| - 1], ns, no);
    }
  }

  lemma ShadowSerial(m: M.Db, log: Log, ns: nat, no: nat)
    requires StrictlySerial(Shadow(m, ns, no), log)
    ensures StrictlySerial(m.base, log)
  {
    hide Run, ValidRun;
  }

  /** With the increment of zero, every interleaving of MongoDB transactions, whatever they give
      up and make again, is strictly serial.  A release takes effect where its snapshot was
      taken, all else at its commit. */
  lemma SnapshotsSerializable(acts: seq<Action>) returns (log: Log)
    requires M.Exec(true, acts).Some?
    ensures StrictlySerial(M.Exec(true, acts).value.base, log)
  {
    var ns, no;
    log, ns, no := Executed(acts);
    var m := M.Exec(true, acts).value;
    hide StrictlySerial, Explains;
    InvParts(m, log, ns, no);
    InOrder(Shadow(m, ns, no), log);
    ShadowSerial(m, log, ns, no);
  }
}
