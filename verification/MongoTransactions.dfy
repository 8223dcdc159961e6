/** The MongoDB store under concurrency (internal/adapters/persistence/mongodb): a transaction
    reads the snapshot taken at its first statement, and the first of two transactions to write
    a document wins; the other one is given up and made again.  Reading a stick inside a
    transaction writes it, too, by an increment of zero: `reserve` says whether it does. */
module MongoTransactions {
  import opened Core
  import opened Database
  import opened Protocol
  import opened Reordering
  import opened Interleaving

  /** The documents transactions can meet on: those of the four collections, and the counters
      that ids come from. */
  datatype Doc =
    | StickDoc(id: string)
    | SessionDoc(session: nat)
    | KeyDoc(key: Key)
    | RowDoc(row: nat)
    | SessionCounter
    | OutboxCounter

  /** What a transaction sees besides its own writes. */
  datatype Snap = Snap(tables: Tables, nextSession: nat, nextOutbox: nat)

  /** The system, the snapshots of the transactions in flight, and the action that last wrote
      each document.  The counters hold the next free ids, and are rolled back with the rest. */
  datatype Db = Db(base: Sys, snaps: map<Agent, Snap>, written: map<Doc, nat>)

  const START := Db(INIT, map[], map[])

  function StageDocs(stage: Stage): set<Doc> {
    match stage
    case Opened(k) => {SessionCounter, SessionDoc(k)}
    case Closed(k, _) => {SessionDoc(k)}
    case Enqueued(k, _, _, rows, _) =>
      {SessionDoc(k)} + (set n | n in rows :: RowDoc(n)) + (if rows != map[] then {OutboxCounter} else {})
    case _ => {}
  }

  /** The documents a transaction has written so far. */
  function Docs(reserve: bool, tx: Tx): set<Doc> {
    match tx
    case ChangeTx(id, _, _, _, _, stage) =>
      (if reserve || !stage.Read? then {StickDoc(id)} else {}) + StageDocs(stage)
    case FollowTx(id, identity, _, _, written) =>
      (if reserve then {StickDoc(id)} else {}) + (if written then {KeyDoc(Key(id, identity.sub))} else {})
    case UnfollowTx(id, subject, _, written, hit) =>
      (if reserve then {StickDoc(id)} else {}) + (if written && hit then {KeyDoc(Key(id, subject))} else {})
    case MarkTx(delivery, _, _, _, hit) =>
      {RowDoc(delivery.id)} + (if hit then {KeyDoc(delivery.snapshot.Recipient())} else {})
  }

  /** Nobody has committed a write of the document since the transaction's snapshot. */
  predicate Unwritten(m: Db, a: Agent, doc: Doc)
    requires a in m.base.began
  {
    doc in m.written ==> m.written[doc] < m.base.began[a]
  }

  /** Writing these documents meets no other write. */
  predicate NoConflict(reserve: bool, m: Db, a: Agent, docs: set<Doc>)
    requires a in m.base.began
  {
    && (forall doc | doc in docs :: Unwritten(m, a, doc))
    && (forall b | b in m.base.txs && b != a :: docs !! Docs(reserve, m.base.txs[b]))
  }

  /** A statement takes effect unless it meets another write. */
  function Write(reserve: bool, m: Db, a: Agent, tx: Tx): Option<Db>
    requires a in m.base.txs && a in m.base.began
  {
    if NoConflict(reserve, m, a, Docs(reserve, tx) - Docs(reserve, m.base.txs[a]))
    then Some(m.(base := Put(m.base, a, tx))) else None
  }

  function See(m: Db, a: Agent): Tables
    requires a in m.base.txs && a in m.snaps
  {
    Overlay(m.snaps[a].tables, DeltaOf(m.base.txs[a]))
  }

  /** A release with the rows it makes from what it sees. */
  function WithRows(m: Db, a: Agent, rows: map<nat, Key>): Tx
    requires a in m.base.txs && a in m.base.began && a in m.snaps
    requires m.base.txs[a].ChangeTx? && m.base.txs[a].stage.Closed?
    requires m.base.txs[a].change.Release? && m.base.txs[a].before.holder.Some?
  {
    var tx := m.base.txs[a];
    var made := NewRows(See(m, a), tx.before, tx.before.holder.value, tx.change.releasedAt, rows);
    tx.(stage := Enqueued(tx.stage.session, tx.stage.closed, rows, made, m.base.began[a]))
  }

  /** The statement after the read: all of them run on the snapshot. */
  ghost function DoChange(reserve: bool, m: Db, act: Action): Option<Db>
    requires act.Save? || act.Open? || act.Close? || act.Enqueue?
  {
    var a := act.agent;
    if !(a in m.base.txs && a in m.base.began && a in m.snaps && m.base.txs[a].ChangeTx?) then None else
    var tx, view, snap := m.base.txs[a], See(m, a), m.snaps[a];
    match act
    case Save(_) =>
      if tx.stage.Read? && SaveStick(view, tx.next, tx.expected).Ok?
      then Write(reserve, m, a, tx.(stage := Saved)) else None
    case Open(_) =>
      if tx.stage.Saved? && tx.change.Claim? && OpenSessions(view, tx.id) == {}
      then Write(reserve, m, a, tx.(stage := Opened(snap.nextSession))) else None
    case Close(_, k) =>
      if tx.stage.Saved? && tx.change.Release? && k in view.sessions
         && OpenSessionsBy(view, tx.id, tx.change.subject) == {k}
      then
        Write(reserve, m, a, tx.(stage := Closed(k, view.sessions[k].(releasedAt := Some(tx.change.releasedAt)))))
      else None
    case Enqueue(_, rows, bound) =>
      if tx.stage.Closed? && tx.change.Release? && tx.before.holder.Some? && Assigns(view, tx.before.id, rows)
         && bound == snap.nextOutbox + |rows| && (forall n | n in rows :: snap.nextOutbox <= n < bound)
      then Write(reserve, m, a, WithRows(m, a, rows)) else None
  }

  /** The upsert and the delete of a subscription. */
  function DoWrite(reserve: bool, m: Db, a: Agent): Option<Db> {
    if !(a in m.base.txs && a in m.base.began && a in m.snaps) then None else
    match m.base.txs[a]
    case FollowTx(id, identity, expected, token, false) =>
      if Subscribe(See(m, a), id, identity, token).Ok?
      then Write(reserve, m, a, FollowTx(id, identity, expected, token, true)) else None
    case UnfollowTx(id, subject, expected, false, _) =>
      Write(reserve, m, a, UnfollowTx(id, subject, expected, true, Key(id, subject) in See(m, a).subscriptions))
    case _ => None
  }

  /** The second statement of a success mark. */
  function DoDelete(reserve: bool, m: Db, a: Agent): Option<Db> {
    if !(a in m.base.txs && a in m.base.began && a in m.snaps) then None else
    match m.base.txs[a]
    case MarkTx(delivery, at, row, false, _) =>
      var hit := HasGeneration(See(m, a), delivery.snapshot.Recipient(), delivery.snapshot.generation);
      Write(reserve, m, a, MarkTx(delivery, at, row, true, hit))
    case _ => None
  }

  /** A transaction that has begun takes its snapshot. */
  function Begun(m: Db, a: Agent, t: Sys): Db {
    if a in t.txs
    then m.(base := t, snaps := m.snaps[a := Snap(m.base.committed, m.base.nextSession, m.base.nextOutbox)])
    else m.(base := t)
  }

  /** The read of a stick, which with `reserve` meets the writes of others. */
  function DoStart(reserve: bool, m: Db, a: Agent, request: Request): Option<Db> {
    if reserve && request.id in m.base.committed.sticks
       && exists b :: b in m.base.txs && StickDoc(request.id) in Docs(reserve, m.base.txs[b]) then None else
    match FirstStatement(m.base, a, request)
    case Some(t) => Some(Begun(m, a, t))
    case None => None
  }

  /** These documents have been written just now. */
  function Touch(m: Db, t: Sys, docs: set<Doc>): Db {
    m.(base := t, written := map doc | doc in m.written.Keys + docs ::
      if doc in docs then m.base.steps else m.written[doc])
  }

  function DoCommit(reserve: bool, m: Db, a: Agent): Option<Db> {
    if !(a in m.base.txs && a in m.base.began && a in m.snaps && AllDone(m.base.txs[a])) then None else
    var tx := m.base.txs[a];
    var t := Committed(m.base, a);
    var docs := Docs(reserve, tx);
    Some(Touch(m, t.(nextSession := if SessionCounter in docs then m.snaps[a].nextSession + 1 else t.nextSession,
               nextOutbox := if OutboxCounter in docs then m.snaps[a].nextOutbox + |tx.stage.grant|
               else t.nextOutbox), docs))
  }

  /** The eligible row with the lowest id; a write in its way is waited for. */
  predicate TakesLowest(s: Sys, row: Option<nat>, now: Time, staleBefore: Time) {
    && (row.Some? ==>
          && row.value in s.committed.outbox && RowFree(s, row.value)
          && Eligible(s.committed.outbox[row.value], now, staleBefore))
    && (forall m | m in s.committed.outbox && (row.None? || m < row.value) ::
          !Eligible(s.committed.outbox[m], now, staleBefore))
  }

  ghost function Do(reserve: bool, m: Db, act: Action): Option<Db> {
    var s := m.base;
    match act
    case Create(stick) =>
      if exists id, name :: NewStick(id, name) == Ok(stick)
      then Some(Touch(m, Complete(s, OpCreate(stick)),
                      if stick.id in s.committed.sticks then {} else {StickDoc(stick.id)}))
      else None
    case Start(a, request) => DoStart(reserve, m, a, request)
    case Write(a) => DoWrite(reserve, m, a)
    case Commit(a) => DoCommit(reserve, m, a)
    case Abort(a) => if a in s.txs then Some(m.(base := s.(txs := s.txs - {a}, steps := s.steps + 1))) else None
    case Take(row, now, staleBefore, token) =>
      if token !in s.drawn && TakesLowest(s, row, now, staleBefore)
      then Some(Touch(m, Complete(s, OpClaim(row, now, staleBefore, token)),
                      if row.Some? then {RowDoc(row.value)} else {})) else None
    case Mark(a, delivery, at) =>
      (match DoMark(s, a, delivery, at)
       case Some(t) => Some(Begun(m, a, t))
       case None => None)
    case Delete(a) => DoDelete(reserve, m, a)
    case Fail(delivery, next, failure) =>
      if delivery in s.deliveries && RowFree(s, delivery.id)
      then Some(Touch(m, Complete(s, OpFail(delivery, next, failure)),
                      if Owns(s.committed, delivery) then {RowDoc(delivery.id)} else {})) else None
    case _ => DoChange(reserve, m, act)
  }

  /** The database after any sequence of actions, if each could happen. */
  ghost function Exec(reserve: bool, acts: seq<Action>): Option<Db> {
    if acts == [] then Some(START) else
    match Exec(reserve, acts[..|acts| - 1])
    case Some(m) => Do(reserve, m, acts[|acts| - 1])
    case None => None
  }
}
