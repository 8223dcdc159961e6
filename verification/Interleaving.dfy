/** The PostgreSQL store under concurrency: transactions proceed statement by statement,
    each statement seeing what has been committed and the transaction's own writes, with
    row locks on sticks, subscriptions and outbox rows, and sequences that are never
    rolled back.  Workers take no stick lock. */
module Interleaving {
  import opened Core
  import opened Database
  import opened Protocol
  import opened Consistency
  import opened Reordering

  type Agent = nat

  /** How far the transaction of transitionStick has come. */
  datatype Stage =
    | Read
    | Saved
    | Opened(session: nat)
    | Closed(session: nat, closed: Session)
    | Enqueued(session: nat, closed: Session, grant: map<nat, Key>, rows: map<nat, Row>, instant: nat)

  datatype Tx =
    | ChangeTx(id: string, expected: int, change: Change, before: Stick, next: Stick, stage: Stage)
    | FollowTx(id: string, identity: Identity, expected: int, token: Token, written: bool)
    | UnfollowTx(id: string, subject: string, expected: int, written: bool, hit: bool)
    | MarkTx(delivery: Delivery, at: Time, row: Row, deleted: bool, hit: bool)

  datatype Request =
    | Change(id: string, expected: int, change: Change)
    | Follow(id: string, identity: Identity, expected: int, token: Token)
    | Unfollow(id: string, subject: string, expected: int)

  datatype Action =
    | Create(stick: Stick)
    | Start(agent: Agent, request: Request)
    | Save(agent: Agent)
    | Open(agent: Agent)
    | Close(agent: Agent, session: nat)
    | Enqueue(agent: Agent, rows: map<nat, Key>, bound: nat)
    | Write(agent: Agent)
    | Commit(agent: Agent)
    | Abort(agent: Agent)
    | Take(row: Option<nat>, now: Time, staleBefore: Time, token: Token)
    | Mark(agent: Agent, delivery: Delivery, at: Time)
    | Delete(agent: Agent)
    | Fail(delivery: Delivery, next: Time, failure: string)

  /** An operation that is over, what its client was told, and when its first statement and its
      commit took place, counted in actions. */
  datatype Finished = Finished(op: Op, reply: Result<Reply>, began: nat, ended: nat)

  /** `steps` counts the actions so far; `began` says at which of them the transactions in
      flight started.  Every operation that is over has one instant at which it takes effect,
      its commit or, for a release, the moment it enqueued: `order` lists these instants,
      and `done` says which operation each one belongs to. */
  datatype Sys = Sys(
    committed: Tables, txs: map<Agent, Tx>, nextSession: nat, nextOutbox: nat,
    drawn: set<Token>, deliveries: set<Delivery>,
    steps: nat, began: map<Agent, nat>, order: seq<nat>, done: map<nat, Finished>)

  const INIT := Sys(EMPTY, map[], 1, 1, {""}, {}, 0, map[], [], map[])

  /** The uncommitted writes of a transaction. */
  function DeltaOf(tx: Tx): Delta {
    match tx
    case ChangeTx(id, _, _, _, next, stage) =>
      (match stage
       case Read => NO_WRITES
       case Saved => NO_WRITES.(sticks := map[id := next])
       case Opened(k) =>
         var sessions := if next.holder.Some? then map[k := HolderSession(id, next.holder.value)] else map[];
         NO_WRITES.(sticks := map[id := next], sessions := sessions)
       case Closed(k, closed) => NO_WRITES.(sticks := map[id := next], sessions := map[k := closed])
       case Enqueued(k, closed, _, rows, _) => Delta(map[id := next], map[k := closed], map[], {}, rows))
    case FollowTx(id, identity, _, token, written) =>
      var put := map[Key(id, identity.sub) := Subscription(identity.name, identity.email, token)];
      if written then NO_WRITES.(put := put)
      else NO_WRITES
    case UnfollowTx(id, subject, _, written, _) =>
      if written then NO_WRITES.(removed := {Key(id, subject)}) else NO_WRITES
    case MarkTx(delivery, _, row, _, hit) =>
      NO_WRITES.(outbox := map[delivery.id := row], removed := if hit then {delivery.snapshot.Recipient()} else {})
  }

  function View(s: Sys, tx: Tx): Tables {
    Overlay(s.committed, DeltaOf(tx))
  }

  /** The operation a transaction amounts to when it commits. */
  function OpOf(tx: Tx): Op {
    match tx
    case ChangeTx(id, expected, change, _, _, stage) =>
      var grant := match stage
        case Opened(k) => Grant(k, map[])
        case Enqueued(_, _, rows, _, _) => Grant(0, rows)
        case _ => NO_GRANT;
      OpTransition(id, expected, change, grant)
    case FollowTx(id, identity, expected, token, _) => OpSubscribe(id, identity, expected, token)
    case UnfollowTx(id, subject, expected, _, _) => OpUnsubscribe(id, subject, expected)
    case MarkTx(delivery, at, _, _, _) => OpSucceed(delivery, at)
  }

  function ReplyOf(tx: Tx): Reply {
    if tx.ChangeTx? then GotStick(tx.next) else Done
  }

  /** Every statement has run; only the commit is left. */
  predicate AllDone(tx: Tx) {
    match tx
    case ChangeTx(_, _, change, _, _, stage) =>
      if change.Claim? then stage.Opened? else if change.Release? then stage.Enqueued? else stage.Saved?
    case FollowTx(_, _, _, _, written) => written
    case UnfollowTx(_, _, _, written, _) => written
    case MarkTx(_, _, _, deleted, _) => deleted
  }

  /** The row locks a transaction holds. */
  function StickLock(tx: Tx): Option<string> {
    match tx
    case ChangeTx(id, _, _, _, _, _) => Some(id)
    case FollowTx(id, _, _, _, _) => Some(id)
    case UnfollowTx(id, _, _, _, _) => Some(id)
    case MarkTx(_, _, _, _, _) => None
  }

  function KeyLock(tx: Tx): Option<Key> {
    match tx
    case FollowTx(id, identity, _, _, written) => if written then Some(Key(id, identity.sub)) else None
    case UnfollowTx(id, subject, _, written, hit) => if written && hit then Some(Key(id, subject)) else None
    case MarkTx(delivery, _, _, _, hit) => if hit then Some(delivery.snapshot.Recipient()) else None
    case ChangeTx(_, _, _, _, _, _) => None
  }

  function RowLock(tx: Tx): Option<nat> {
    if tx.MarkTx? then Some(tx.delivery.id) else None
  }

  predicate StickFree(s: Sys, id: string) {
    forall b | b in s.txs :: StickLock(s.txs[b]) != Some(id)
  }

  predicate KeyFree(s: Sys, a: Agent, key: Key) {
    forall b | b in s.txs && b != a :: KeyLock(s.txs[b]) != Some(key)
  }

  predicate RowFree(s: Sys, n: nat) {
    forall b | b in s.txs :: RowLock(s.txs[b]) != Some(n)
  }

  /** A transaction of one statement, or one that ends at its first. */
  function Complete(s: Sys, op: Op): Sys {
    var outcome := Step(s.committed, op);
    s.(committed := outcome.db,
    drawn := s.drawn + TokenOf(op),
    deliveries := s.deliveries + DeliveryOf(outcome.reply),
    steps := s.steps + 1,
    order := s.order + [s.steps],
    done := s.done[s.steps := Finished(op, outcome.reply, s.steps, s.steps)])
  }

  function Put(s: Sys, a: Agent, tx: Tx): Sys {
    s.(txs := s.txs[a := tx], steps := s.steps + 1)
  }

  /** The first statement of a transaction. */
  function Begin(s: Sys, a: Agent, tx: Tx): Sys {
    Put(s, a, tx).(began := s.began[a := s.steps])
  }

  /** When the transaction takes effect, if it commits now. */
  function InstantOf(s: Sys, tx: Tx): nat {
    if tx.ChangeTx? && tx.stage.Enqueued? then tx.stage.instant else s.steps
  }

  function Inserted(order: seq<nat>, instant: nat): seq<nat> {
    if order == [] || order[|order| - 1] < instant then order + [instant]
    else Inserted(order[..|order| - 1], instant) + [order[|order| - 1]]
  }

  /** The transaction commits: its writes reach the tables. */
  function Committed(s: Sys, a: Agent): Sys
    requires a in s.txs && a in s.began
  {
    var tx := s.txs[a];
    var instant := InstantOf(s, tx);
    s.(committed := View(s, tx), txs := s.txs - {a}, steps := s.steps + 1,
    order := Inserted(s.order, instant),
    done := s.done[instant := Finished(OpOf(tx), Ok(ReplyOf(tx)), s.began[a], s.steps)])
  }

  function RequestOp(request: Request): Op {
    match request
    case Change(id, expected, change) => OpTransition(id, expected, change, NO_GRANT)
    case Follow(id, identity, expected, token) => OpSubscribe(id, identity, expected, token)
    case Unfollow(id, subject, expected) => OpUnsubscribe(id, subject, expected)
  }

  /** SELECT ... FOR UPDATE, which waits for the stick's lock. */
  function DoStart(s: Sys, a: Agent, request: Request): Option<Sys> {
    if request.id in s.committed.sticks && !StickFree(s, request.id) then None else FirstStatement(s, a, request)
  }

  /** The stick is read, then come the version check and, for a change, the domain transition.
      An error ends the transaction. */
  function FirstStatement(s: Sys, a: Agent, request: Request): Option<Sys> {
    if a in s.txs || (request.Follow? && request.token in s.drawn) then None else
    var drawn := s.(drawn := s.drawn + TokenOf(RequestOp(request)));
    match ReadStick(s.committed, request.id, request.expected)
    case Err(_) => Some(Complete(s, RequestOp(request)))
    case Ok(before) =>
      match request
      case Change(id, expected, change) =>
        (match Next(before, change)
         case Err(_) => Some(Complete(s, RequestOp(request)))
         case Ok(next) => Some(Begin(s, a, ChangeTx(id, expected, change, before, next, Read))))
      case Follow(id, identity, expected, token) =>
        Some(Begin(drawn, a, FollowTx(id, identity, expected, token, false)))
      case Unfollow(id, subject, expected) => Some(Begin(s, a, UnfollowTx(id, subject, expected, false, false)))
  }

  /** The statement after the save: each runs on the transaction's view. */
  ghost function DoChange(s: Sys, act: Action): Option<Sys>
    requires act.Save? || act.Open? || act.Close? || act.Enqueue?
  {
    var a := act.agent;
    if a !in s.txs || !s.txs[a].ChangeTx? then None else
    var tx := s.txs[a];
    var view := View(s, tx);
    match act
    case Save(_) =>
      if tx.stage.Read? && SaveStick(view, tx.next, tx.expected).Ok? then Some(Put(s, a, tx.(stage := Saved))) else None
    case Open(_) =>
      if tx.stage.Saved? && tx.change.Claim? && OpenSessions(view, tx.id) == {} then
        Some(Put(s.(nextSession := s.nextSession + 1), a, tx.(stage := Opened(s.nextSession))))
      else None
    case Close(_, k) =>
      if tx.stage.Saved? && tx.change.Release? && k in view.sessions
         && OpenSessionsBy(view, tx.id, tx.change.subject) == {k} then
        Some(Put(s, a, tx.(stage := Closed(k, view.sessions[k].(releasedAt := Some(tx.change.releasedAt))))))
      else None
    case Enqueue(_, rows, bound) =>
      if && tx.stage.Closed? && tx.change.Release? && tx.before.holder.Some?
         && Assigns(view, tx.before.id, rows)
         && (forall n | n in rows :: s.nextOutbox <= n < bound) && s.nextOutbox <= bound
      then
        var written := NewRows(view, tx.before, tx.before.holder.value, tx.change.releasedAt, rows);
        Some(Put(s.(nextOutbox := bound), a,
                 tx.(stage := Enqueued(tx.stage.session, tx.stage.closed, rows, written, s.steps))))
      else None
  }

  /** The upsert and the delete of a subscription wait for the row's lock. */
  function DoWrite(s: Sys, a: Agent): Option<Sys> {
    if a !in s.txs then None else
    match s.txs[a]
    case FollowTx(id, identity, expected, token, false) =>
      if KeyFree(s, a, Key(id, identity.sub)) && Subscribe(View(s, s.txs[a]), id, identity, token).Ok? then
        Some(Put(s, a, FollowTx(id, identity, expected, token, true)))
      else None
    case UnfollowTx(id, subject, expected, false, _) =>
      var hit := Key(id, subject) in s.committed.subscriptions;
      if hit && !KeyFree(s, a, Key(id, subject)) then None else
      Some(Put(s, a, UnfollowTx(id, subject, expected, true, hit)))
    case _ => None
  }

  /** The two statements of a success mark. */
  function DoMark(s: Sys, a: Agent, delivery: Delivery, at: Time): Option<Sys> {
    if a in s.txs || delivery !in s.deliveries || !RowFree(s, delivery.id) then None else
    if !Owns(s.committed, delivery) then Some(Complete(s, OpSucceed(delivery, at))) else
    Some(Begin(s, a, MarkTx(delivery, at, SucceededRow(s.committed.outbox[delivery.id], at), false, false)))
  }

  function DoDelete(s: Sys, a: Agent): Option<Sys> {
    if a !in s.txs then None else
    match s.txs[a]
    case MarkTx(delivery, at, row, false, _) =>
      var key := delivery.snapshot.Recipient();
      var hit := HasGeneration(s.committed, key, delivery.snapshot.generation);
      if hit && !KeyFree(s, a, key) then None else
      Some(Put(s, a, MarkTx(delivery, at, row, true, hit)))
    case _ => None
  }

  /** SKIP LOCKED: the eligible row with the lowest id among those nobody has locked. */
  predicate SkipsTo(s: Sys, row: Option<nat>, now: Time, staleBefore: Time) {
    && (row.Some? ==>
          row.value in s.committed.outbox && RowFree(s, row.value)
          && Eligible(s.committed.outbox[row.value], now, staleBefore))
    && (forall m | m in s.committed.outbox && (row.None? || m < row.value) ::
          !RowFree(s, m) || !Eligible(s.committed.outbox[m], now, staleBefore))
  }

  ghost function Do(s: Sys, act: Action): Option<Sys> {
    match act
    case Create(stick) =>
      if exists id, name :: NewStick(id, name) == Ok(stick) then Some(Complete(s, OpCreate(stick))) else None
    case Start(a, request) => DoStart(s, a, request)
    case Write(a) => DoWrite(s, a)
    case Commit(a) =>
      if a in s.txs && a in s.began && AllDone(s.txs[a]) then Some(Committed(s, a)) else None
    case Abort(a) => if a in s.txs then Some(s.(txs := s.txs - {a}, steps := s.steps + 1)) else None
    case Take(row, now, staleBefore, token) =>
      if token !in s.drawn && SkipsTo(s, row, now, staleBefore)
      then Some(Complete(s, OpClaim(row, now, staleBefore, token))) else None
    case Mark(a, delivery, at) => DoMark(s, a, delivery, at)
    case Delete(a) => DoDelete(s, a)
    case Fail(delivery, next, failure) =>
      if delivery in s.deliveries && RowFree(s, delivery.id)
      then Some(Complete(s, OpFail(delivery, next, failure))) else None
    case _ => DoChange(s, act)
  }

  /** The system after any sequence of actions, if each could happen. */
  ghost function Exec(acts: seq<Action>): Option<Sys> {
    if acts == [] then Some(INIT) else
    match Exec(acts[..|acts| - 1])
    case Some(s) => Do(s, acts[|acts| - 1])
    case None => None
  }
}
