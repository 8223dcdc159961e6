/** The four tables and the atomic statements the persistence adapters run on them
    (internal/adapters/persistence/sqlite/transaction.go and outbox.go, and their
    PostgreSQL twins), as functions from tables to tables. */
module Database {
  import opened Core

  type Token = string

  /** Primary key of `subscriptions`. */
  datatype Key = Key(stickId: string, userSub: string)

  datatype Subscription = Subscription(name: string, email: string, generation: Token)

  datatype Status = Pending | InProgress | Failed | Succeeded

  /** The columns of an outbox row written once, when the release enqueues it. */
  datatype Snapshot = Snapshot(
    stickId: string, stickName: string, holderName: string, holderEmail: string,
    heldSince: Time, releasedAt: Time,
    recipientSub: string, recipientName: string, recipientEmail: string, generation: Token)
  {
    function Recipient(): Key {
      Key(stickId, recipientSub)
    }
  }

  datatype Row = Row(
    snapshot: Snapshot, status: Status, attempts: nat,
    nextAttemptAt: Option<Time>, claimToken: Option<Token>, claimedAt: Option<Time>,
    lastAttemptAt: Option<Time>, deliveredAt: Option<Time>, lastError: Option<string>)

  /** What a worker holds of a row it has claimed. */
  datatype Delivery = Delivery(id: nat, snapshot: Snapshot, attempts: nat, claimToken: Token)

  datatype Tables = Tables(
    sticks: map<string, Stick>,
    sessions: map<nat, Session>,
    subscriptions: map<Key, Subscription>,
    outbox: map<nat, Row>)

  const EMPTY := Tables(map[], map[], map[], map[])

  function GetStick(db: Tables, id: string): Result<Stick> {
    if id in db.sticks then Ok(db.sticks[id]) else Err(NotFound)
  }

  function CreateStick(db: Tables, stick: Stick): Result<Tables> {
    if stick.version != 1 then Err(NotMonotonic) else
    if stick.id in db.sticks then Err(AlreadyExists) else
    Ok(db.(sticks := db.sticks[stick.id := stick]))
  }

  /** The compare-and-swap: one row is written if it still has the expected version. */
  function SaveStick(db: Tables, stick: Stick, expected: int): Result<Tables> {
    if expected < 1 || expected == MAX_INT64 || stick.version != expected + 1 then Err(NotMonotonic) else
    if stick.id !in db.sticks || db.sticks[stick.id].version != expected then Err(VersionConflict) else
    Ok(db.(sticks := db.sticks[stick.id := stick]))
  }

  predicate IsOpen(db: Tables, k: nat, stickId: string) {
    k in db.sessions && db.sessions[k].stickId == stickId && db.sessions[k].Open()
  }

  predicate IsOpenBy(db: Tables, k: nat, stickId: string, holderSub: string) {
    IsOpen(db, k, stickId) && db.sessions[k].holderSub == holderSub
  }

  function OpenSessions(db: Tables, stickId: string): set<nat> {
    set k | k in db.sessions && IsOpen(db, k, stickId)
  }

  function OpenSessionsBy(db: Tables, stickId: string, holderSub: string): set<nat> {
    set k | k in db.sessions && IsOpenBy(db, k, stickId, holderSub)
  }

  /** INSERT, refused by the unique index on the active session of a stick. */
  function CreateSession(db: Tables, k: nat, session: Session): Result<Tables> {
    if OpenSessions(db, session.stickId) != {} then Err(ActiveSessionExists) else
    Ok(db.(sessions := db.sessions[k := session]))
  }

  /** UPDATE of every open session of the stick and subject, which must be one row. */
  function CloseSession(db: Tables, stickId: string, holderSub: string, at: Time): Result<Tables> {
    if |OpenSessionsBy(db, stickId, holderSub)| != 1 then Err(ActiveSessionMissing) else
    Ok(db.(sessions := map k | k in db.sessions ::
         if IsOpenBy(db, k, stickId, holderSub) then db.sessions[k].(releasedAt := Some(at))
         else db.sessions[k]))
  }

  predicate SubscribedTo(db: Tables, key: Key, stickId: string) {
    key in db.subscriptions && key.stickId == stickId
  }

  function Subscribers(db: Tables, stickId: string): set<Key> {
    set key | key in db.subscriptions && SubscribedTo(db, key, stickId)
  }

  function SnapshotOf(before: Stick, holder: Holder, at: Time, key: Key, subscription: Subscription): Snapshot {
    Snapshot(before.id, before.name, holder.name, holder.email, holder.claimedAt, at,
             key.userSub, subscription.name, subscription.email, subscription.generation)
  }

  function NewRow(snapshot: Snapshot, at: Time): Row {
    Row(snapshot, Pending, 0, Some(at), None, None, None, None, None)
  }

  /** `rows` hands every subscriber of the stick one row id that is not in use. */
  ghost predicate Assigns(db: Tables, stickId: string, rows: map<nat, Key>) {
    && rows.Keys !! db.outbox.Keys
    && (forall n | n in rows :: SubscribedTo(db, rows[n], stickId))
    && (forall key | SubscribedTo(db, key, stickId) :: exists n :: n in rows && rows[n] == key)
    && (forall m, n | m in rows && n in rows && rows[m] == rows[n] :: m == n)
  }

  /** Every subscriber of the stick is still ahead of the cursor or has exactly one of the
      row ids, all of them unused. */
  ghost predicate PartlyAssigned(db: Tables, id: string, cursor: set<Key>, rows: map<nat, Key>) {
    && (forall key | key in cursor :: SubscribedTo(db, key, id))
    && (forall n | n in rows :: n !in db.outbox && SubscribedTo(db, rows[n], id) && rows[n] !in cursor)
    && (forall key | SubscribedTo(db, key, id) && key !in cursor :: exists n :: n in rows && rows[n] == key)
    && (forall m, n | m in rows && n in rows && rows[m] == rows[n] :: m == n)
  }

  lemma AssignNext(db: Tables, id: string, cursor: set<Key>, rows: map<nat, Key>, key: Key, n: nat)
    requires PartlyAssigned(db, id, cursor, rows) && key in cursor && n !in rows && n !in db.outbox
    ensures PartlyAssigned(db, id, cursor - {key}, rows[n := key])
  {
    var more := rows[n := key];
    forall other | SubscribedTo(db, other, id) && other !in cursor - {key}
      ensures exists m :: m in more && more[m] == other
    {
      if other == key {
        assert n in more && more[n] == other;
      } else {
        var m :| m in rows && rows[m] == other;
        assert m in more && more[m] == other;
      }
    }
  }

  lemma StartAssignment(db: Tables, id: string)
    ensures PartlyAssigned(db, id, Subscribers(db, id), map[])
    ensures Subscribers(db, id) <= db.subscriptions.Keys
  {
  }

  lemma FullyAssigned(db: Tables, id: string, rows: map<nat, Key>)
    requires PartlyAssigned(db, id, {}, rows)
    ensures Assigns(db, id, rows)
  {
  }

  /** Ids for the subscribers of a stick can always be found. */
  lemma {:induction false} AssignmentExists(db: Tables, id: string, cursor: set<Key>, rows: map<nat, Key>, next: nat)
    returns (all: map<nat, Key>, bound: nat)
    requires PartlyAssigned(db, id, cursor, rows)
    requires forall n | n in db.outbox || n in rows :: n < next
    ensures PartlyAssigned(db, id, {}, all)
    ensures next <= bound && forall n | n in all && n !in rows :: next <= n < bound
    decreases cursor
  {
    if cursor == {} {
      all, bound := rows, next;
    } else {
      var key :| key in cursor;
      AssignNext(db, id, cursor, rows, key, next);
      all, bound := AssignmentExists(db, id, cursor - {key}, rows[next := key], next + 1);
    }
  }

  function NewRows(db: Tables, before: Stick, holder: Holder, at: Time, rows: map<nat, Key>): map<nat, Row> {
    map n | n in rows && rows[n] in db.subscriptions ::
      NewRow(SnapshotOf(before, holder, at, rows[n], db.subscriptions[rows[n]]), at)
  }

  /** INSERT of one pending row for each subscriber, under the given ids. */
  function EnqueueReleaseNotifications(db: Tables, before: Stick, at: Time, rows: map<nat, Key>): Result<Tables> {
    if before.holder.None? then Err(NoHolderSnapshot) else
    Ok(db.(outbox := db.outbox + NewRows(db, before, before.holder.value, at, rows)))
  }

  predicate HasGeneration(db: Tables, key: Key, token: Token) {
    key in db.subscriptions && db.subscriptions[key].generation == token
  }

  /** The upsert, refused by the unique index on generation tokens. */
  function Subscribe(db: Tables, stickId: string, identity: Identity, token: Token): Result<Tables> {
    var key := Key(stickId, identity.sub);
    if exists other | other in db.subscriptions :: other != key && HasGeneration(db, other, token) then
      Err(DuplicateGeneration)
    else
      Ok(db.(subscriptions := db.subscriptions[key := Subscription(identity.name, identity.email, token)]))
  }

  function Unsubscribe(db: Tables, stickId: string, subject: string): Tables {
    db.(subscriptions := db.subscriptions - {Key(stickId, subject)})
  }

  /** The WHERE clause of a claim. */
  predicate Eligible(row: Row, now: Time, staleBefore: Time) {
    || ((row.status == Pending || row.status == Failed)
        && (row.nextAttemptAt.None? || row.nextAttemptAt.value <= now))
    || (row.status == InProgress && row.claimedAt.Some? && row.claimedAt.value <= staleBefore)
  }

  function ClaimedRow(row: Row, now: Time, token: Token): Row {
    row.(status := InProgress, attempts := row.attempts + 1, claimToken := Some(token),
    claimedAt := Some(now), lastAttemptAt := Some(now))
  }

  /** The UPDATE of a claim on one row. */
  function ClaimRow(db: Tables, n: nat, now: Time, staleBefore: Time, token: Token): Result<(Tables, Delivery)> {
    if n !in db.outbox || !Eligible(db.outbox[n], now, staleBefore) then Err(ClaimLost) else
    var row := db.outbox[n];
    Ok((db.(outbox := db.outbox[n := ClaimedRow(row, now, token)]),
        Delivery(n, row.snapshot, row.attempts + 1, token)))
  }

  /** The WHERE clause of both marks: the row is still under this delivery's claim. */
  predicate Owns(db: Tables, delivery: Delivery) {
    && delivery.id in db.outbox
    && db.outbox[delivery.id].status == InProgress
    && db.outbox[delivery.id].claimToken == Some(delivery.claimToken)
  }

  function SucceededRow(row: Row, at: Time): Row {
    row.(status := Succeeded, deliveredAt := Some(at), nextAttemptAt := None, claimToken := None, claimedAt := None)
  }

  function FailedRow(row: Row, next: Time, failure: string): Row {
    row.(status := Failed, nextAttemptAt := Some(next), lastError := Some(failure), claimToken := None,
    claimedAt := None)
  }

  /** DELETE of the recipient's subscription, only in the generation that was delivered. */
  function DeleteGeneration(db: Tables, key: Key, token: Token): Tables {
    if HasGeneration(db, key, token) then db.(subscriptions := db.subscriptions - {key}) else db
  }

  function MarkSucceeded(db: Tables, delivery: Delivery, at: Time): Result<Tables> {
    if !Owns(db, delivery) then Err(ClaimLost) else
    var marked := db.(outbox := db.outbox[delivery.id := SucceededRow(db.outbox[delivery.id], at)]);
    Ok(DeleteGeneration(marked, delivery.snapshot.Recipient(), delivery.snapshot.generation))
  }

  function MarkFailed(db: Tables, delivery: Delivery, next: Time, failure: string): Result<Tables> {
    if !Owns(db, delivery) then Err(ClaimLost) else
    Ok(db.(outbox := db.outbox[delivery.id := FailedRow(db.outbox[delivery.id], next, failure)]))
  }
}
