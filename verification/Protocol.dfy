/** The protocol as a sequence of atomic operations: what one transaction of
    internal/application/service.go or one worker statement of
    internal/adapters/persistence/sqlite/outbox.go does to the tables, and the runs
    built from them. */
module Protocol {
  import opened Core
  import opened Database

  /** Row ids handed out by the store's sequences: one for the session a claim opens,
      one for each outbox row a release enqueues. */
  datatype Grant = Grant(session: nat, rows: map<nat, Key>)

  const NO_GRANT := Grant(0, map[])

  /** One transaction attempt.  `token` is the UUID drawn for the attempt. */
  datatype Op =
    | OpCreate(stick: Stick)
    | OpTransition(id: string, expected: int, change: Change, grant: Grant)
    | OpSubscribe(id: string, identity: Identity, expected: int, token: Token)
    | OpUnsubscribe(id: string, subject: string, expected: int)
    | OpClaim(row: Option<nat>, now: Time, staleBefore: Time, token: Token)
    | OpSucceed(delivery: Delivery, at: Time)
    | OpFail(delivery: Delivery, next: Time, failure: string)

  datatype Reply = Done | GotStick(stick: Stick) | GotDelivery(delivery: Option<Delivery>)

  datatype Outcome = Outcome(db: Tables, reply: Result<Reply>)

  /** The first half of every stick transaction: lock, read and check the version. */
  function ReadStick(db: Tables, id: string, expected: int): Result<Stick> {
    var current :- GetStick(db, id);
    if current.version != expected then Err(VersionConflict) else Ok(current)
  }

  /** The extra writes of a claim and of a release. */
  function Work(db: Tables, before: Stick, next: Stick, change: Change, grant: Grant): Result<Tables> {
    match change
    case Claim(identity, reason, at) =>
      CreateSession(db, grant.session,
                    Session(next.id, identity.sub, identity.name, identity.email, reason, at, None))
    case Release(subject, at) =>
      var closed :- CloseSession(db, before.id, subject, at);
      EnqueueReleaseNotifications(closed, before, at, grant.rows)
    case _ => Ok(db)
  }

  function TransitionStick(db: Tables, id: string, expected: int, change: Change, grant: Grant)
    : Result<(Tables, Stick)>
  {
    var current :- ReadStick(db, id, expected);
    var next :- Next(current, change);
    var saved :- SaveStick(db, next, expected);
    var worked :- Work(saved, current, next, change, grant);
    Ok((worked, next))
  }

  function SubscribeTo(db: Tables, id: string, identity: Identity, expected: int, token: Token): Result<Tables> {
    var _ :- ReadStick(db, id, expected);
    Subscribe(db, id, identity, token)
  }

  function UnsubscribeFrom(db: Tables, id: string, subject: string, expected: int): Result<Tables> {
    var _ :- ReadStick(db, id, expected);
    Ok(Unsubscribe(db, id, subject))
  }

  function Settle(db: Tables, result: Result<Tables>): Outcome {
    match result
    case Ok(after) => Outcome(after, Ok(Done))
    case Err(error) => Outcome(db, Err(error))
  }

  /** One operation, atomically: an error leaves the tables as they were. */
  function Step(db: Tables, op: Op): Outcome {
    match op
    case OpCreate(stick) => Settle(db, CreateStick(db, stick))
    case OpTransition(id, expected, change, grant) =>
      (match TransitionStick(db, id, expected, change, grant)
       case Ok((after, next)) => Outcome(after, Ok(GotStick(next)))
       case Err(error) => Outcome(db, Err(error)))
    case OpSubscribe(id, identity, expected, token) => Settle(db, SubscribeTo(db, id, identity, expected, token))
    case OpUnsubscribe(id, subject, expected) => Settle(db, UnsubscribeFrom(db, id, subject, expected))
    case OpClaim(None, _, _, _) => Outcome(db, Ok(GotDelivery(None)))
    case OpClaim(Some(n), now, staleBefore, token) =>
      (match ClaimRow(db, n, now, staleBefore, token)
       case Ok((after, delivery)) => Outcome(after, Ok(GotDelivery(Some(delivery))))
       case Err(error) => Outcome(db, Err(error)))
    case OpSucceed(delivery, at) => Settle(db, MarkSucceeded(db, delivery, at))
    case OpFail(delivery, next, failure) => Settle(db, MarkFailed(db, delivery, next, failure))
  }

  type Log = seq<Op>

  function Run(log: Log): Tables {
    if log == [] then EMPTY else Step(Run(log[..|log| - 1]), log[|log| - 1]).db
  }

  /** What the operation at position `i` of the log replied, and whether it took effect. */
  function ReplyAt(log: Log, i: nat): Result<Reply>
    requires i < |log|
  {
    Step(Run(log[..i]), log[i]).reply
  }

  predicate Accepted(log: Log, i: nat) {
    i < |log| && ReplyAt(log, i).Ok?
  }

  function TokenOf(op: Op): set<Token> {
    match op
    case OpSubscribe(_, _, _, token) => {token}
    case OpClaim(_, _, _, token) => {token}
    case _ => {}
  }

  /** The tokens no UUID will be again: those drawn, and the empty string. */
  function Used(log: Log): set<Token> {
    if log == [] then {""} else Used(log[..|log| - 1]) + TokenOf(log[|log| - 1])
  }

  function DeliveryOf(reply: Result<Reply>): set<Delivery> {
    match reply
    case Ok(GotDelivery(Some(delivery))) => {delivery}
    case _ => {}
  }

  /** Every delivery a worker has been given. */
  function Deliveries(log: Log): set<Delivery> {
    if log == [] then {}
    else Deliveries(log[..|log| - 1]) + DeliveryOf(ReplyAt(log, |log| - 1))
  }

  /** The operation passes its version check and its domain transition. */
  predicate Proceeds(db: Tables, id: string, expected: int, change: Change) {
    id in db.sticks && db.sticks[id].version == expected && Next(db.sticks[id], change).Ok?
  }

  /** The environment's side of an operation: sequences give unused ids, UUIDs never
      repeat, a claim picks an eligible row or none, and workers mark only deliveries
      they were given.  Requests themselves are arbitrary. */
  ghost predicate Admissible(log: Log, op: Op) {
    var db := Run(log);
    match op
    case OpCreate(stick) => exists id, name :: NewStick(id, name) == Ok(stick)
    case OpTransition(id, expected, change, grant) =>
      Proceeds(db, id, expected, change) ==>
        && (change.Claim? ==> grant.session !in db.sessions)
        && (change.Release? ==> Assigns(db, id, grant.rows))
    case OpSubscribe(_, _, _, token) => token !in Used(log)
    case OpUnsubscribe(_, _, _) => true
    case OpClaim(row, now, staleBefore, token) =>
      && token !in Used(log)
      && (row.Some? ==> row.value in db.outbox && Eligible(db.outbox[row.value], now, staleBefore))
    case OpSucceed(delivery, _) => delivery in Deliveries(log)
    case OpFail(delivery, _, _) => delivery in Deliveries(log)
  }

  ghost predicate ValidRun(log: Log) {
    log == [] || (ValidRun(log[..|log| - 1]) && Admissible(log[..|log| - 1], log[|log| - 1]))
  }

  lemma Snoc(log: Log, op: Op)
    ensures Run(log + [op]) == Step(Run(log), op).db
    ensures ReplyAt(log + [op], |log|) == Step(Run(log), op).reply
    ensures Used(log + [op]) == Used(log) + TokenOf(op)
    ensures Deliveries(log + [op]) == Deliveries(log) + DeliveryOf(Step(Run(log), op).reply)
    ensures ValidRun(log + [op]) <==> ValidRun(log) && Admissible(log, op)
    ensures forall i: nat | i < |log| :: ReplyAt(log + [op], i) == ReplyAt(log, i)
    ensures forall i: nat | i <= |log| :: (log + [op])[..i] == log[..i]
  {
    assert (log + [op])[..|log|] == log;
    forall i: nat | i <= |log|
      ensures (log + [op])[..i] == log[..i]
    {
    }
  }

  lemma {:induction false} PrefixValid(log: Log, i: nat)
    requires ValidRun(log) && i <= |log|
    ensures ValidRun(log[..i])
    ensures i < |log| ==> Admissible(log[..i], log[i])
  {
    if i < |log| {
      var front := log[..|log| - 1];
      PrefixValid(front, i);
      assert front[..i] == log[..i];
    } else {
      assert log[..i] == log;
    }
  }

  /** A failed transaction leaves no trace, whichever of its statements failed. */
  lemma FailureRollsBack(db: Tables, op: Op)
    requires Step(db, op).reply.Err?
    ensures Step(db, op).db == db
  {
  }
}
