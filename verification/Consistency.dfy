/** What every reachable database satisfies: the constraints the schema declares
    (internal/adapters/persistence/sqlite/migrations/001_baseline.sql) and the agreement
    between a stick's holder and its open session. */
module Consistency {
  import opened Core
  import opened Database
  import opened Protocol

  /** The open session a holder must have. */
  function HolderSession(stickId: string, holder: Holder): Session {
    Session(stickId, holder.sub, holder.name, holder.email, holder.reason, holder.claimedAt, None)
  }

  ghost predicate SticksOk(db: Tables) {
    forall id | id in db.sticks :: db.sticks[id].id == id && WellFormedStick(db.sticks[id])
  }

  /** Every open session is its stick's holder, written out. */
  ghost predicate OpenSessionsOk(db: Tables) {
    forall k: nat, id | IsOpen(db, k, id) ::
      id in db.sticks && db.sticks[id].holder.Some? && db.sessions[k] == HolderSession(id, db.sticks[id].holder.value)
  }

  ghost predicate HasOpenSession(db: Tables, id: string) {
    exists k: nat :: IsOpen(db, k, id)
  }

  /** Some open session of the stick: by OneOpenSession, the only one. */
  ghost function OpenSession(db: Tables, id: string): (k: nat)
    requires HasOpenSession(db, id)
    ensures IsOpen(db, k, id)
  {
    var k: nat :| IsOpen(db, k, id);
    k
  }

  ghost predicate HoldersOk(db: Tables) {
    forall id | id in db.sticks && db.sticks[id].holder.Some? :: HasOpenSession(db, id)
  }

  ghost predicate OneOpenSession(db: Tables) {
    forall j: nat, k: nat, id | IsOpen(db, j, id) && IsOpen(db, k, id) :: j == k
  }

  ghost predicate ReferencesOk(db: Tables) {
    && (forall k | k in db.sessions :: db.sessions[k].stickId in db.sticks)
    && (forall key | key in db.subscriptions :: key.stickId in db.sticks)
    && (forall n | n in db.outbox :: db.outbox[n].snapshot.stickId in db.sticks)
  }

  ghost predicate GenerationsDistinct(db: Tables) {
    forall j, k, token | HasGeneration(db, j, token) && HasGeneration(db, k, token) :: j == k
  }

  /** The CHECK constraints on an outbox row, and the retry time that every row still to
      be delivered has. */
  predicate WellFormedRow(row: Row) {
    && (row.status == InProgress ==> row.claimToken.Some? && row.claimedAt.Some?)
    && (row.status != InProgress ==> row.claimToken.None? && row.claimedAt.None?)
    && (row.deliveredAt.Some? <==> row.status == Succeeded)
    && (row.status == Pending || row.status == Failed ==> row.nextAttemptAt.Some?)
    && (row.status == Pending <==> row.attempts == 0)
  }

  ghost predicate OutboxOk(db: Tables) {
    forall n | n in db.outbox :: WellFormedRow(db.outbox[n])
  }

  ghost predicate Consistent(db: Tables) {
    && SticksOk(db) && OpenSessionsOk(db) && HoldersOk(db) && OneOpenSession(db)
    && ReferencesOk(db) && GenerationsDistinct(db) && OutboxOk(db)
  }

  /** In a consistent database the holder's open session is found, alone. */
  lemma HolderHasTheOnlyOpenSession(db: Tables, id: string)
    requires Consistent(db) && id in db.sticks && db.sticks[id].holder.Some?
    ensures HasOpenSession(db, id)
    ensures OpenSessions(db, id) == {OpenSession(db, id)} == OpenSessionsBy(db, id, db.sticks[id].holder.value.sub)
  {
    assert HasOpenSession(db, id);
    var k := OpenSession(db, id);
    assert OpenSessions(db, id) == {k};
    assert OpenSessionsBy(db, id, db.sticks[id].holder.value.sub) == {k};
  }

  lemma AvailableHasNoOpenSession(db: Tables, id: string)
    requires Consistent(db) && id in db.sticks && db.sticks[id].Available()
    ensures OpenSessions(db, id) == {}
  {
    assert forall k: nat :: !IsOpen(db, k, id);
  }

  /** What an accepted transition makes of the tables.  It names no statement: sticks,
      sessions and outbox are given outright. */
  ghost function Written(db: Tables, id: string, change: Change, grant: Grant): Tables
    requires id in db.sticks && Next(db.sticks[id], change).Ok?
    requires change.Release? ==> HasOpenSession(db, id)
  {
    var before := db.sticks[id];
    var next := Next(before, change).value;
    var sessions := match change
      case Claim(_, _, _) => db.sessions[grant.session := HolderSession(id, next.holder.value)]
      case Release(_, at) =>
        var k := OpenSession(db, id);
        db.sessions[k := db.sessions[k].(releasedAt := Some(at))]
      case _ => db.sessions;
    var rows := if change.Release? then NewRows(db, before, before.holder.value, change.releasedAt, grant.rows)
                else map[];
    Tables(db.sticks[id := next], sessions, db.subscriptions, db.outbox + rows)
  }

  lemma ClosesTheOpenSession(db: Tables, id: string, subject: string, at: Time)
    requires HasOpenSession(db, id)
    requires OpenSessionsBy(db, id, subject) == {OpenSession(db, id)}
    ensures var k := OpenSession(db, id);
            CloseSession(db, id, subject, at)
            == Ok(db.(sessions := db.sessions[k := db.sessions[k].(releasedAt := Some(at))]))
  {
    var k := OpenSession(db, id);
    forall j: nat | j in db.sessions
      ensures IsOpenBy(db, j, id, subject) <==> j == k
    {
      assert IsOpenBy(db, j, id, subject) <==> j in OpenSessionsBy(db, id, subject);
    }
    assert CloseSession(db, id, subject, at).value.sessions
        == db.sessions[k := db.sessions[k].(releasedAt := Some(at))];
  }

  /** Once the version check and the domain transition pass, nothing after them can fail,
      and the tables are written exactly so. */
  lemma TransitionWrites(db: Tables, id: string, expected: int, change: Change, grant: Grant)
    requires Consistent(db) && Proceeds(db, id, expected, change)
    ensures change.Release? ==> HasOpenSession(db, id) && IsOpenBy(db, OpenSession(db, id), id, change.subject)
    ensures change.Claim? ==> OpenSessions(db, id) == {}
    ensures TransitionStick(db, id, expected, change, grant)
         == Ok((Written(db, id, change, grant), Next(db.sticks[id], change).value))
  {
    var before := db.sticks[id];
    var next := Next(before, change).value;
    var saved := db.(sticks := db.sticks[id := next]);
    assert SaveStick(db, next, expected) == Ok(saved);
    assert forall k: nat :: IsOpen(saved, k, id) <==> IsOpen(db, k, id);
    assert OpenSessions(saved, id) == OpenSessions(db, id);
    match change
    case Claim(_, _, _) =>
      AvailableHasNoOpenSession(db, id);
      assert db.outbox + map[] == db.outbox;
    case Release(subject, at) =>
      HolderHasTheOnlyOpenSession(db, id);
      assert OpenSessionsBy(saved, id, subject) == OpenSessionsBy(db, id, subject);
      assert OpenSession(saved, id) in OpenSessions(saved, id);
      ClosesTheOpenSession(saved, id, subject, at);
      var closed := CloseSession(saved, id, subject, at).value;
      assert NewRows(closed, before, before.holder.value, at, grant.rows)
          == NewRows(db, before, before.holder.value, at, grant.rows);
    case _ =>
      assert db.outbox + map[] == db.outbox;
  }

  /** The statements of a service transaction that could fail after the version check
      never do. */
  lemma NoLateFailure(db: Tables, id: string, expected: int, change: Change, grant: Grant)
    requires Consistent(db)
    ensures Step(db, OpTransition(id, expected, change, grant)).reply.Ok? <==> Proceeds(db, id, expected, change)
    ensures Step(db, OpTransition(id, expected, change, grant)).reply.Err? ==>
              Step(db, OpTransition(id, expected, change, grant)).reply.error
              !in {NotMonotonic, ActiveSessionExists, ActiveSessionMissing, NoHolderSnapshot, DuplicateGeneration}
  {
    if Proceeds(db, id, expected, change) {
      TransitionWrites(db, id, expected, change, grant);
    }
  }

  lemma SameSubscriptions(db: Tables, after: Tables)
    requires GenerationsDistinct(db)
    requires forall key, token | HasGeneration(after, key, token) :: HasGeneration(db, key, token)
    ensures GenerationsDistinct(after)
  {
  }

  lemma ClaimPreserves(db: Tables, id: string, change: Change, grant: Grant)
    requires Consistent(db) && id in db.sticks && Next(db.sticks[id], change).Ok? && change.Claim?
    requires grant.session !in db.sessions && OpenSessions(db, id) == {}
    ensures Consistent(Written(db, id, change, grant))
  {
    var after := Written(db, id, change, grant);
    ClaimOpens(db, after, id, grant.session, after.sticks[id].holder.value);
    HoldersKept(db, after, id);
    SameSubscriptions(db, after);
    hide OpenSessions, IsOpen;
    assert HasOpenSession(after, id);
  }

  /** The session of a claim is the stick's only open one. */
  lemma ClaimOpens(db: Tables, after: Tables, id: string, k: nat, holder: Holder)
    requires OpenSessionsOk(db) && OneOpenSession(db) && k !in db.sessions && OpenSessions(db, id) == {}
    requires after.sessions == db.sessions[k := HolderSession(id, holder)]
    requires id in after.sticks && after.sticks[id].holder == Some(holder)
    requires forall other | other in db.sticks && other != id ::
               other in after.sticks && after.sticks[other] == db.sticks[other]
    ensures OpenSessionsOk(after) && OneOpenSession(after) && HasOpenSession(after, id)
    ensures forall j: nat, other | other != id :: IsOpen(after, j, other) <==> IsOpen(db, j, other)
  {
    assert IsOpen(after, k, id);
    assert forall j: nat | IsOpen(after, j, id) && j != k :: j in OpenSessions(db, id);
    assert forall j: nat, other | other != id :: IsOpen(after, j, other) <==> IsOpen(db, j, other);
  }

  lemma EnqueueKeepsRows(db: Tables, after: Tables, before: Stick, holder: Holder, at: Time, rows: map<nat, Key>)
    requires ReferencesOk(db) && OutboxOk(db) && before.id in after.sticks
    requires forall id | id in db.sticks :: id in after.sticks
    requires after.outbox == db.outbox + NewRows(db, before, holder, at, rows)
    ensures OutboxOk(after)
    ensures forall n | n in after.outbox :: after.outbox[n].snapshot.stickId in after.sticks
  {
  }

  lemma ReleasePreserves(db: Tables, id: string, change: Change, grant: Grant)
    requires Consistent(db) && id in db.sticks && Next(db.sticks[id], change).Ok? && change.Release?
    requires HasOpenSession(db, id) && Assigns(db, id, grant.rows)
    ensures Consistent(Written(db, id, change, grant))
  {
    var before := db.sticks[id];
    var after := Written(db, id, change, grant);
    var k := OpenSession(db, id);
    assert after.sessions == db.sessions[k := db.sessions[k].(releasedAt := Some(change.releasedAt))];
    assert forall j: nat, other | other != id :: IsOpen(after, j, other) <==> IsOpen(db, j, other);
    assert forall j: nat :: IsOpen(after, j, id) ==> j != k && IsOpen(db, j, id);
    assert forall j: nat :: !IsOpen(after, j, id);
    HoldersKept(db, after, id);
    SameSubscriptions(db, after);
    EnqueueKeepsRows(db, after, before, before.holder.value, change.releasedAt, grant.rows);
  }

  lemma PlainPreserves(db: Tables, id: string, change: Change, grant: Grant)
    requires Consistent(db) && id in db.sticks && Next(db.sticks[id], change).Ok? && !change.Claim? && !change.Release?
    ensures Consistent(Written(db, id, change, grant))
  {
    var after := Written(db, id, change, grant);
    assert forall j: nat, other :: IsOpen(after, j, other) <==> IsOpen(db, j, other);
    assert after.sticks[id].holder == db.sticks[id].holder;
    HoldersKept(db, after, id);
    if after.sticks[id].holder.Some? {
      assert IsOpen(after, OpenSession(db, id), id);
    }
    SameSubscriptions(db, after);
  }

  /** Holders of the other sticks keep their open sessions. */
  lemma HoldersKept(db: Tables, after: Tables, id: string)
    requires HoldersOk(db)
    requires forall other | other in after.sticks && other != id ::
               other in db.sticks && after.sticks[other] == db.sticks[other]
    requires forall k: nat, other | other != id :: IsOpen(after, k, other) <==> IsOpen(db, k, other)
    ensures forall other | other in after.sticks && other != id && after.sticks[other].holder.Some? ::
              HasOpenSession(after, other)
  {
    forall other | other in after.sticks && other != id && after.sticks[other].holder.Some?
      ensures HasOpenSession(after, other)
    {
      assert HasOpenSession(db, other);
      assert IsOpen(after, OpenSession(db, other), other);
    }
  }

  /** The operations other than transitions leave sessions alone and sticks too, but for
      one new free stick. */
  lemma OtherOpsKeepSessions(db: Tables, after: Tables)
    requires SticksOk(db) && OpenSessionsOk(db) && HoldersOk(db) && OneOpenSession(db)
    requires after.sessions == db.sessions
    requires forall id | id in db.sticks :: id in after.sticks && after.sticks[id] == db.sticks[id]
    requires forall id | id in after.sticks && id !in db.sticks :: after.sticks[id].holder.None?
    ensures OpenSessionsOk(after) && HoldersOk(after) && OneOpenSession(after)
  {
    assert forall k: nat, id :: IsOpen(after, k, id) <==> IsOpen(db, k, id);
    forall id | id in after.sticks && after.sticks[id].holder.Some?
      ensures HasOpenSession(after, id)
    {
      assert HasOpenSession(db, id);
      assert IsOpen(after, OpenSession(db, id), id);
    }
  }

  lemma TransitionPreserves(db: Tables, id: string, expected: int, change: Change, grant: Grant)
    requires Consistent(db)
    requires Proceeds(db, id, expected, change) && change.Claim? ==> grant.session !in db.sessions
    requires Proceeds(db, id, expected, change) && change.Release? ==> Assigns(db, id, grant.rows)
    ensures Consistent(Step(db, OpTransition(id, expected, change, grant)).db)
  {
    NoLateFailure(db, id, expected, change, grant);
    if Proceeds(db, id, expected, change) {
      TransitionWrites(db, id, expected, change, grant);
      if change.Claim? {
        ClaimPreserves(db, id, change, grant);
      } else if change.Release? {
        ReleasePreserves(db, id, change, grant);
      } else {
        PlainPreserves(db, id, change, grant);
      }
    }
  }

  lemma CreatePreserves(db: Tables, stick: Stick)
    requires Consistent(db) && stick.holder.None? && WellFormedStick(stick)
    ensures Consistent(Step(db, OpCreate(stick)).db)
  {
    var after := Step(db, OpCreate(stick)).db;
    OtherOpsKeepSessions(db, after);
    SameSubscriptions(db, after);
  }

  lemma SubscriptionPreserves(db: Tables, op: Op)
    requires Consistent(db) && (op.OpSubscribe? || op.OpUnsubscribe?)
    ensures Consistent(Step(db, op).db)
  {
    var after := Step(db, op).db;
    SubscriptionsOnly(db, op);
    hide Step;
    OtherOpsKeepSessions(db, after);
    hide OpenSessionsOk, HoldersOk, OneOpenSession, SticksOk, OutboxOk;
  }

  /** Subscribing and unsubscribing touch one table, and keep its index unique. */
  lemma SubscriptionsOnly(db: Tables, op: Op)
    requires GenerationsDistinct(db) && (op.OpSubscribe? || op.OpUnsubscribe?)
    requires forall key | key in db.subscriptions :: key.stickId in db.sticks
    ensures var after := Step(db, op).db;
            && after.sticks == db.sticks && after.sessions == db.sessions && after.outbox == db.outbox
            && GenerationsDistinct(after) && forall key | key in after.subscriptions :: key.stickId in after.sticks
  {
    var after := Step(db, op).db;
    if op.OpSubscribe? && after != db {
      assert forall key, t | HasGeneration(after, key, t) ::
          if key == Key(op.id, op.identity.sub) then t == op.token else HasGeneration(db, key, t);
    } else {
      SameSubscriptions(db, after);
    }
  }

  predicate IsWorkerOp(op: Op) {
    op.OpClaim? || op.OpSucceed? || op.OpFail?
  }

  /** The row a worker operation is about, if it takes effect, and what it becomes. */
  function Touched(db: Tables, op: Op): Option<nat> {
    match op
    case OpClaim(Some(n), now, staleBefore, _) =>
      if n in db.outbox && Eligible(db.outbox[n], now, staleBefore) then Some(n) else None
    case OpSucceed(delivery, _) => if Owns(db, delivery) then Some(delivery.id) else None
    case OpFail(delivery, _, _) => if Owns(db, delivery) then Some(delivery.id) else None
    case _ => None
  }

  function Rewritten(row: Row, op: Op): Row {
    match op
    case OpClaim(_, now, _, token) => ClaimedRow(row, now, token)
    case OpSucceed(_, at) => SucceededRow(row, at)
    case OpFail(_, next, failure) => FailedRow(row, next, failure)
    case _ => row
  }

  /** Workers rewrite at most one row, never its snapshot; they leave sticks and sessions
      alone and can only remove subscriptions. */
  lemma WorkerWrites(db: Tables, op: Op)
    requires IsWorkerOp(op)
    ensures Touched(db, op).None? ==> Step(db, op).db == db
    ensures Touched(db, op).Some? ==>
              var n := Touched(db, op).value;
              && n in db.outbox
              && Step(db, op).db.outbox == db.outbox[n := Rewritten(db.outbox[n], op)]
              && Step(db, op).db.sticks == db.sticks && Step(db, op).db.sessions == db.sessions
              && Step(db, op).db.subscriptions
                 == if op.OpSucceed?
                    then DeleteGeneration(db, op.delivery.snapshot.Recipient(),
                                          op.delivery.snapshot.generation).subscriptions
                    else db.subscriptions
  {
  }

  lemma RewrittenOk(db: Tables, op: Op)
    requires OutboxOk(db) && IsWorkerOp(op) && Touched(db, op).Some?
    ensures var row := db.outbox[Touched(db, op).value];
            WellFormedRow(Rewritten(row, op)) && Rewritten(row, op).snapshot == row.snapshot
  {
  }

  lemma WorkerPreserves(db: Tables, op: Op)
    requires Consistent(db) && IsWorkerOp(op)
    ensures Consistent(Step(db, op).db)
  {
    var after := Step(db, op).db;
    WorkerWrites(db, op);
    hide Step;
    if Touched(db, op).Some? {
      RewrittenOk(db, op);
      hide Touched, Rewritten;
      OtherOpsKeepSessions(db, after);
      SameSubscriptions(db, after);
    }
  }

  /** No operation but a transition writes sessions or an existing stick. */
  lemma OtherWrites(db: Tables, op: Op)
    requires !op.OpTransition?
    ensures Step(db, op).db.sessions == db.sessions
    ensures forall id | id in db.sticks :: id in Step(db, op).db.sticks && Step(db, op).db.sticks[id] == db.sticks[id]
  {
    if IsWorkerOp(op) {
      WorkerWrites(db, op);
    }
  }

  /** A transition either is refused and writes nothing or writes exactly Written. */
  lemma TransitionStep(db: Tables, op: Op)
    requires Consistent(db) && op.OpTransition?
    ensures Step(db, op).reply.Ok? <==> Proceeds(db, op.id, op.expected, op.change)
    ensures Step(db, op).reply.Err? ==> Step(db, op).db == db
    ensures Step(db, op).reply.Ok? ==>
              && (op.change.Release? ==>
                    HasOpenSession(db, op.id) && IsOpenBy(db, OpenSession(db, op.id), op.id, op.change.subject))
              && (op.change.Claim? ==> OpenSessions(db, op.id) == {})
              && Step(db, op) == Outcome(Written(db, op.id, op.change, op.grant),
                                         Ok(GotStick(Next(db.sticks[op.id], op.change).value)))
  {
    NoLateFailure(db, op.id, op.expected, op.change, op.grant);
    if Proceeds(db, op.id, op.expected, op.change) {
      TransitionWrites(db, op.id, op.expected, op.change, op.grant);
    }
  }

  lemma StepPreserves(log: Log, op: Op)
    requires Consistent(Run(log)) && Admissible(log, op)
    ensures Consistent(Step(Run(log), op).db)
  {
    match op
    case OpTransition(id, expected, change, grant) => TransitionPreserves(Run(log), id, expected, change, grant);
    case OpCreate(stick) => CreatePreserves(Run(log), stick);
    case OpSubscribe(_, _, _, _) => SubscriptionPreserves(Run(log), op);
    case OpUnsubscribe(_, _, _) => SubscriptionPreserves(Run(log), op);
    case _ => WorkerPreserves(Run(log), op);
  }

  /** Every reachable database is consistent. */
  lemma {:induction false} ReachableConsistent(log: Log)
    requires ValidRun(log)
    ensures Consistent(Run(log))
  {
    if log != [] {
      var front := log[..|log| - 1];
      ReachableConsistent(front);
      StepPreserves(front, log[|log| - 1]);
    }
  }

  function HolderOf(session: Session): Holder {
    Holder(session.holderSub, session.holderName, session.holderEmail, session.claimedAt, session.reason)
  }

  /** A stick is held if and only if it has exactly one open session, which then carries
      the holder's subject, name, email, reason and claim time. */
  lemma HeldIffOneOpenSession(log: Log, id: string)
    requires ValidRun(log) && id in Run(log).sticks
    ensures Run(log).sticks[id].holder.Some? <==> |OpenSessions(Run(log), id)| == 1
    ensures Run(log).sticks[id].holder.None? <==> OpenSessions(Run(log), id) == {}
    ensures forall k: nat | k in OpenSessions(Run(log), id) ::
              Run(log).sticks[id].holder == Some(HolderOf(Run(log).sessions[k]))
  {
    var db := Run(log);
    ReachableConsistent(log);
    if db.sticks[id].holder.Some? {
      HolderHasTheOnlyOpenSession(db, id);
    } else {
      AvailableHasNoOpenSession(db, id);
    }
    assert forall k: nat | k in OpenSessions(db, id) :: IsOpen(db, k, id);
  }

  /** Every live generation and every current claim token was drawn by some operation. */
  ghost predicate TokensUsed(db: Tables, used: set<Token>) {
    && (forall key, token | HasGeneration(db, key, token) :: token in used)
    && (forall n | n in db.outbox :: db.outbox[n].snapshot.generation in used)
    && (forall n | n in db.outbox && db.outbox[n].claimToken.Some? :: db.outbox[n].claimToken.value in used)
  }

  lemma EnqueueUsesTokens(db: Tables, after: Tables, rows: map<nat, Row>, used: set<Token>)
    requires TokensUsed(db, used) && after.subscriptions == db.subscriptions && after.outbox == db.outbox + rows
    requires forall n | n in rows ::
               rows[n].claimToken.None? && exists key :: HasGeneration(db, key, rows[n].snapshot.generation)
    ensures TokensUsed(after, used)
  {
    assert forall key, token :: HasGeneration(after, key, token) <==> HasGeneration(db, key, token);
  }

  /** New rows carry generations of live subscriptions. */
  lemma NewRowsCarryGenerations(db: Tables, before: Stick, holder: Holder, at: Time, rows: map<nat, Key>)
    ensures var made := NewRows(db, before, holder, at, rows);
            forall n | n in made ::
              made[n].claimToken.None? && exists key :: HasGeneration(db, key, made[n].snapshot.generation)
  {
    var made := NewRows(db, before, holder, at, rows);
    forall n | n in made
      ensures exists key :: HasGeneration(db, key, made[n].snapshot.generation)
    {
      assert HasGeneration(db, rows[n], made[n].snapshot.generation);
    }
  }

  lemma TransitionUsesTokens(db: Tables, id: string, expected: int, change: Change, grant: Grant, used: set<Token>)
    requires Consistent(db) && TokensUsed(db, used)
    ensures TokensUsed(Step(db, OpTransition(id, expected, change, grant)).db, used)
  {
    TransitionStep(db, OpTransition(id, expected, change, grant));
    var after := Step(db, OpTransition(id, expected, change, grant)).db;
    hide Step, Consistent, TokensUsed, NewRows;
    if after != db {
      var holder := db.sticks[id].holder;
      if change.Release? {
        NewRowsCarryGenerations(db, db.sticks[id], holder.value, change.releasedAt, grant.rows);
        EnqueueUsesTokens(db, after, NewRows(db, db.sticks[id], holder.value, change.releasedAt, grant.rows), used);
      } else {
        EnqueueUsesTokens(db, after, map[], used);
      }
    }
  }

  lemma SubscriptionUsesTokens(db: Tables, op: Op, used: set<Token>)
    requires TokensUsed(db, used) && (op.OpSubscribe? || op.OpUnsubscribe?)
    ensures TokensUsed(Step(db, op).db, used + TokenOf(op))
  {
    var after := Step(db, op).db;
    assert after.outbox == db.outbox;
    forall key, t | HasGeneration(after, key, t)
      ensures t in used + TokenOf(op)
    {
      assert HasGeneration(db, key, t) || (op.OpSubscribe? && t == op.token);
    }
  }

  lemma WorkerUsesTokens(db: Tables, op: Op, used: set<Token>)
    requires TokensUsed(db, used) && !op.OpTransition? && !op.OpSubscribe? && !op.OpUnsubscribe?
    ensures TokensUsed(Step(db, op).db, used + TokenOf(op))
  {
    var after := Step(db, op).db;
    if IsWorkerOp(op) {
      WorkerWrites(db, op);
    }
    hide NewStick, Owns, Eligible, Rewritten;
    assert after.subscriptions.Keys <= db.subscriptions.Keys;
    forall key, t | HasGeneration(after, key, t)
      ensures t in used
    {
      assert HasGeneration(db, key, t);
    }
  }

  lemma StepUsesTokens(db: Tables, op: Op, used: set<Token>)
    requires Consistent(db) && TokensUsed(db, used)
    ensures TokensUsed(Step(db, op).db, used + TokenOf(op))
  {
    match op
    case OpTransition(id, expected, change, grant) => TransitionUsesTokens(db, id, expected, change, grant, used);
    case OpSubscribe(_, _, _, _) => SubscriptionUsesTokens(db, op, used);
    case OpUnsubscribe(_, _, _) => SubscriptionUsesTokens(db, op, used);
    case _ => WorkerUsesTokens(db, op, used);
  }

  lemma {:induction false} ReachableTokens(log: Log)
    requires ValidRun(log)
    ensures TokensUsed(Run(log), Used(log))
  {
    if log != [] {
      var front := log[..|log| - 1];
      ReachableTokens(front);
      ReachableConsistent(front);
      StepUsesTokens(Run(front), log[|log| - 1], Used(front));
    }
  }

  /** In no run does the unique index on active sessions, the "one row" check of
      CloseSession, the monotonicity check of SaveStick, the holder check of the enqueue
      or the unique index on generations refuse an operation. */
  lemma StorageFailuresUnreachable(log: Log, op: Op)
    requires ValidRun(log + [op])
    ensures Step(Run(log), op).reply.Err? ==>
              Step(Run(log), op).reply.error
              !in {NotMonotonic, ActiveSessionExists, ActiveSessionMissing, NoHolderSnapshot, DuplicateGeneration}
  {
    Snoc(log, op);
    ReachableConsistent(log);
    if op.OpTransition? {
      NoLateFailure(Run(log), op.id, op.expected, op.change, op.grant);
    } else if op.OpSubscribe? {
      ReachableTokens(log);
    }
  }
}
