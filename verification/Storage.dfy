/** The SQLite store with its mutable state.  The ghost field
    `log` records the operations performed: a valid store is always the result of a valid
    run, so everything proved of runs holds of it. */
module Storage {
  import opened Core
  import opened Database
  import opened Protocol

  /** What a rollback restores. */
  datatype Image = Image(tables: Tables, nextSession: nat, nextOutbox: nat)

  lemma NewRowsSnoc(db: Tables, before: Stick, holder: Holder, at: Time, rows: map<nat, Key>, n: nat, key: Key)
    requires key in db.subscriptions && n !in rows
    ensures db.outbox + NewRows(db, before, holder, at, rows[n := key])
         == (db.outbox + NewRows(db, before, holder, at, rows))
            [n := NewRow(SnapshotOf(before, holder, at, key, db.subscriptions[key]), at)]
  {
    var row := NewRow(SnapshotOf(before, holder, at, key, db.subscriptions[key]), at);
    assert NewRows(db, before, holder, at, rows[n := key]) == NewRows(db, before, holder, at, rows)[n := row];
  }

  lemma NoNewRows(db: Tables, before: Stick, holder: Holder, at: Time)
    ensures db.outbox + NewRows(db, before, holder, at, map[]) == db.outbox
  {
  }

  /** An id above all these. */
  method Above(ids: set<nat>, start: nat) returns (next: nat)
    ensures start <= next && forall n | n in ids :: n < next
  {
    next := start;
    var left := ids;
    while left != {}
      invariant start <= next && forall m | m in ids && m !in left :: m < next
      decreases left
    {
      var n :| n in left;
      left := left - {n};
      next := if n < next then next else n + 1;
    }
  }

  lemma ClaimTakes(log: Log, n: nat, row: Row, now: Time, staleBefore: Time, token: Token)
    requires ValidRun(log) && token !in Used(log)
    requires n in Run(log).outbox && Run(log).outbox[n] == row && Eligible(row, now, staleBefore)
    ensures Admissible(log, OpClaim(Some(n), now, staleBefore, token))
    ensures Step(Run(log), OpClaim(Some(n), now, staleBefore, token))
         == Outcome(Run(log).(outbox := Run(log).outbox[n := ClaimedRow(row, now, token)]),
                    Ok(GotDelivery(Some(Delivery(n, row.snapshot, row.attempts + 1, token)))))
  {
  }

  lemma ClaimNone(log: Log, now: Time, staleBefore: Time, token: Token)
    requires ValidRun(log) && token !in Used(log)
    ensures Admissible(log, OpClaim(None, now, staleBefore, token))
    ensures Step(Run(log), OpClaim(None, now, staleBefore, token)) == Outcome(Run(log), Ok(GotDelivery(None)))
  {
  }

  class Store {
    var sticks: map<string, Stick>
    var sessions: map<nat, Session>
    var subscriptions: map<Key, Subscription>
    var outbox: map<nat, Row>
    var nextSession: nat
    var nextOutbox: nat
    var image: Option<Image>
    ghost var log: Log

    ghost function Contents(): Tables
      reads this
    {
      Tables(sticks, sessions, subscriptions, outbox)
    }

    ghost predicate SequencesAhead()
      reads this
    {
      (forall k | k in sessions :: k < nextSession) && (forall n | n in outbox :: n < nextOutbox)
    }

    /** Between transactions the tables are those of the recorded run. */
    ghost predicate Valid()
      reads this
    {
      image.None? && SequencesAhead() && ValidRun(log) && Contents() == Run(log)
    }

    /** Inside a transaction the image still is. */
    ghost predicate InTransaction()
      reads this
    {
      && image.Some? && SequencesAhead() && ValidRun(log) && image.value.tables == Run(log)
      && (forall k | k in image.value.tables.sessions :: k < image.value.nextSession)
      && (forall n | n in image.value.tables.outbox :: n < image.value.nextOutbox)
    }

    /** Ids the sequences could hand out for any operation on a stick. */
    lemma FreshGrant(id: string) returns (grant: Grant)
      requires SequencesAhead()
      ensures grant.session !in sessions && Assigns(Contents(), id, grant.rows)
    {
      StartAssignment(Contents(), id);
      var rows, _ := AssignmentExists(Contents(), id, Subscribers(Contents(), id), map[], nextOutbox);
      FullyAssigned(Contents(), id, rows);
      grant := Grant(nextSession, rows);
    }

    constructor ()
      ensures Valid() && log == []
    {
      sticks, sessions, subscriptions, outbox := map[], map[], map[], map[];
      nextSession, nextOutbox, image := 1, 1, None;
      log := [];
    }

    method Begin()
      requires Valid()
      modifies this
      ensures InTransaction() && Contents() == old(Contents()) && log == old(log)
      ensures nextSession == old(nextSession) && nextOutbox == old(nextOutbox)
      ensures image == Some(Image(old(Contents()), old(nextSession), old(nextOutbox)))
    {
      image := Some(Image(Tables(sticks, sessions, subscriptions, outbox), nextSession, nextOutbox));
    }

    /** Makes the writes since Begin permanent; they must amount to one operation. */
    method Commit(ghost op: Op)
      requires InTransaction() && Admissible(log, op)
      requires Step(Run(log), op).db == Contents()
      modifies this
      ensures Valid() && Contents() == old(Contents()) && log == old(log) + [op]
    {
      image := None;
      Snoc(log, op);
      log := log + [op];
    }

    /** Undoes the writes since Begin after an operation that is an error. */
    method Rollback(ghost op: Op)
      requires InTransaction() && Admissible(log, op) && Step(Run(log), op).reply.Err?
      modifies this
      ensures Valid() && log == old(log) + [op] && Contents() == Run(old(log)) == old(image.value.tables)
      ensures nextSession == old(image.value.nextSession) && nextOutbox == old(image.value.nextOutbox)
    {
      FailureRollsBack(Run(log), op);
      Snoc(log, op);
      hide Run, Step, ValidRun, Admissible;
      var saved := image.value;
      sticks, sessions := saved.tables.sticks, saved.tables.sessions;
      subscriptions, outbox := saved.tables.subscriptions, saved.tables.outbox;
      nextSession, nextOutbox, image := saved.nextSession, saved.nextOutbox, None;
      log := log + [op];
    }

    /** Gives up an attempt that is going to be made again: nothing of it is left. */
    method Abort()
      requires InTransaction()
      modifies this
      ensures Valid() && log == old(log) && Contents() == Run(log) == old(image.value.tables)
      ensures nextSession == old(image.value.nextSession) && nextOutbox == old(image.value.nextOutbox)
    {
      hide Run, ValidRun;
      var saved := image.value;
      sticks, sessions := saved.tables.sticks, saved.tables.sessions;
      subscriptions, outbox := saved.tables.subscriptions, saved.tables.outbox;
      nextSession, nextOutbox, image := saved.nextSession, saved.nextOutbox, None;
    }

    /** Another client's transaction, or a worker's, as a whole. */
    method Meanwhile(op: Op)
      requires Valid() && Admissible(log, op)
      modifies this
      ensures Valid() && log == old(log) + [op]
    {
      var after := Step(Tables(sticks, sessions, subscriptions, outbox), op).db;
      Snoc(log, op);
      hide Run, Step, Admissible, ValidRun;
      sticks, sessions, subscriptions, outbox := after.sticks, after.sessions, after.subscriptions, after.outbox;
      nextSession := Above(sessions.Keys, nextSession);
      nextOutbox := Above(outbox.Keys, nextOutbox);
      log := log + [op];
    }

    /** Any number of them, one after the other. */
    method MeanwhileAll(ops: seq<Op>)
      requires Valid() && ValidRun(log + ops)
      modifies this
      ensures Valid() && log == old(log) + ops
    {
      ghost var start := log;
      hide Run, Step, Admissible, ValidRun;
      var k := 0;
      while k < |ops|
        invariant k <= |ops| && Valid() && log == start + ops[..k]
      {
        PrefixValid(start + ops, |start| + k);
        assert (start + ops)[..|start| + k] == log;
        Meanwhile(ops[k]);
        k := k + 1;
      }
      assert ops[..k] == ops;
    }

    method GetStick(id: string) returns (r: Result<Stick>)
      ensures r == Database.GetStick(Contents(), id)
    {
      if id in sticks {
        r := Ok(sticks[id]);
      } else {
        r := Err(NotFound);
      }
    }

    method CreateStick(stick: Stick) returns (r: Result<()>)
      requires InTransaction()
      modifies this`sticks
      ensures InTransaction()
      ensures match Database.CreateStick(old(Contents()), stick)
              case Ok(db) => r == Ok(()) && Contents() == db
              case Err(error) => r == Err(error) && Contents() == old(Contents())
    {
      if stick.version != 1 {
        return Err(NotMonotonic);
      }
      if stick.id in sticks {
        return Err(AlreadyExists);
      }
      sticks := sticks[stick.id := stick];
      r := Ok(());
    }

    method SaveStick(stick: Stick, expected: int) returns (r: Result<()>)
      requires InTransaction()
      modifies this`sticks
      ensures InTransaction()
      ensures match Database.SaveStick(old(Contents()), stick, expected)
              case Ok(db) => r == Ok(()) && Contents() == db
              case Err(error) => r == Err(error) && Contents() == old(Contents())
    {
      if expected < 1 || expected == MAX_INT64 || stick.version != expected + 1 {
        return Err(NotMonotonic);
      }
      if stick.id !in sticks || sticks[stick.id].version != expected {
        return Err(VersionConflict);
      }
      sticks := sticks[stick.id := stick];
      r := Ok(());
    }

    /** Takes the session's id from the sequence. */
    method CreateSession(session: Session) returns (r: Result<()>, ghost k: nat)
      requires InTransaction()
      modifies this`sessions, this`nextSession
      ensures InTransaction()
      ensures k == old(nextSession) && k !in old(sessions)
      ensures match Database.CreateSession(old(Contents()), k, session)
              case Ok(db) => r == Ok(()) && Contents() == db
              case Err(error) => r == Err(error) && Contents() == old(Contents())
    {
      k := nextSession;
      var active := set j | j in sessions && sessions[j].stickId == session.stickId && sessions[j].Open();
      assert active == OpenSessions(Contents(), session.stickId);
      if active != {} {
        return Err(ActiveSessionExists), k;
      }
      sessions := sessions[nextSession := session];
      nextSession := nextSession + 1;
      r := Ok(());
    }

    method CloseSession(stickId: string, holderSub: string, at: Time) returns (r: Result<()>)
      requires InTransaction()
      modifies this`sessions
      ensures InTransaction()
      ensures match Database.CloseSession(old(Contents()), stickId, holderSub, at)
              case Ok(db) => r == Ok(()) && Contents() == db
              case Err(error) => r == Err(error)
    {
      var affected := set j | j in sessions
                              && sessions[j].stickId == stickId && sessions[j].Open()
                              && sessions[j].holderSub == holderSub;
      assert affected == OpenSessionsBy(Contents(), stickId, holderSub);
      ghost var before := Contents();
      sessions := map j | j in sessions :: if j in affected then sessions[j].(releasedAt := Some(at)) else sessions[j];
      assert sessions == map j | j in before.sessions ::
                           if IsOpenBy(before, j, stickId, holderSub) then before.sessions[j].(releasedAt := Some(at))
                           else before.sessions[j];
      if |affected| != 1 {
        return Err(ActiveSessionMissing);
      }
      r := Ok(());
    }

    /** Inserts a row under the next id of the outbox sequence. */
    method InsertRow(row: Row) returns (n: nat)
      requires InTransaction()
      modifies this`outbox, this`nextOutbox
      ensures InTransaction()
      ensures n == old(nextOutbox) && n !in old(outbox) && nextOutbox == n + 1
      ensures outbox == old(outbox)[n := row]
    {
      n := nextOutbox;
      nextOutbox := nextOutbox + 1;
      outbox := outbox[n := row];
    }

    /** Walks the subscriptions of the stick in any order and inserts a row for each. */
    method EnqueueReleaseNotifications(before: Stick, at: Time) returns (r: Result<()>, ghost rows: map<nat, Key>)
      requires InTransaction()
      modifies this`outbox, this`nextOutbox
      ensures InTransaction()
      ensures Assigns(old(Contents()), before.id, rows)
      ensures match Database.EnqueueReleaseNotifications(old(Contents()), before, at, rows)
              case Ok(db) => r == Ok(()) && Contents() == db
              case Err(error) => r == Err(error) && Contents() == old(Contents())
    {
      hide Run, Step, ValidRun, PartlyAssigned, NewRows, Assigns;
      ghost var db := Contents();
      var cursor := set key | key in subscriptions && key.stickId == before.id;
      assert cursor == Subscribers(db, before.id);
      StartAssignment(db, before.id);
      if before.holder.None? {
        ghost var bound;
        rows, bound := AssignmentExists(db, before.id, cursor, map[], nextOutbox);
        FullyAssigned(db, before.id, rows);
        return Err(NoHolderSnapshot), rows;
      }
      rows := map[];
      NoNewRows(db, before, before.holder.value, at);
      hide Subscribers;
      while cursor != {}
        invariant InTransaction() && Contents() == db.(outbox := outbox) && cursor <= db.subscriptions.Keys
        invariant PartlyAssigned(db, before.id, cursor, rows)
        invariant forall n | n in rows || n in db.outbox :: n < nextOutbox
        invariant outbox == db.outbox + NewRows(db, before, before.holder.value, at, rows)
        decreases |cursor|
      {
        var key :| key in cursor;
        var n := InsertRow(NewRow(SnapshotOf(before, before.holder.value, at, key, subscriptions[key]), at));
        AssignNext(db, before.id, cursor, rows, key, n);
        NewRowsSnoc(db, before, before.holder.value, at, rows, n, key);
        rows := rows[n := key];
        cursor := cursor - {key};
      }
      FullyAssigned(db, before.id, rows);
      r := Ok(());
    }

    method Subscribe(stickId: string, identity: Identity, token: Token) returns (r: Result<()>)
      requires InTransaction()
      modifies this`subscriptions
      ensures InTransaction()
      ensures match Database.Subscribe(old(Contents()), stickId, identity, token)
              case Ok(db) => r == Ok(()) && Contents() == db
              case Err(error) => r == Err(error) && Contents() == old(Contents())
    {
      var key := Key(stickId, identity.sub);
      var clash := set other | other in subscriptions && other != key && subscriptions[other].generation == token;
      assert clash != {} <==> exists other | other in subscriptions ::
                                other != key && HasGeneration(Contents(), other, token) by {
        if other :| other in subscriptions && other != key && HasGeneration(Contents(), other, token) {
          assert other in clash;
        }
        if other :| other in clash {
          assert HasGeneration(Contents(), other, token);
        }
      }
      if clash != {} {
        return Err(DuplicateGeneration);
      }
      subscriptions := subscriptions[key := Subscription(identity.name, identity.email, token)];
      r := Ok(());
    }

    method Unsubscribe(stickId: string, subject: string)
      requires InTransaction()
      modifies this`subscriptions
      ensures InTransaction()
      ensures Contents() == Database.Unsubscribe(old(Contents()), stickId, subject)
    {
      subscriptions := subscriptions - {Key(stickId, subject)};
    }

    /** The lowest eligible row, or the end of the outbox. */
    method NextEligible(now: Time, staleBefore: Time) returns (n: nat)
      ensures n < nextOutbox ==> n in outbox && Eligible(outbox[n], now, staleBefore)
      ensures n <= nextOutbox && forall m | m in outbox && m < n :: !Eligible(outbox[m], now, staleBefore)
    {
      n := 0;
      while n < nextOutbox && (n !in outbox || !Eligible(outbox[n], now, staleBefore))
        invariant n <= nextOutbox
        invariant forall m | m in outbox && m < n :: !Eligible(outbox[m], now, staleBefore)
      {
        n := n + 1;
      }
    }

    /** Claims the eligible row with the lowest id, if there is one. */
    method ClaimNotification(now: Time, staleBefore: Time, token: Token) returns (delivery: Option<Delivery>)
      requires Valid() && token !in Used(log)
      modifies this
      ensures Valid()
      ensures log == old(log)
                     + [OpClaim(if delivery.Some? then Some(delivery.value.id) else None, now, staleBefore, token)]
      ensures Step(Run(old(log)), log[|log| - 1]).reply == Ok(GotDelivery(delivery))
      ensures delivery.None? ==>
                && Contents() == old(Contents())
                && forall n | n in old(outbox) :: !Eligible(old(outbox)[n], now, staleBefore)
      ensures delivery.Some? ==>
                var n := delivery.value.id;
                && n in old(outbox) && Eligible(old(outbox)[n], now, staleBefore)
                && (forall m | m in old(outbox) && m < n :: !Eligible(old(outbox)[m], now, staleBefore))
                && var row := old(outbox)[n];
                && delivery.value.snapshot == row.snapshot && delivery.value.attempts == row.attempts + 1
                && delivery.value.claimToken == token
                && Contents() == old(Contents()).(outbox := outbox)
                && outbox == old(outbox)[n :=
                             Row(row.snapshot, InProgress, row.attempts + 1, row.nextAttemptAt, Some(token), Some(now),
                                 Some(now), row.deliveredAt, row.lastError)]
    {
      hide Run, Step, ValidRun, Admissible, Used, Eligible;
      var n := NextEligible(now, staleBefore);
      if n == nextOutbox {
        ClaimNone(log, now, staleBefore, token);
        Snoc(log, OpClaim(None, now, staleBefore, token));
        delivery := None;
        log := log + [OpClaim(None, now, staleBefore, token)];
      } else {
        var row := outbox[n];
        ClaimTakes(log, n, row, now, staleBefore, token);
        Snoc(log, OpClaim(Some(n), now, staleBefore, token));
        delivery := Some(Delivery(n, row.snapshot, row.attempts + 1, token));
        outbox := outbox[n := ClaimedRow(row, now, token)];
        log := log + [OpClaim(Some(n), now, staleBefore, token)];
      }
    }

    /** Records a delivery and drops the subscription generation it was for. */
    method MarkNotificationSucceeded(delivery: Delivery, at: Time) returns (r: Result<()>)
      requires Valid() && delivery in Deliveries(log)
      modifies this
      ensures Valid() && log == old(log) + [OpSucceed(delivery, at)]
      ensures r == match Step(Run(old(log)), OpSucceed(delivery, at)).reply
                   case Ok(_) => Ok(())
                   case Err(error) => Err(error)
      ensures r == if delivery.id in old(outbox) && old(outbox)[delivery.id].status == InProgress
                      && old(outbox)[delivery.id].claimToken == Some(delivery.claimToken)
                   then Ok(()) else Err(ClaimLost)
      ensures r.Err? ==> Contents() == old(Contents())
      ensures r.Ok? ==>
                var row, sent := old(outbox)[delivery.id], delivery.snapshot;
                var key := Key(sent.stickId, sent.recipientSub);
                && sticks == old(sticks) && sessions == old(sessions)
                && outbox == old(outbox)[delivery.id :=
                             Row(row.snapshot, Succeeded, row.attempts, None, None, None, row.lastAttemptAt, Some(at),
                                 row.lastError)]
                && subscriptions == if key in old(subscriptions)
                                       && old(subscriptions)[key].generation == sent.generation
                                    then old(subscriptions) - {key} else old(subscriptions)
    {
      Begin();
      if !(delivery.id in outbox && outbox[delivery.id].status == InProgress
           && outbox[delivery.id].claimToken == Some(delivery.claimToken)) {
        Rollback(OpSucceed(delivery, at));
        return Err(ClaimLost);
      }
      outbox := outbox[delivery.id := SucceededRow(outbox[delivery.id], at)];
      var key := delivery.snapshot.Recipient();
      if key in subscriptions && subscriptions[key].generation == delivery.snapshot.generation {
        subscriptions := subscriptions - {key};
      }
      Commit(OpSucceed(delivery, at));
      r := Ok(());
    }

    /** Records a failed attempt and when to try again. */
    method MarkNotificationFailed(delivery: Delivery, next: Time, failure: string) returns (r: Result<()>)
      requires Valid() && delivery in Deliveries(log)
      modifies this
      ensures Valid() && log == old(log) + [OpFail(delivery, next, failure)]
      ensures r == match Step(Run(old(log)), OpFail(delivery, next, failure)).reply
                   case Ok(_) => Ok(())
                   case Err(error) => Err(error)
      ensures r == if delivery.id in old(outbox) && old(outbox)[delivery.id].status == InProgress
                      && old(outbox)[delivery.id].claimToken == Some(delivery.claimToken)
                   then Ok(()) else Err(ClaimLost)
      ensures r.Err? ==> Contents() == old(Contents())
      ensures r.Ok? ==>
                var row := old(outbox)[delivery.id];
                && Contents() == old(Contents()).(outbox := outbox)
                && outbox == old(outbox)[delivery.id :=
                             Row(row.snapshot, Failed, row.attempts, Some(next), None, None, row.lastAttemptAt,
                                 row.deliveredAt, Some(failure))]
    {
      ghost var op := OpFail(delivery, next, failure);
      Snoc(log, op);
      if delivery.id in outbox && outbox[delivery.id].status == InProgress
         && outbox[delivery.id].claimToken == Some(delivery.claimToken) {
        outbox := outbox[delivery.id := FailedRow(outbox[delivery.id], next, failure)];
        r := Ok(());
      } else {
        r := Err(ClaimLost);
      }
      log := log + [op];
    }
  }
}
