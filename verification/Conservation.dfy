/** Nothing that is owed is lost: what a release enqueues, that only releases enqueue, and
    that a row still owed is eventually claimable. */
module Conservation {
  import opened Core
  import opened Database
  import opened Protocol
  import opened Consistency
  import opened Fencing

  predicate IsNewRow(db: Tables, after: Tables, n: nat) {
    n in after.outbox && n !in db.outbox
  }

  ghost predicate HasNewRowFor(db: Tables, after: Tables, key: Key) {
    exists n: nat :: IsNewRow(db, after, n) && after.outbox[n].snapshot.Recipient() == key
  }

  /** No two new rows are for the same recipient. */
  ghost predicate NewRecipientsDiffer(db: Tables, after: Tables) {
    forall m: nat, n: nat | IsNewRow(db, after, m) && IsNewRow(db, after, n) ::
      after.outbox[m].snapshot.Recipient() == after.outbox[n].snapshot.Recipient() ==> m == n
  }

  predicate AcceptedRelease(log: Log, i: nat) {
    i < |log| && log[i].OpTransition? && log[i].change.Release?
    && Proceeds(Run(log[..i]), log[i].id, log[i].expected, log[i].change)
  }

  lemma {:induction false} BijectionSize(rows: map<nat, Key>, keys: set<Key>)
    requires forall n | n in rows :: rows[n] in keys
    requires forall key | key in keys :: exists n :: n in rows && rows[n] == key
    requires forall m, n | m in rows && n in rows && rows[m] == rows[n] :: m == n
    ensures |rows| == |keys|
  {
    if keys == {} {
      assert rows == map[];
    } else {
      var key :| key in keys;
      var n :| n in rows && rows[n] == key;
      var fewer := rows - {n};
      forall other | other in keys - {key}
        ensures exists m :: m in fewer && fewer[m] == other
      {
        var m :| m in rows && rows[m] == other;
        assert m in fewer && fewer[m] == other;
      }
      BijectionSize(fewer, keys - {key});
      assert rows.Keys == fewer.Keys + {n};
    }
  }

  /** A committed release adds exactly one pending row for each subscription live at that
      point, carrying the stick and holder as they were before the release, and it adds
      nothing else; the rows keep those snapshots for ever. */
  lemma ReleaseNotifiesEachSubscriberOnce(log: Log, i: nat)
    requires ValidRun(log) && AcceptedRelease(log, i)
    ensures var db, after, op := Run(log[..i]), Run(log[..i + 1]), log[i];
            && db.sticks[op.id].holder.Some?
            && (forall n: nat | IsNewRow(db, after, n) ::
                  var key := after.outbox[n].snapshot.Recipient();
                  && SubscribedTo(db, key, op.id)
                  && after.outbox[n].status == Pending
                  && after.outbox[n].nextAttemptAt == Some(op.change.releasedAt)
                  && var s, stick, holder, subscription :=
                       after.outbox[n].snapshot, db.sticks[op.id], db.sticks[op.id].holder.value, db.subscriptions[key];
                  && s.stickId == op.id && s.stickName == stick.name
                  && s.holderName == holder.name && s.holderEmail == holder.email
                  && s.heldSince == holder.claimedAt && s.releasedAt == op.change.releasedAt
                  && s.recipientName == subscription.name && s.recipientEmail == subscription.email
                  && s.generation == subscription.generation)
            && (forall key | SubscribedTo(db, key, op.id) :: HasNewRowFor(db, after, key))
            && NewRecipientsDiffer(db, after)
            && (forall n | n in db.outbox :: n in after.outbox && after.outbox[n] == db.outbox[n])
            && (forall n | n in after.outbox ::
                  n in Run(log).outbox && Run(log).outbox[n].snapshot == after.outbox[n].snapshot)
            && |after.outbox| == |db.outbox| + |Subscribers(db, op.id)|
  {
    var front, whole, op := log[..i], log[..i + 1], log[i];
    var db, after := Run(front), Run(whole);
    var rows := op.grant.rows;
    assert whole[..i] == front;
    PrefixValid(log, i);
    PrefixValid(log, i + 1);
    ReachableConsistent(front);
    assert Assigns(db, op.id, rows);
    TransitionStep(db, op);
    assert forall n: nat :: Touches(front, op, n) ==> false;
    assert db.sticks[op.id].id == op.id;
    hide Step, Run, Consistent, Assigns;
    forall n: nat
      ensures IsNewRow(db, after, n) <==> n in rows
      ensures n in rows ==> SubscribedTo(db, rows[n], op.id) && after.outbox[n] == EnqueuedRow(db, op, n)
      ensures n in db.outbox ==> n in after.outbox && after.outbox[n] == db.outbox[n]
    {
      LastOutboxStep(whole, n);
    }
    NewRowsCoverSubscribers(db, after, op.id, rows);
    NewRowsCount(db, after, op.id, rows);
    forall n | n in after.outbox
      ensures n in Run(log).outbox && Run(log).outbox[n].snapshot == after.outbox[n].snapshot
    {
      RowsPersist(log, i + 1, n);
    }
  }

  lemma NewRowsCoverSubscribers(db: Tables, after: Tables, id: string, rows: map<nat, Key>)
    requires Assigns(db, id, rows)
    requires forall n: nat :: IsNewRow(db, after, n) <==> n in rows
    requires forall n: nat | n in rows :: n in after.outbox && after.outbox[n].snapshot.Recipient() == rows[n]
    ensures forall key | SubscribedTo(db, key, id) :: HasNewRowFor(db, after, key)
    ensures NewRecipientsDiffer(db, after)
  {
    forall key | SubscribedTo(db, key, id)
      ensures HasNewRowFor(db, after, key)
    {
      var n: nat :| n in rows && rows[n] == key;
      assert IsNewRow(db, after, n);
    }
  }

  lemma NewRowsCount(db: Tables, after: Tables, id: string, rows: map<nat, Key>)
    requires Assigns(db, id, rows)
    requires forall n: nat :: IsNewRow(db, after, n) <==> n in rows
    requires forall n: nat | n in db.outbox :: n in after.outbox
    ensures |after.outbox| == |db.outbox| + |Subscribers(db, id)|
  {
    BijectionSize(rows, Subscribers(db, id));
    hide Assigns, Subscribers;
    forall n: nat
      ensures n in rows <==> n in after.outbox && n !in db.outbox
    {
      assert IsNewRow(db, after, n) <==> n in rows;
    }
    hide IsNewRow;
    KeysAddUp(db.outbox, rows, after.outbox);
  }

  lemma KeysAddUp<V, W>(before: map<nat, V>, added: map<nat, W>, all: map<nat, V>)
    requires forall n: nat :: n in added <==> n in all && n !in before
    requires forall n: nat | n in before :: n in all
    ensures |all| == |before| + |added|
  {
    assert all.Keys == before.Keys + added.Keys;
    assert |all| == |all.Keys| && |before| == |before.Keys| && |added| == |added.Keys|;
  }

  /** No other operation adds a row. */
  lemma OnlyReleasesEnqueue(log: Log, i: nat)
    requires ValidRun(log) && i < |log| && !AcceptedRelease(log, i)
    ensures Run(log[..i + 1]).outbox.Keys == Run(log[..i]).outbox.Keys
  {
    var front, whole, op := log[..i], log[..i + 1], log[i];
    assert whole[..i] == front;
    PrefixValid(log, i + 1);
    hide Run, Step;
    forall n: nat
      ensures n in Run(whole).outbox <==> n in Run(front).outbox
    {
      LastOutboxStep(whole, n);
    }
  }

  /** The notifications a run has promised: one per subscriber at each accepted release. */
  function Promised(log: Log): nat {
    if log == [] then 0 else
    var i := |log| - 1;
    Promised(log[..i]) + if AcceptedRelease(log, i) then |Subscribers(Run(log[..i]), log[i].id)| else 0
  }

  lemma {:induction false} OutboxHoldsEveryPromise(log: Log)
    requires ValidRun(log)
    ensures |Run(log).outbox| == Promised(log)
  {
    if log != [] {
      var i := |log| - 1;
      assert log[..i + 1] == log;
      OutboxHoldsEveryPromise(log[..i]);
      if AcceptedRelease(log, i) {
        ReleaseNotifiesEachSubscriberOnce(log, i);
      } else {
        OnlyReleasesEnqueue(log, i);
        assert |Run(log).outbox| == |Run(log).outbox.Keys| && |Run(log[..i]).outbox| == |Run(log[..i]).outbox.Keys|;
      }
    }
  }

  /** A row not yet succeeded is eligible exactly from its retry time, or the end of its claim,
      on; a succeeded one never is. */
  lemma EligibleWhenReady(row: Row, now: Time, claimTTL: Time)
    requires WellFormedRow(row)
    ensures Eligible(row, now, now - claimTTL) <==>
            match row.status
            case Succeeded => false
            case InProgress => now >= row.claimedAt.value + claimTTL
            case _ => now >= row.nextAttemptAt.value
  {
  }

  /** A row in the outbox is never stuck: if it has not succeeded and no worker takes
      effect on it, it stays claimable from its finite ready time on, for ever. */
  lemma {:induction false} NeverStuck(log: Log, i: nat, n: nat, claimTTL: Time, now: Time)
    requires ValidRun(log) && i <= |log| && n in Run(log[..i]).outbox
    requires Run(log[..i]).outbox[n].status != Succeeded
    requires forall k: nat | i <= k < |log| :: !Touches(log[..k], log[k], n)
    ensures WellFormedRow(Run(log[..i]).outbox[n])
    ensures n in Run(log).outbox
    ensures Eligible(Run(log).outbox[n], now, now - claimTTL) <==>
            var row := Run(log[..i]).outbox[n];
            now >= if row.status == InProgress then row.claimedAt.value + claimTTL else row.nextAttemptAt.value
  {
    if i == |log| {
      assert log[..i] == log;
      ReachableConsistent(log);
      EligibleWhenReady(Run(log).outbox[n], now, claimTTL);
    } else {
      var front := log[..|log| - 1];
      assert front[..i] == log[..i];
      forall k: nat | i <= k < |front|
        ensures !Touches(front[..k], front[k], n)
      {
        assert front[..k] == log[..k];
      }
      hide Step, Run;
      LastOutboxStep(log, n);
      NeverStuck(front, i, n, claimTTL, now);
    }
  }
}
