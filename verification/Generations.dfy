/** Where every subscription generation went. */
module Generations {
  import opened Database
  import opened Protocol
  import opened Consistency
  import opened Fencing

  /** Operation `i` subscribed this user to this stick and issued this token. */
  predicate Issued(log: Log, i: nat, key: Key, token: Token) {
    Accepted(log, i) && log[i].OpSubscribe? && Key(log[i].id, log[i].identity.sub) == key && log[i].token == token
  }

  /** Operation `j` replaced or withdrew whatever subscription this user had on this stick. */
  predicate Ended(log: Log, j: nat, key: Key) {
    Accepted(log, j)
    && ((log[j].OpSubscribe? && Key(log[j].id, log[j].identity.sub) == key)
        || (log[j].OpUnsubscribe? && Key(log[j].id, log[j].subject) == key))
  }

  ghost predicate EndedAfter(log: Log, i: nat, key: Key) {
    exists j: nat :: i < j < |log| && Ended(log, j, key)
  }

  predicate IsDelivered(db: Tables, n: nat, token: Token) {
    n in db.outbox && db.outbox[n].status == Succeeded && db.outbox[n].snapshot.generation == token
  }

  ghost predicate Delivered(db: Tables, token: Token) {
    exists n: nat :: IsDelivered(db, n, token)
  }

  lemma AcceptedPrefix(log: Log, i: nat, n: nat)
    requires n <= |log| && i < n
    ensures Accepted(log[..n], i) == Accepted(log, i) && log[..n][i] == log[i]
    ensures ReplyAt(log[..n], i) == ReplyAt(log, i)
  {
    assert log[..n][..i] == log[..i];
  }

  /** Generation tokens are issued once. */
  lemma IssuedOnce(log: Log, i: nat, j: nat, k: Key, l: Key, token: Token)
    requires ValidRun(log) && Issued(log, i, k, token) && Issued(log, j, l, token)
    ensures i == j && k == l
  {
    if i < j {
      NotReissued(log, i, j);
    } else if j < i {
      NotReissued(log, j, i);
    }
  }

  lemma TokenIsUsed(log: Log, i: nat)
    requires i < |log|
    ensures TokenOf(log[i]) <= Used(log[..i + 1])
  {
    hide Run, Step, ValidRun;
    assert log[..i + 1][..i] == log[..i];
  }

  lemma TokenIsNew(log: Log, j: nat)
    requires ValidRun(log) && j < |log| && log[j].OpSubscribe?
    ensures log[j].token !in Used(log[..j])
  {
    PrefixValid(log, j);
    hide Run, Step, ValidRun;
  }

  lemma NotReissued(log: Log, i: nat, j: nat)
    requires ValidRun(log) && i < j < |log| && log[i].OpSubscribe? && log[j].OpSubscribe?
    ensures log[i].token != log[j].token
  {
    var front := log[..j];
    TokenIsNew(log, j);
    TokenIsUsed(front, i);
    assert front[i] == log[i];
    hide Run, Step, ValidRun, Used;
    UsedGrows(front, i + 1);
    assert log[i].token in TokenOf(front[i]);
  }

  /** What the last operation does to one user's subscription on one stick. */
  lemma LastSubscriptionStep(log: Log, key: Key, token: Token)
    requires ValidRun(log) && log != []
    ensures var i, front, op := |log| - 1, log[..|log| - 1], log[|log| - 1];
            && ValidRun(front) && Admissible(front, op)
            && (Issued(log, i, key, token) ==>
                  && HasGeneration(Run(log), key, token)
                  && Run(log).subscriptions[key].name == op.identity.name
                  && Run(log).subscriptions[key].email == op.identity.email)
            && (HasGeneration(Run(log), key, token) && !Issued(log, i, key, token) ==>
                  && HasGeneration(Run(front), key, token)
                  && Run(log).subscriptions[key] == Run(front).subscriptions[key])
            && (Ended(log, i, key) && !Issued(log, i, key, token) ==> !HasGeneration(Run(log), key, token))
            && (!Ended(log, i, key) && !(op.OpSucceed? && Touched(Run(front), op).Some?) ==>
                  (HasGeneration(Run(log), key, token) <==> HasGeneration(Run(front), key, token)))
            && (op.OpSucceed? && Touched(Run(front), op).Some? ==>
                  (HasGeneration(Run(log), key, token) <==>
                   && HasGeneration(Run(front), key, token)
                   && !(op.delivery.snapshot.Recipient() == key && op.delivery.snapshot.generation == token)))
  {
    var i := |log| - 1;
    var front, op := log[..i], log[i];
    var db := Run(front);
    if op.OpTransition? {
      ReachableConsistent(front);
      TransitionStep(db, op);
    } else if IsWorkerOp(op) {
      WorkerWrites(db, op);
    } else if op.OpSubscribe? {
      assert Accepted(log, i) ==> Run(log) == Subscribe(db, op.id, op.identity, op.token).value;
    }
  }

  /** Every live subscription carries a generation that was issued to that very user for
      that very stick, with the name and address given then. */
  lemma {:induction false} LiveWasIssued(log: Log, key: Key, token: Token) returns (i: nat)
    requires ValidRun(log) && HasGeneration(Run(log), key, token)
    ensures Issued(log, i, key, token)
    ensures Run(log).subscriptions[key].name == log[i].identity.name
            && Run(log).subscriptions[key].email == log[i].identity.email
  {
    var last := |log| - 1;
    LastSubscriptionStep(log, key, token);
    hide Run, Step;
    if Issued(log, last, key, token) {
      i := last;
    } else {
      i := LiveWasIssued(log[..last], key, token);
      AcceptedPrefix(log, i, last);
    }
  }

  /** So does every outbox row, whatever became of the subscription since. */
  lemma {:induction false} RowWasIssued(log: Log, n: nat) returns (i: nat)
    requires ValidRun(log) && n in Run(log).outbox
    ensures Issued(log, i, Run(log).outbox[n].snapshot.Recipient(), Run(log).outbox[n].snapshot.generation)
    ensures Run(log).outbox[n].snapshot.recipientName == log[i].identity.name
    ensures Run(log).outbox[n].snapshot.recipientEmail == log[i].identity.email
  {
    var last := |log| - 1;
    var front, op := log[..last], log[last];
    LastOutboxStep(log, n);
    if Touches(front, op, n) {
      RewrittenOk(Run(front), op);
    }
    hide Run, Step;
    if n in Run(front).outbox {
      i := RowWasIssued(front, n);
    } else {
      var key := op.grant.rows[n];
      assert Run(log).outbox[n].snapshot.Recipient() == key by {
        assert Consistent(Run(front));
      }
      assert HasGeneration(Run(front), key, Run(front).subscriptions[key].generation);
      i := LiveWasIssued(front, key, Run(front).subscriptions[key].generation);
    }
    AcceptedPrefix(log, i, last);
  }

  lemma {:induction false} EmptyIsUsed(log: Log)
    ensures "" in Used(log)
  {
    if log != [] {
      EmptyIsUsed(log[..|log| - 1]);
    }
  }

  lemma IssuedNotEmpty(log: Log, i: nat, key: Key, token: Token)
    requires ValidRun(log) && Issued(log, i, key, token)
    ensures token != ""
  {
    hide Run, Step, ValidRun;
    TokenIsNew(log, i);
    EmptyIsUsed(log[..i]);
  }

  ghost predicate GenerationsNotEmpty(db: Tables) {
    && (forall key | key in db.subscriptions :: |db.subscriptions[key].generation| > 0)
    && (forall n | n in db.outbox :: |db.outbox[n].snapshot.generation| > 0)
  }

  /** Every reachable database meets all that the schema declares: the constraints on sticks,
      sessions and outbox rows, the references and unique indexes, and generation tokens that
      are not empty. */
  lemma SchemaHolds(log: Log)
    requires ValidRun(log)
    ensures Consistent(Run(log)) && GenerationsNotEmpty(Run(log))
  {
    ReachableConsistent(log);
    hide Step, ValidRun, Consistent, Issued, Run;
    forall key | key in Run(log).subscriptions
      ensures |Run(log).subscriptions[key].generation| > 0
    {
      var token := Run(log).subscriptions[key].generation;
      var i := LiveWasIssued(log, key, token);
      IssuedNotEmpty(log, i, key, token);
    }
    forall n | n in Run(log).outbox
      ensures |Run(log).outbox[n].snapshot.generation| > 0
    {
      var i := RowWasIssued(log, n);
      IssuedNotEmpty(log, i, Run(log).outbox[n].snapshot.Recipient(), Run(log).outbox[n].snapshot.generation);
    }
  }

  /** Whether the last operation delivers this generation. */
  lemma LastDelivery(log: Log, token: Token)
    requires ValidRun(log) && log != []
    ensures var front, op := log[..|log| - 1], log[|log| - 1];
            Delivered(Run(log), token) <==>
            || Delivered(Run(front), token)
            || (op.OpSucceed? && Touched(Run(front), op).Some? && op.delivery.snapshot.generation == token)
  {
    var front, op := log[..|log| - 1], log[|log| - 1];
    PrefixValid(log, |log| - 1);
    if op.OpSucceed? && Touched(Run(front), op).Some? {
      DeliverySnapshot(front, op.delivery);
      LastOutboxStep(log, op.delivery.id);
      assert IsDelivered(Run(log), op.delivery.id, op.delivery.snapshot.generation);
    }
    hide Run, Step;
    if n: nat :| IsDelivered(Run(front), n, token) {
      LastOutboxStep(log, n);
      if Touches(front, op, n) {
        SucceededUntouchable(Run(front), op);
      }
      assert IsDelivered(Run(log), n, token);
    }
    if n: nat :| IsDelivered(Run(log), n, token) && !IsDelivered(Run(front), n, token) {
      LastOutboxStep(log, n);
      assert Touches(front, op, n) && op.OpSucceed?;
      assert n == op.delivery.id;
    }
  }

  /** No generation is lost.  Once issued, a generation is live for its user and stick if
      and only if none of three things has happened: the user subscribed to the stick
      again, the user unsubscribed from it, or a notification of that generation was
      delivered. */
  lemma {:induction false} GenerationAccounting(log: Log, i: nat, key: Key, token: Token)
    requires ValidRun(log) && Issued(log, i, key, token)
    ensures HasGeneration(Run(log), key, token) <==> !EndedAfter(log, i, key) && !Delivered(Run(log), token)
  {
    var last := |log| - 1;
    var front, op := log[..last], log[last];
    LastSubscriptionStep(log, key, token);
    LastDelivery(log, token);
    if i == last {
      FreshNotDelivered(front, token);
    } else {
      AcceptedPrefix(log, i, last);
      GenerationAccounting(front, i, key, token);
      hide Run, Step;
      EndedStep(log, i, key);
      if op.OpSucceed? && Touched(Run(front), op).Some? && op.delivery.snapshot.generation == token {
        DeliverySnapshot(front, op.delivery);
        var j := RowWasIssued(front, op.delivery.id);
        IssuedOnce(front, i, j, key, op.delivery.snapshot.Recipient(), token);
      }
      if Issued(log, last, key, token) {
        IssuedOnce(log, i, last, key, key, token);
      }
    }
  }

  lemma FreshNotDelivered(log: Log, token: Token)
    requires ValidRun(log) && token !in Used(log)
    ensures !Delivered(Run(log), token)
  {
    ReachableTokens(log);
  }

  lemma EndedStep(log: Log, i: nat, key: Key)
    requires i < |log| - 1
    ensures EndedAfter(log, i, key) <==> EndedAfter(log[..|log| - 1], i, key) || Ended(log, |log| - 1, key)
  {
    var last := |log| - 1;
    forall j: nat | j < last
      ensures Ended(log, j, key) <==> Ended(log[..last], j, key)
    {
      AcceptedPrefix(log, j, last);
    }
    if Ended(log, last, key) {
      assert i < last < |log|;
    }
  }

  /** Delivering an old notification never removes a newer subscription of the same user
      to the same stick. */
  lemma OldDeliveryKeepsResubscription(log: Log, i: nat, j: nat, k: nat, key: Key, token: Token, newer: Token)
    requires ValidRun(log) && i < j < k
    requires Issued(log, i, key, token) && Issued(log, j, key, newer)
    requires Accepted(log, k) && log[k].OpSucceed? && log[k].delivery.snapshot.generation == token
    ensures HasGeneration(Run(log[..k + 1]), key, newer) <==> HasGeneration(Run(log[..k]), key, newer)
  {
    hide Run, Step;
    NotReissued(log, i, j);
    PrefixValid(log, k + 1);
    assert log[..k + 1][..k] == log[..k];
    TouchedIffAccepted(Run(log[..k]), log[k]);
    LastSubscriptionStep(log[..k + 1], key, newer);
  }
}
