/** No transaction in flight can fail after its first statement, and none can be stuck: it can
    go on, or it waits for a subscription lock whose holder only has to commit.  All of them
    can always be brought to their commits. */
module Progress {
  import opened Core
  import opened Database
  import opened Protocol
  import opened Consistency
  import opened Interleaving
  import opened Serializability

  /** The transaction's next statement, or its commit, can run now. */
  ghost predicate CanProceed(s: Sys, a: Agent) {
    exists act :: NextOf(act, a) && Do(s, act).Some?
  }

  predicate NextOf(act: Action, a: Agent) {
    match act
    case Save(b) => a == b
    case Open(b) => a == b
    case Close(b, _) => a == b
    case Enqueue(b, _, _) => a == b
    case Write(b) => a == b
    case Delete(b) => a == b
    case Commit(b) => a == b
    case _ => false
  }

  /** The subscription whose lock the transaction's next statement may have to wait for. */
  function Wanted(tx: Tx): Option<Key> {
    match tx
    case FollowTx(id, identity, _, _, false) => Some(Key(id, identity.sub))
    case UnfollowTx(id, subject, _, false, _) => Some(Key(id, subject))
    case MarkTx(delivery, _, _, false, _) => Some(delivery.snapshot.Recipient())
    case _ => None
  }

  /** `b` holds the lock that `a` wants, has only to commit, and lets `a` go on when it does. */
  ghost predicate WaitsFor(s: Sys, a: Agent, b: Agent) {
    && a in s.txs && b in s.txs && b != a
    && Wanted(s.txs[a]).Some? && KeyLock(s.txs[b]) == Wanted(s.txs[a])
    && Do(s, Commit(b)).Some? && CanProceed(Do(s, Commit(b)).value, a)
  }

  /** The transaction goes on, now or after one commit. */
  ghost predicate GoesOn(s: Sys, a: Agent) {
    CanProceed(s, a) || exists b :: WaitsFor(s, a, b)
  }

  lemma NextEnabled(s: Sys, a: Agent, act: Action)
    requires NextOf(act, a) && Do(s, act).Some?
    ensures CanProceed(s, a)
  {
  }

  /** Only transactions with nothing left to do hold subscription locks. */
  lemma KeyHolderDone(s: Sys, log: Log, b: Agent)
    requires Explains(log, s) && b in s.txs && KeyLock(s.txs[b]).Some?
    ensures AllDone(s.txs[b]) && Do(s, Commit(b)).Some?
  {
    hide Run, Step, ChangeOk, Accounts;
    assert TxOk(s, log, s.txs[b]);
  }

  lemma ChangeProceeds(s: Sys, log: Log, a: Agent)
    requires Explains(log, s) && a in s.txs && s.txs[a].ChangeTx?
    ensures CanProceed(s, a)
  {
    var tx := s.txs[a];
    assert TxOk(s, log, tx);
    ExplainsRun(log, s);
    ExplainsParts(log, s);
    if AllDone(tx) {
      NextEnabled(s, a, Commit(a));
    } else {
      StageBeforeLast(s, log, tx);
      hide Explains, TxOk, ChangeOk, CanProceed, Do;
      match tx.stage
      case Read => ReadProceeds(s, log, a);
      case Saved => SavedProceeds(s, log, a);
      case Closed(_, _) => ClosedProceeds(s, log, a);
    }
  }

  lemma StageBeforeLast(s: Sys, log: Log, tx: Tx)
    requires tx.ChangeTx? && TxOk(s, log, tx) && !AllDone(tx)
    ensures ChangeOk(s, log, tx)
    ensures tx.stage.Read? || tx.stage.Saved? || tx.stage.Closed?
    ensures tx.stage.Saved? ==> tx.change.Claim? || tx.change.Release?
  {
    hide Run, Step, Insertable, Next, Proceeds;
  }

  lemma ReadProceeds(s: Sys, log: Log, a: Agent)
    requires ValidRun(log) && Run(log) == s.committed && a in s.txs && s.txs[a].ChangeTx? && ChangeOk(s, log, s.txs[a])
    requires s.txs[a].stage.Read?
    ensures CanProceed(s, a)
  {
    var tx := s.txs[a];
    ReachableConsistent(log);
    hide Run, ValidRun, Insertable;
    UnionNothing(s.committed.sticks);
    assert View(s, tx).sticks == s.committed.sticks;
    NextEnabled(s, a, Save(a));
  }

  lemma SavedProceeds(s: Sys, log: Log, a: Agent)
    requires ValidRun(log) && Run(log) == s.committed && a in s.txs && s.txs[a].ChangeTx? && ChangeOk(s, log, s.txs[a])
    requires s.txs[a].stage.Saved? && (s.txs[a].change.Claim? || s.txs[a].change.Release?)
    ensures CanProceed(s, a)
  {
    var tx, db := s.txs[a], s.committed;
    hide Run, Step, Insertable;
    ReachableConsistent(log);
    ViewAtStart(s, tx);
    assert forall k: nat :: IsOpen(View(s, tx), k, tx.id) <==> IsOpen(db, k, tx.id);
    if tx.change.Claim? {
      AvailableHasNoOpenSession(db, tx.id);
      assert OpenSessions(View(s, tx), tx.id) == OpenSessions(db, tx.id);
      hide Next, View;
      NextEnabled(s, a, Open(a));
    } else {
      HolderHasTheOnlyOpenSession(db, tx.id);
      assert OpenSessionsBy(View(s, tx), tx.id, tx.change.subject) == OpenSessionsBy(db, tx.id, tx.change.subject);
      var k := OpenSession(db, tx.id);
      assert k in OpenSessions(db, tx.id);
      hide Next, View, Consistent;
      NextEnabled(s, a, Close(a, k));
    }
  }

  lemma ReleasedWasHeld(s: Sys, log: Log, tx: Tx)
    requires tx.ChangeTx? && ChangeOk(s, log, tx) && tx.stage.Closed?
    ensures tx.change.Release? && tx.before.holder.Some?
  {
  }

  lemma EnqueueEnabled(s: Sys, a: Agent, rows: map<nat, Key>, bound: nat)
    requires a in s.txs && s.txs[a].ChangeTx? && s.txs[a].stage.Closed? && s.txs[a].change.Release?
             && s.txs[a].before.holder.Some?
    requires Assigns(View(s, s.txs[a]), s.txs[a].before.id, rows)
    requires s.nextOutbox <= bound && forall n | n in rows :: s.nextOutbox <= n < bound
    ensures CanProceed(s, a)
  {
    hide Assigns, View, NewRows;
    NextEnabled(s, a, Enqueue(a, rows, bound));
  }

  lemma ClosedProceeds(s: Sys, log: Log, a: Agent)
    requires Explains(log, s) && a in s.txs && s.txs[a].ChangeTx? && ChangeOk(s, log, s.txs[a])
             && s.txs[a].stage.Closed?
    ensures CanProceed(s, a)
  {
    var tx := s.txs[a];
    AheadOf(s, log);
    ReleasedWasHeld(s, log, tx);
    hide Run, Step, Explains, ChangeOk, CanProceed;
    ViewAtStart(s, tx);
    var view := View(s, tx);
    hide View;
    StartAssignment(view, tx.before.id);
    hide PartlyAssigned, Assigns;
    var rows, bound := AssignmentExists(view, tx.before.id, Subscribers(view, tx.before.id), map[], s.nextOutbox);
    FullyAssigned(view, tx.before.id, rows);
    EnqueueEnabled(s, a, rows, bound);
  }

  lemma AheadOf(s: Sys, log: Log)
    requires Explains(log, s)
    ensures Ahead(s)
  {
  }

  lemma FollowWrites(s: Sys, log: Log, a: Agent)
    requires ValidRun(log) && Run(log) == s.committed && a in s.txs && s.txs[a].FollowTx? && TxOk(s, log, s.txs[a])
    requires !s.txs[a].written && KeyFree(s, a, Key(s.txs[a].id, s.txs[a].identity.sub))
    ensures CanProceed(s, a)
  {
    var tx := s.txs[a];
    ReachableTokens(log);
    assert forall key :: !HasGeneration(s.committed, key, tx.token);
    hide Run, Step, ValidRun, KeyFree;
    assert View(s, tx).subscriptions == s.committed.subscriptions;
    NewToken(s.committed, View(s, tx), tx.id, tx.identity, tx.token);
    hide View, HasGeneration, Subscribe;
    NextEnabled(s, a, Write(a));
  }

  lemma NewToken(db: Tables, view: Tables, id: string, identity: Identity, token: Token)
    requires view.subscriptions == db.subscriptions && forall key :: !HasGeneration(db, key, token)
    ensures Subscribe(view, id, identity, token).Ok?
  {
    assert forall key :: HasGeneration(view, key, token) <==> HasGeneration(db, key, token);
  }

  /** Without anyone in its way the next statement runs. */
  lemma Unblocked(s: Sys, log: Log, a: Agent)
    requires Explains(log, s) && a in s.txs && Wanted(s.txs[a]).Some? && KeyFree(s, a, Wanted(s.txs[a]).value)
    ensures CanProceed(s, a)
  {
    ExplainsRun(log, s);
    assert TxOk(s, log, s.txs[a]);
    hide Explains, Run, Step, ValidRun, KeyFree, TxOk;
    match s.txs[a]
    case FollowTx(_, _, _, _, _) => FollowWrites(s, log, a);
    case UnfollowTx(_, _, _, _, _) => NextEnabled(s, a, Write(a));
    case MarkTx(_, _, _, _, _) => NextEnabled(s, a, Delete(a));
  }

  /** Once its holder has committed, nobody else holds the lock. */
  lemma FreedByCommit(s: Sys, log: Log, a: Agent, b: Agent)
    requires Explains(log, s) && a in s.txs && b in s.txs && a != b
    requires Wanted(s.txs[a]).Some? && KeyLock(s.txs[b]) == Wanted(s.txs[a]) && Do(s, Commit(b)).Some?
    ensures WaitsFor(s, a, b)
  {
    ExplainsParts(log, s);
    StatementGoesForward(s, b, Commit(b));
    var t := Do(s, Commit(b)).value;
    hide Do, Explains, CanProceed, Ahead, Dated;
    forall c | c in t.txs && c != a
      ensures KeyLock(t.txs[c]) != Wanted(s.txs[a])
    {
      assert Separate(s.txs[b], s.txs[c]);
    }
    hide Separate;
    var after := Explained(s, log, Commit(b));
    Unblocked(t, after, a);
  }

  /** In every state reached, every transaction in flight can run its next statement or its
      commit without an error now, or it waits for the lock on the one subscription that
      statement needs, whose holder can commit at once and thereby lets it run. */
  lemma NoFailureNoDeadlock(acts: seq<Action>, a: Agent)
    requires Exec(acts).Some? && a in Exec(acts).value.txs
    ensures GoesOn(Exec(acts).value, a)
  {
    var log := Executed(acts);
    hide Explains, Exec;
    InFlightGoesOn(Exec(acts).value, log, a);
  }

  lemma InFlightGoesOn(s: Sys, log: Log, a: Agent)
    requires Explains(log, s) && a in s.txs
    ensures GoesOn(s, a)
  {
    var tx := s.txs[a];
    ExplainsParts(log, s);
    hide Explains, WaitsFor, KeyLock;
    if tx.ChangeTx? {
      ChangeProceeds(s, log, a);
    } else if AllDone(tx) {
      NextEnabled(s, a, Commit(a));
    } else if b :| b in s.txs && b != a && KeyLock(s.txs[b]) == Wanted(tx) {
      KeyHolderDone(s, log, b);
      FreedByCommit(s, log, a, b);
    } else {
      Unblocked(s, log, a);
    }
  }

  // ---- statements that wait before their transaction is in flight ----

  /** SELECT ... FOR UPDATE runs, or waits for the stick's lock, whose holder goes on. */
  lemma StartGoesOn(acts: seq<Action>, a: Agent, request: Request)
    requires Exec(acts).Some? && a !in Exec(acts).value.txs
    requires request.Follow? ==> request.token !in Exec(acts).value.drawn
    ensures var s := Exec(acts).value;
            Do(s, Start(a, request)).Some?
            || exists b :: b in s.txs && StickLock(s.txs[b]) == Some(request.id) && GoesOn(s, b)
  {
    var s := Exec(acts).value;
    if b :| b in s.txs && StickLock(s.txs[b]) == Some(request.id) {
      NoFailureNoDeadlock(acts, b);
    }
    hide Exec, GoesOn, ReadStick, Step;
  }

  /** The UPDATE of a mark runs, or waits for the row's lock, whose holder goes on. */
  lemma MarkGoesOn(acts: seq<Action>, a: Agent, delivery: Delivery, at: Time, failure: string)
    requires Exec(acts).Some? && a !in Exec(acts).value.txs && delivery in Exec(acts).value.deliveries
    ensures var s := Exec(acts).value;
            (Do(s, Mark(a, delivery, at)).Some? && Do(s, Fail(delivery, at, failure)).Some?)
            || exists b :: b in s.txs && RowLock(s.txs[b]) == Some(delivery.id) && GoesOn(s, b)
  {
    var s := Exec(acts).value;
    if b :| b in s.txs && RowLock(s.txs[b]) == Some(delivery.id) {
      NoFailureNoDeadlock(acts, b);
    }
    hide Exec, GoesOn, Owns, Step;
  }

  lemma {:induction false} LowestOf(rows: set<nat>) returns (n: nat)
    requires rows != {}
    ensures n in rows && forall m | m in rows :: n <= m
  {
    var some :| some in rows;
    n := some;
    var rest := rows - {some};
    if rest != {} {
      var least := LowestOf(rest);
      n := if least < some then least else some;
    }
    assert forall m | m in rows :: m == some || m in rest;
  }

  /** A claim never waits: it skips the rows that are locked. */
  lemma TakeNeverWaits(s: Sys, now: Time, staleBefore: Time, token: Token) returns (row: Option<nat>)
    requires token !in s.drawn
    ensures Do(s, Take(row, now, staleBefore, token)).Some?
  {
    var rows := set m | m in s.committed.outbox && RowFree(s, m) && Eligible(s.committed.outbox[m], now, staleBefore);
    if rows == {} {
      row := None;
      assert forall m | m in s.committed.outbox && RowFree(s, m)
                        && Eligible(s.committed.outbox[m], now, staleBefore) :: m in rows;
    } else {
      var n := LowestOf(rows);
      row := Some(n);
      assert forall m | m in s.committed.outbox && RowFree(s, m)
                        && Eligible(s.committed.outbox[m], now, staleBefore) :: m in rows;
    }
    hide RowFree, Eligible, Step;
    assert SkipsTo(s, row, now, staleBefore);
  }

  // ---- everyone can finish ----

  /** Statements a transaction has before it at most. */
  function Remaining(tx: Tx): nat {
    match tx
    case ChangeTx(_, _, _, _, _, Read) => 3
    case ChangeTx(_, _, _, _, _, Saved) => 2
    case ChangeTx(_, _, _, _, _, Closed(_, _)) => 1
    case ChangeTx(_, _, _, _, _, _) => 0
    case FollowTx(_, _, _, _, written) => if written then 0 else 1
    case UnfollowTx(_, _, _, written, _) => if written then 0 else 1
    case MarkTx(_, _, _, deleted, _) => if deleted then 0 else 1
  }

  lemma StatementGoesForward(s: Sys, a: Agent, act: Action)
    requires NextOf(act, a) && Do(s, act).Some?
    ensures var t := Do(s, act).value;
            && a in s.txs && t.drawn == s.drawn && t.deliveries == s.deliveries
            && if act.Commit? then t.txs == s.txs - {a}
               else a in t.txs && t.txs == s.txs[a := t.txs[a]] && Remaining(t.txs[a]) < Remaining(s.txs[a])
  {
    hide View, Assigns, OpenSessions, OpenSessionsBy, SaveStick, Subscribe, KeyFree, Inserted;
  }

  lemma ExecSnoc(acts: seq<Action>, act: Action)
    requires Exec(acts).Some?
    ensures Exec(acts + [act]) == Do(Exec(acts).value, act)
  {
    assert (acts + [act])[..|acts|] == acts;
  }

  predicate GoesForward(act: Action) {
    act.Save? || act.Open? || act.Close? || act.Enqueue? || act.Write? || act.Delete? || act.Commit?
  }

  /** Statements and commits of transactions in flight: nobody starts, nobody is rolled back. */
  predicate OnlyForward(acts: seq<Action>) {
    forall act | act in acts :: GoesForward(act)
  }

  lemma OneMoreForward(act: Action, a: Agent, more: seq<Action>)
    requires NextOf(act, a) && OnlyForward(more)
    ensures OnlyForward([act] + more)
  {
  }

  /** One statement that brings `a` nearer to its commit. */
  lemma StepForward(acts: seq<Action>, a: Agent) returns (act: Action, b: Agent, next: Agent)
    requires Exec(acts).Some? && a in Exec(acts).value.txs
    ensures NextOf(act, b) && Exec(acts + [act]).Some?
    ensures var s, t := Exec(acts).value, Exec(acts + [act]).value;
            && t.drawn == s.drawn && t.deliveries == s.deliveries && (t.txs != map[] ==> next in t.txs)
            && if act.Commit? then |t.txs| < |s.txs|
               else |t.txs| == |s.txs| && next == a && a in t.txs && Remaining(t.txs[a]) < Remaining(s.txs[a])
  {
    var s := Exec(acts).value;
    NoFailureNoDeadlock(acts, a);
    hide Exec, Do, CanProceed, WaitsFor, Remaining, NextOf;
    act, b := NextStatement(s, a);
    StatementGoesForward(s, b, act);
    ExecSnoc(acts, act);
    var t := Do(s, act).value;
    next := a;
    if act.Commit? {
      FewerLeft(s.txs, b);
      if t.txs != map[] {
        next :| next in t.txs;
      }
    } else {
      assert t.txs.Keys == s.txs.Keys;
      assert |t.txs| == |t.txs.Keys| && |s.txs| == |s.txs.Keys|;
    }
  }

  /** From every state reached, all transactions in flight can be run to their commits, none of
      them failing, without anything else happening; then every statement that was waiting
      for a lock finds it free. */
  lemma {:induction false} AllCanFinish(acts: seq<Action>, a: Agent) returns (more: seq<Action>)
    requires Exec(acts).Some? && (Exec(acts).value.txs != map[] ==> a in Exec(acts).value.txs)
    ensures Exec(acts + more).Some? && OnlyForward(more)
    ensures var s, t := Exec(acts).value, Exec(acts + more).value;
            t.txs == map[] && t.drawn == s.drawn && t.deliveries == s.deliveries
    decreases |Exec(acts).value.txs|, if a in Exec(acts).value.txs then Remaining(Exec(acts).value.txs[a]) else 0
  {
    hide Exec, Do, Remaining, NextOf, OnlyForward;
    if Exec(acts).value.txs == map[] {
      more := [];
      assert acts + more == acts;
      NothingForward();
    } else {
      var act, b, next := StepForward(acts, a);
      var rest := AllCanFinish(acts + [act], next);
      more := [act] + rest;
      assert acts + more == acts + [act] + rest;
      OneMoreForward(act, b, rest);
    }
  }

  lemma NothingForward()
    ensures OnlyForward([])
  {
  }

  lemma FewerLeft(txs: map<Agent, Tx>, b: Agent)
    requires b in txs
    ensures |txs - {b}| < |txs|
  {
    assert (txs - {b}).Keys == txs.Keys - {b};
    assert |txs - {b}| == |(txs - {b}).Keys| && |txs| == |txs.Keys|;
  }

  /** What to run so that `a` gets further: its own statement, or the commit it waits for. */
  lemma NextStatement(s: Sys, a: Agent) returns (act: Action, b: Agent)
    requires GoesOn(s, a)
    ensures NextOf(act, b) && Do(s, act).Some? && (act.Commit? || b == a)
  {
    if CanProceed(s, a) {
      act :| NextOf(act, a) && Do(s, act).Some?;
      b := a;
    } else {
      b :| WaitsFor(s, a, b);
      act := Commit(b);
    }
  }
}
