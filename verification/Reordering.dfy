/** Moving a release back in a run.  A release computes its rows when it enqueues them and
    commits later; whatever other transactions commit in between commutes with it, as long
    as they keep off its stick. */
module Reordering {
  import opened Core
  import opened Database
  import opened Protocol
  import opened Consistency
  import opened Fencing

  /** The writes a transaction has made and not committed. */
  datatype Delta = Delta(
    sticks: map<string, Stick>, sessions: map<nat, Session>,
    put: map<Key, Subscription>, removed: set<Key>, outbox: map<nat, Row>)

  const NO_WRITES := Delta(map[], map[], map[], {}, map[])

  /** The tables as the transaction sees them. */
  function Overlay(db: Tables, delta: Delta): Tables {
    Tables(db.sticks + delta.sticks, db.sessions + delta.sessions,
           (db.subscriptions - delta.removed) + delta.put, db.outbox + delta.outbox)
  }

  /** The finished writes of a release of stick `id`: the stick, its session closed, and
      the rows. */
  datatype Writes = Writes(id: string, next: Stick, session: nat, closed: Session, rows: map<nat, Row>) {
    function ToDelta(): Delta {
      Delta(map[id := next], map[session := closed], map[], {}, rows)
    }
  }

  /** The operation keeps off the stick and the row ids of the release. */
  ghost predicate Apart(op: Op, writes: Writes) {
    match op
    case OpCreate(_) => true
    case OpTransition(id, _, _, grant) => id != writes.id && grant.rows.Keys !! writes.rows.Keys
    case OpSubscribe(id, _, _, _) => id != writes.id
    case OpUnsubscribe(id, _, _) => id != writes.id
    case OpClaim(row, _, _, _) => row.Some? ==> row.value !in writes.rows
    case OpSucceed(delivery, _) => delivery.id !in writes.rows
    case OpFail(delivery, _, _) => delivery.id !in writes.rows
  }

  /** The writes are about rows of these tables: the stick exists, the session is its open
      one, the outbox ids are new. */
  ghost predicate Fits(db: Tables, writes: Writes) {
    && writes.id in db.sticks
    && IsOpen(db, writes.session, writes.id)
    && writes.closed.stickId == writes.id && !writes.closed.Open()
    && writes.rows.Keys !! db.outbox.Keys
  }

  lemma OpenElsewhere(db: Tables, writes: Writes, id: string)
    requires Fits(db, writes) && id != writes.id
    ensures forall k: nat :: IsOpen(Overlay(db, writes.ToDelta()), k, id) <==> IsOpen(db, k, id)
    ensures OpenSessions(Overlay(db, writes.ToDelta()), id) == OpenSessions(db, id)
  {
    var over := Overlay(db, writes.ToDelta());
    assert forall k: nat :: IsOpen(over, k, id) <==> IsOpen(db, k, id);
  }

  lemma OpenSessionElsewhere(db: Tables, writes: Writes, id: string)
    requires Consistent(db) && Fits(db, writes) && id != writes.id && HasOpenSession(db, id)
    ensures HasOpenSession(Overlay(db, writes.ToDelta()), id)
    ensures OpenSession(Overlay(db, writes.ToDelta()), id) == OpenSession(db, id)
    ensures OpenSession(db, id) != writes.session
  {
    var over := Overlay(db, writes.ToDelta());
    OpenElsewhere(db, writes, id);
    assert IsOpen(over, OpenSession(db, id), id);
    assert IsOpen(db, OpenSession(over, id), id);
  }

  lemma UpdateBesides<K, V>(m: map<K, V>, d: map<K, V>, k: K, v: V)
    requires k !in d
    ensures (m + d)[k := v] == m[k := v] + d
  {
  }

  lemma UnionSwap<K, V>(m: map<K, V>, d: map<K, V>, e: map<K, V>)
    requires d.Keys !! e.Keys
    ensures (m + d) + e == (m + e) + d
  {
  }

  /** A transition of another stick writes the same, before or after the release. */
  lemma WrittenCommutes(db: Tables, writes: Writes, op: Op)
    requires Consistent(db) && Fits(db, writes) && op.OpTransition? && Apart(op, writes)
    requires Proceeds(db, op.id, op.expected, op.change)
    requires op.change.Claim? ==> op.grant.session !in db.sessions
    requires op.change.Release? ==> HasOpenSession(db, op.id) && HasOpenSession(Overlay(db, writes.ToDelta()), op.id)
    ensures Written(Overlay(db, writes.ToDelta()), op.id, op.change, op.grant)
         == Overlay(Written(db, op.id, op.change, op.grant), writes.ToDelta())
  {
    if op.change.Release? {
      ReleaseCommutes(db, writes, op);
    } else {
      var next := Next(db.sticks[op.id], op.change).value;
      UpdateBesides(db.sticks, writes.ToDelta().sticks, op.id, next);
      if op.change.Claim? {
        ClaimOpensHere(db, writes, op);
        hide Next, Consistent, IsOpen;
        UpdateBesides(db.sessions, writes.ToDelta().sessions, op.grant.session,
                      HolderSession(op.id, next.holder.value));
      } else {
        hide Next, Consistent, IsOpen, Fits;
      }
      NothingMore(db.outbox, writes.rows);
    }
  }

  lemma NothingMore<K, V>(m: map<K, V>, d: map<K, V>)
    ensures (m + d) + map[] == (m + map[]) + d
  {
  }

  lemma ClaimOpensHere(db: Tables, writes: Writes, op: Op)
    requires Fits(db, writes) && op.OpTransition? && op.change.Claim? && op.grant.session !in db.sessions
    requires Proceeds(db, op.id, op.expected, op.change)
    ensures op.grant.session != writes.session && Next(db.sticks[op.id], op.change).value.holder.Some?
  {
  }

  lemma OverlayFields(db: Tables, writes: Writes)
    ensures Overlay(db, writes.ToDelta())
         == Tables(db.sticks + writes.ToDelta().sticks, db.sessions + writes.ToDelta().sessions,
                   db.subscriptions, db.outbox + writes.rows)
  {
    assert (db.subscriptions - {}) + map[] == db.subscriptions;
  }

  lemma ReleaseCommutes(db: Tables, writes: Writes, op: Op)
    requires Consistent(db) && Fits(db, writes) && op.OpTransition? && op.change.Release? && Apart(op, writes)
    requires Proceeds(db, op.id, op.expected, op.change)
    requires HasOpenSession(db, op.id) && HasOpenSession(Overlay(db, writes.ToDelta()), op.id)
    ensures Written(Overlay(db, writes.ToDelta()), op.id, op.change, op.grant)
         == Overlay(Written(db, op.id, op.change, op.grant), writes.ToDelta())
  {
    var id, delta, at, rows := op.id, writes.ToDelta(), op.change.releasedAt, op.grant.rows;
    var before := db.sticks[id];
    OpenSessionElsewhere(db, writes, id);
    var k := OpenSession(db, id);
    assert before.holder.Some?;
    assert id in Overlay(db, delta).sticks && Overlay(db, delta).sticks[id] == before;
    assert k in Overlay(db, delta).sessions && Overlay(db, delta).sessions[k] == db.sessions[k];
    WrittenRelease(db, op);
    WrittenRelease(Overlay(db, delta), op);
    OverlayFields(db, writes);
    OverlayFields(Written(db, id, op.change, op.grant), writes);
    hide Overlay, Written, Consistent, Fits, IsOpen, Next, NewRows, HasOpenSession, OpenSession;
    UpdateBesides(db.sticks, delta.sticks, id, Next(before, op.change).value);
    UpdateBesides(db.sessions, delta.sessions, k, db.sessions[k].(releasedAt := Some(at)));
    SameNewRows(db, Overlay(db, delta), before, before.holder.value, at, rows);
    UnionSwap(db.outbox, delta.outbox, NewRows(db, before, before.holder.value, at, rows));
  }

  lemma WrittenRelease(db: Tables, op: Op)
    requires op.OpTransition? && op.change.Release? && Proceeds(db, op.id, op.expected, op.change)
    requires HasOpenSession(db, op.id) && db.sticks[op.id].holder.Some?
    ensures var before, k, at := db.sticks[op.id], OpenSession(db, op.id), op.change.releasedAt;
            Written(db, op.id, op.change, op.grant)
            == Tables(db.sticks[op.id := Next(before, op.change).value],
                      db.sessions[k := db.sessions[k].(releasedAt := Some(at))], db.subscriptions,
                      db.outbox + NewRows(db, before, before.holder.value, at, op.grant.rows))
  {
  }

  lemma SameNewRows(db: Tables, over: Tables, before: Stick, holder: Holder, at: Time, rows: map<nat, Key>)
    requires over.subscriptions == db.subscriptions
    ensures NewRows(over, before, holder, at, rows) == NewRows(db, before, holder, at, rows)
    ensures NewRows(db, before, holder, at, rows).Keys <= rows.Keys
  {
  }

  lemma TransitionCommutes(db: Tables, writes: Writes, op: Op)
    requires Consistent(db) && Consistent(Overlay(db, writes.ToDelta())) && Fits(db, writes)
    requires op.OpTransition? && Apart(op, writes)
    requires Proceeds(db, op.id, op.expected, op.change) && op.change.Claim? ==> op.grant.session !in db.sessions
    ensures Step(Overlay(db, writes.ToDelta()), op)
         == Outcome(Overlay(Step(db, op).db, writes.ToDelta()), Step(db, op).reply)
  {
    var over := Overlay(db, writes.ToDelta());
    assert op.id in over.sticks <==> op.id in db.sticks;
    assert op.id in db.sticks ==> over.sticks[op.id] == db.sticks[op.id];
    hide Consistent, Fits, Apart, Step, Next, Written, Overlay;
    if Proceeds(db, op.id, op.expected, op.change) {
      TransitionStep(db, op);
      TransitionStep(over, op);
      WrittenCommutes(db, writes, op);
    } else {
      RefusedAlike(db, over, op);
    }
  }

  /** A refusal is settled by the stick. */
  lemma RefusedAlike(db: Tables, over: Tables, op: Op)
    requires op.OpTransition? && !Proceeds(db, op.id, op.expected, op.change)
    requires op.id in over.sticks <==> op.id in db.sticks
    requires op.id in db.sticks ==> over.sticks[op.id] == db.sticks[op.id]
    ensures Step(db, op).db == db && Step(over, op) == Outcome(over, Step(db, op).reply)
  {
    hide Next, Work, SaveStick;
  }

  lemma SameGenerations(db: Tables, writes: Writes)
    ensures Overlay(db, writes.ToDelta()).subscriptions == db.subscriptions
    ensures forall key, token ::
              HasGeneration(Overlay(db, writes.ToDelta()), key, token) <==> HasGeneration(db, key, token)
  {
    var over := Overlay(db, writes.ToDelta());
    assert over.subscriptions == db.subscriptions;
  }

  lemma ReadCommutes(db: Tables, writes: Writes, id: string, expected: int)
    requires Fits(db, writes) && id != writes.id
    ensures ReadStick(Overlay(db, writes.ToDelta()), id, expected) == ReadStick(db, id, expected)
  {
    var over := Overlay(db, writes.ToDelta());
    assert id in over.sticks <==> id in db.sticks;
    assert id in db.sticks ==> over.sticks[id] == db.sticks[id];
  }

  /** The upsert looks at subscriptions only. */
  lemma SubscribeAlike(db: Tables, over: Tables, id: string, identity: Identity, token: Token)
    requires over.subscriptions == db.subscriptions
    ensures Subscribe(over, id, identity, token)
         == match Subscribe(db, id, identity, token)
            case Ok(after) => Ok(over.(subscriptions := after.subscriptions))
            case Err(error) => Err(error)
    ensures Subscribe(db, id, identity, token).Ok? ==>
              Subscribe(db, id, identity, token).value
              == db.(subscriptions := Subscribe(db, id, identity, token).value.subscriptions)
  {
    assert forall key :: HasGeneration(over, key, token) <==> HasGeneration(db, key, token);
    hide HasGeneration;
  }

  lemma SubscribeCommutes(db: Tables, writes: Writes, op: Op)
    requires Fits(db, writes) && op.OpSubscribe? && Apart(op, writes)
    ensures Step(Overlay(db, writes.ToDelta()), op)
         == Outcome(Overlay(Step(db, op).db, writes.ToDelta()), Step(db, op).reply)
  {
    var over := Overlay(db, writes.ToDelta());
    SameGenerations(db, writes);
    ReadCommutes(db, writes, op.id, op.expected);
    SubscribeAlike(db, over, op.id, op.identity, op.token);
    hide Fits, ReadStick, HasGeneration, Subscribe, Overlay;
    match Subscribe(db, op.id, op.identity, op.token)
    case Ok(after) => SubscriptionsApart(db, writes, after.subscriptions);
    case Err(_) =>
  }

  /** A release writes no subscriptions. */
  lemma SubscriptionsApart(db: Tables, writes: Writes, subscriptions: map<Key, Subscription>)
    ensures Overlay(db.(subscriptions := subscriptions), writes.ToDelta())
         == Overlay(db, writes.ToDelta()).(subscriptions := subscriptions)
  {
    assert (subscriptions - {}) + map[] == subscriptions;
  }

  lemma UnsubscribeCommutes(db: Tables, writes: Writes, op: Op)
    requires Fits(db, writes) && op.OpUnsubscribe? && Apart(op, writes)
    ensures Step(Overlay(db, writes.ToDelta()), op)
         == Outcome(Overlay(Step(db, op).db, writes.ToDelta()), Step(db, op).reply)
  {
    SameGenerations(db, writes);
    ReadCommutes(db, writes, op.id, op.expected);
    SubscriptionsApart(db, writes, db.subscriptions - {Key(op.id, op.subject)});
    hide Fits, ReadStick, HasGeneration, Overlay;
  }

  lemma CreateCommutes(db: Tables, writes: Writes, op: Op)
    requires Fits(db, writes) && op.OpCreate?
    ensures Step(Overlay(db, writes.ToDelta()), op)
         == Outcome(Overlay(Step(db, op).db, writes.ToDelta()), Step(db, op).reply)
  {
    if op.stick.id !in db.sticks {
      UpdateBesides(db.sticks, writes.ToDelta().sticks, op.stick.id, op.stick);
    }
  }

  lemma WorkerCommutes(db: Tables, writes: Writes, op: Op)
    requires Fits(db, writes) && IsWorkerOp(op) && Apart(op, writes)
    ensures Step(Overlay(db, writes.ToDelta()), op)
         == Outcome(Overlay(Step(db, op).db, writes.ToDelta()), Step(db, op).reply)
  {
    var over := Overlay(db, writes.ToDelta());
    SameTouch(db, writes, op);
    WorkerTablesCommute(db, writes, op);
    hide Step, Fits, Apart, Touched;
    WorkerReplies(db, op);
    WorkerReplies(over, op);
  }

  lemma WorkerTablesCommute(db: Tables, writes: Writes, op: Op)
    requires Fits(db, writes) && IsWorkerOp(op) && Apart(op, writes)
    ensures Step(Overlay(db, writes.ToDelta()), op).db == Overlay(Step(db, op).db, writes.ToDelta())
  {
    var over := Overlay(db, writes.ToDelta());
    SameTouch(db, writes, op);
    SameGenerations(db, writes);
    OverlayFields(db, writes);
    OverlayFields(Step(db, op).db, writes);
    hide Overlay;
    hide Step, Fits, Rewritten, HasGeneration, Apart, Touched, Eligible, Owns;
    WorkerWrites(db, op);
    WorkerWrites(over, op);
    if Touched(db, op).Some? {
      var n := Touched(db, op).value;
      UpdateBesides(db.outbox, writes.rows, n, Rewritten(db.outbox[n], op));
    }
  }

  lemma SameTouch(db: Tables, writes: Writes, op: Op)
    requires Fits(db, writes) && IsWorkerOp(op) && Apart(op, writes)
    ensures Touched(Overlay(db, writes.ToDelta()), op) == Touched(db, op)
    ensures Touched(db, op).Some? ==>
              var n := Touched(db, op).value;
              n in db.outbox && n !in writes.rows && Overlay(db, writes.ToDelta()).outbox[n] == db.outbox[n]
  {
  }

  /** The reply of a worker operation is settled by the row it touches. */
  lemma WorkerReplies(db: Tables, op: Op)
    requires IsWorkerOp(op)
    ensures Step(db, op).reply
         == if op.OpClaim? && op.row.None? then Ok(GotDelivery(None))
            else if Touched(db, op).None? then Err(ClaimLost)
            else if op.OpClaim? then
              var row := db.outbox[op.row.value];
              Ok(GotDelivery(Some(Delivery(op.row.value, row.snapshot, row.attempts + 1, op.token))))
            else Ok(Done)
  {
  }

  /** Every operation apart from the release commutes with its writes and keeps them
      fitting. */
  lemma StepCommutes(log: Log, writes: Writes, op: Op)
    requires ValidRun(log + [op]) && Fits(Run(log), writes) && Apart(op, writes)
    requires Consistent(Overlay(Run(log), writes.ToDelta()))
    ensures Step(Overlay(Run(log), writes.ToDelta()), op)
         == Outcome(Overlay(Step(Run(log), op).db, writes.ToDelta()), Step(Run(log), op).reply)
  {
    Snoc(log, op);
    ReachableConsistent(log);
    hide Step, Run;
    if op.OpTransition? {
      TransitionCommutes(Run(log), writes, op);
    } else if IsWorkerOp(op) {
      WorkerCommutes(Run(log), writes, op);
    } else if op.OpCreate? {
      CreateCommutes(Run(log), writes, op);
    } else if op.OpSubscribe? {
      SubscribeCommutes(Run(log), writes, op);
    } else {
      UnsubscribeCommutes(Run(log), writes, op);
    }
  }

  /** What the operations of a run replied, one by one. */
  function Replies(log: Log): (replies: seq<Result<Reply>>)
    ensures |replies| == |log|
  {
    if log == [] then [] else
    var i := |log| - 1;
    Replies(log[..i]) + [ReplyAt(log, i)]
  }

  lemma RepliesSnoc(log: Log, op: Op)
    ensures Replies(log + [op]) == Replies(log) + [Step(Run(log), op).reply]
  {
    assert (log + [op])[..|log|] == log;
  }

  lemma {:induction false} RepliesAt(log: Log, i: nat)
    requires i < |log|
    ensures Replies(log)[i] == ReplyAt(log, i)
  {
    var front := log[..|log| - 1];
    hide Run, Step;
    if i < |front| {
      assert front[..i] == log[..i];
      RepliesAt(front, i);
    }
  }

  lemma FitsKept(log: Log, writes: Writes, op: Op)
    requires ValidRun(log + [op]) && Fits(Run(log), writes) && Apart(op, writes)
    requires writes.rows.Keys !! Run(log + [op]).outbox.Keys
    ensures Fits(Run(log + [op]), writes)
  {
    Snoc(log, op);
    ReachableConsistent(log);
    if op.OpTransition? {
      TransitionStep(Run(log), op);
      hide Step, Run, Consistent;
      assert IsOpen(Run(log + [op]), writes.session, writes.id);
    } else {
      OtherWrites(Run(log), op);
    }
  }

  lemma AdmissibleStill(log: Log, over: Log, writes: Writes, op: Op)
    requires Admissible(log, op) && Fits(Run(log), writes) && Apart(op, writes)
    requires Run(over) == Overlay(Run(log), writes.ToDelta())
    requires Used(over) == Used(log) && Deliveries(over) == Deliveries(log)
    ensures Admissible(over, op)
  {
    SameGenerations(Run(log), writes);
    if op.OpTransition? {
      assert forall key :: SubscribedTo(Run(over), key, op.id) <==> SubscribedTo(Run(log), key, op.id);
      assert Proceeds(Run(over), op.id, op.expected, op.change) <==> Proceeds(Run(log), op.id, op.expected, op.change);
    }
  }

  /** One operation later, the two runs still differ by the release's writes alone, and
      the operation replied the same in both. */
  lemma StepInserted(under: Log, over: Log, writes: Writes, e: Op)
    requires ValidRun(under + [e]) && ValidRun(over) && Apart(e, writes)
    requires Run(over) == Overlay(Run(under), writes.ToDelta()) && Fits(Run(under), writes)
    requires Used(over) == Used(under) && Deliveries(over) == Deliveries(under)
    requires writes.rows.Keys !! Run(under + [e]).outbox.Keys
    ensures ValidRun(over + [e])
    ensures Run(over + [e]) == Overlay(Run(under + [e]), writes.ToDelta()) && Fits(Run(under + [e]), writes)
    ensures Used(over + [e]) == Used(under + [e]) && Deliveries(over + [e]) == Deliveries(under + [e])
    ensures Step(Run(over), e).reply == Step(Run(under), e).reply
  {
    hide Step, Run, Admissible, Overlay, Fits, Apart, Consistent;
    Snoc(under, e);
    ReachableConsistent(over);
    StepCommutes(under, writes, e);
    AdmissibleStill(under, over, writes, e);
    FitsKept(under, writes, e);
    Snoc(over, e);
  }

  /** A release can be put back where it enqueued: after `base`, before the operations
      `later` that committed while it was in flight.  Each of them replies the same, and the
      result is the tables as they are with the release's writes laid over them. */
  lemma {:induction false} InsertRelease(base: Log, op: Op, later: Log, writes: Writes)
    requires ValidRun(base + [op]) && ValidRun(base + later)
    requires op.OpTransition?
    requires Step(Run(base), op) == Outcome(Overlay(Run(base), writes.ToDelta()), Ok(GotStick(writes.next)))
    requires Fits(Run(base), writes)
    requires forall e | e in later :: Apart(e, writes)
    requires writes.rows.Keys !! Run(base + later).outbox.Keys
    ensures ValidRun(base + [op] + later)
    ensures Run(base + [op] + later) == Overlay(Run(base + later), writes.ToDelta())
    ensures Fits(Run(base + later), writes)
    ensures Replies(base + [op] + later)
         == Replies(base) + [Ok(GotStick(writes.next))] + Replies(base + later)[|base|..]
    ensures Used(base + [op] + later) == Used(base + later)
    ensures Deliveries(base + [op] + later) == Deliveries(base + later)
    decreases |later|
  {
    Snoc(base, op);
    RepliesSnoc(base, op);
    hide Step, Run, Admissible, Overlay, Fits, Apart, Used, Deliveries, Replies;
    if later == [] {
      assert base + later == base && base + [op] + later == base + [op];
      assert Replies(base + later)[|base|..] == [];
    } else {
      var i := |later| - 1;
      var front, e := later[..i], later[i];
      var under, over := base + front, base + [op] + front;
      assert base + later == under + [e] && base + [op] + later == over + [e];
      Snoc(under, e);
      RowsGrow(under, e);
      hide ValidRun;
      InsertRelease(base, op, front, writes);
      StepInserted(under, over, writes, e);
      RepliesSnoc(under, e);
      RepliesSnoc(over, e);
      MoreReplies(Replies(base), Replies(under), Replies(over), Ok(GotStick(writes.next)), Step(Run(under), e).reply);
    }
  }

  lemma MoreReplies(base: seq<Result<Reply>>, under: seq<Result<Reply>>, over: seq<Result<Reply>>,
                    mine: Result<Reply>, next: Result<Reply>)
    requires |base| <= |under| && over == base + [mine] + under[|base|..]
    ensures over + [next] == base + [mine] + (under + [next])[|base|..]
  {
  }

  lemma RowsGrow(log: Log, op: Op)
    requires ValidRun(log + [op])
    ensures Run(log).outbox.Keys <= Run(log + [op]).outbox.Keys
  {
    forall n | n in Run(log).outbox
      ensures n in Run(log + [op]).outbox
    {
      assert (log + [op])[..|log|] == log;
      LastOutboxStep(log + [op], n);
    }
  }
}
