/** What goes wrong without the increment of zero: a subscription and a release of the same
    stick both commit, each having seen the state before the other, and the new subscriber is
    told nothing.  No order of the two operations explains that. */
module MongoWriteSkew {
  import opened Core
  import opened Database
  import opened Protocol
  import opened Consistency
  import opened History
  import opened Conservation
  import opened Reordering
  import opened Interleaving
  import opened Serializability
  import M = MongoTransactions
  import MongoSerializability

  // ---- no serial run skips a subscriber ----

  predicate KeepsSubscribers(op: Op) {
    !op.OpUnsubscribe? && !op.OpSucceed?
  }

  lemma SubscriberStaysOnce(db: Tables, op: Op, key: Key)
    requires Consistent(db) && KeepsSubscribers(op) && key in db.subscriptions
    ensures key in Step(db, op).db.subscriptions
  {
    if op.OpTransition? {
      TransitionStep(db, op);
    } else if IsWorkerOp(op) {
      WorkerWrites(db, op);
    }
  }

  lemma {:induction false} SubscriberStays(log: Log, i: nat, key: Key)
    requires ValidRun(log) && i <= |log| && key in Run(log[..i]).subscriptions
    requires forall op | op in log :: KeepsSubscribers(op)
    ensures key in Run(log).subscriptions
  {
    if i == |log| {
      assert log[..i] == log;
    } else {
      var front, op := log[..|log| - 1], log[|log| - 1];
      assert front[..i] == log[..i];
      assert forall e | e in front :: e in log;
      SubscriberStays(front, i, key);
      ReachableConsistent(front);
      SubscriberStaysOnce(Run(front), op, key);
    }
  }

  predicate AcceptedSubscribe(log: Log, i: nat) {
    Accepted(log, i) && log[i].OpSubscribe?
  }

  lemma SubscribeSeen(log: Log, i: nat)
    requires ValidRun(log) && AcceptedSubscribe(log, i)
    ensures log[i].id in Run(log[..i]).sticks && Run(log[..i]).sticks[log[i].id].version == log[i].expected
    ensures Key(log[i].id, log[i].identity.sub) in Run(log[..i + 1]).subscriptions
  {
    assert log[..i + 1][..i] == log[..i];
    hide Run;
    assert Run(log[..i + 1]) == Step(Run(log[..i]), log[i]).db by {
      Snoc(log[..i], log[i]);
      assert log[..i + 1] == log[..i] + [log[i]];
    }
  }

  lemma ReleaseProceeds(log: Log, j: nat)
    requires ValidRun(log) && Accepted(log, j) && log[j].OpTransition? && log[j].change.Release?
    ensures AcceptedRelease(log, j)
  {
    PrefixValid(log, j);
    ReachableConsistent(log[..j]);
    TransitionStep(Run(log[..j]), log[j]);
  }

  lemma SubscribeCameFirst(log: Log, i: nat, j: nat)
    requires ValidRun(log) && AcceptedSubscribe(log, i) && Accepted(log, j) && log[j].OpTransition?
    requires log[i].id == log[j].id && log[i].expected == log[j].expected
    ensures i < j
  {
    SubscribeSeen(log, i);
    AcceptedChange(log, j);
    hide Run, Accepted;
    if j < i {
      PrefixValid(log, i);
      assert log[..i][..j + 1] == log[..j + 1];
      VersionMonotone(log[..i], j + 1, log[i].id);
    }
  }

  /** In a serial run a subscription that expected the same version as a release came before
      it, so the subscriber has a row of that release. */
  lemma SameVersionIsNotified(log: Log, i: nat, j: nat)
    requires ValidRun(log) && AcceptedSubscribe(log, i)
    requires Accepted(log, j) && log[j].OpTransition? && log[j].change.Release?
    requires log[i].id == log[j].id && log[i].expected == log[j].expected
    requires forall op | op in log :: KeepsSubscribers(op)
    ensures Run(log).outbox != map[]
  {
    var id, key := log[i].id, Key(log[i].id, log[i].identity.sub);
    SubscribeCameFirst(log, i, j);
    SubscribeSeen(log, i);
    ReleaseProceeds(log, j);
    PrefixValid(log, j);
    hide Run, Step, ValidRun, Accepted, AcceptedRelease;
    assert log[..j][..i + 1] == log[..i + 1];
    assert forall op | op in log[..j] :: op in log;
    SubscriberStays(log[..j], i + 1, key);
    NotifiedOf(log, j, key);
  }

  lemma NotifiedOf(log: Log, j: nat, key: Key)
    requires ValidRun(log) && AcceptedRelease(log, j) && SubscribedTo(Run(log[..j]), key, log[j].id)
    ensures Run(log).outbox != map[]
  {
    ReleaseNotifiesEachSubscriberOnce(log, j);
    hide Run, Step, ValidRun, Proceeds;
    assert HasNewRowFor(Run(log[..j]), Run(log[..j + 1]), key);
    var n: nat :| IsNewRow(Run(log[..j]), Run(log[..j + 1]), n);
    assert n in Run(log).outbox;
  }

  /** Some valid run gives these tables, and its operations are those that are over, with the
      replies they got. */
  ghost predicate IsSerial(s: Sys) {
    exists log: Log :: Explained(log, s)
  }

  ghost predicate Explained(log: Log, s: Sys) {
    && ValidRun(log) && Run(log) == s.committed
    && (forall op | op in log :: IsOver(s, op))
    && (forall at | at in s.done :: HasPlace(log, s.done[at]))
  }

  ghost predicate IsOver(s: Sys, op: Op) {
    exists at :: at in s.done && s.done[at].op == op
  }

  ghost predicate HasPlace(log: Log, f: Finished) {
    exists i: nat :: i < |log| && log[i] == f.op && ReplyAt(log, i) == f.reply
  }

  /** A subscription and a release are over that expected the same version, nobody has been
      notified, and nothing else can have taken the subscription away. */
  ghost predicate Skewed(s: Sys) {
    && s.committed.outbox == map[]
    && (forall at | at in s.done :: KeepsSubscribers(s.done[at].op))
    && exists x, y :: x in s.done && y in s.done && SkewedPair(s.done[x], s.done[y])
  }

  predicate SkewedPair(f: Finished, g: Finished) {
    && f.op.OpSubscribe? && f.reply.Ok?
    && g.op.OpTransition? && g.op.change.Release? && g.reply.Ok?
    && f.op.id == g.op.id && f.op.expected == g.op.expected
  }

  lemma PlaceOf(log: Log, s: Sys, at: nat) returns (i: nat)
    requires Explained(log, s) && at in s.done
    ensures i < |log| && log[i] == s.done[at].op && ReplyAt(log, i) == s.done[at].reply
  {
    hide Run, ValidRun, ReplyAt;
    assert HasPlace(log, s.done[at]);
    i :| i < |log| && log[i] == s.done[at].op && ReplyAt(log, i) == s.done[at].reply;
  }

  lemma AllKeep(log: Log, s: Sys)
    requires Explained(log, s) && Skewed(s)
    ensures ValidRun(log) && Run(log).outbox == map[] && forall op | op in log :: KeepsSubscribers(op)
  {
    hide Run, ValidRun, ReplyAt, SkewedPair;
    forall op | op in log
      ensures KeepsSubscribers(op)
    {
      assert IsOver(s, op);
    }
  }

  lemma TheSkew(s: Sys) returns (x: nat, y: nat)
    requires Skewed(s)
    ensures x in s.done && y in s.done && SkewedPair(s.done[x], s.done[y])
  {
    hide KeepsSubscribers, SkewedPair;
    x, y :| x in s.done && y in s.done && SkewedPair(s.done[x], s.done[y]);
  }

  lemma NotExplained(log: Log, s: Sys)
    requires Skewed(s)
    ensures !Explained(log, s)
  {
    hide Run, ValidRun, ReplyAt, KeepsSubscribers, Explained, Skewed;
    if Explained(log, s) {
      var x, y := TheSkew(s);
      AllKeep(log, s);
      var i := PlaceOf(log, s, x);
      var j := PlaceOf(log, s, y);
      SameVersionIsNotified(log, i, j);
    }
  }

  lemma SkewIsNotSerial(s: Sys)
    requires Skewed(s)
    ensures !IsSerial(s)
  {
    forall log: Log
      ensures !Explained(log, s)
    {
      NotExplained(log, s);
    }
  }

  // ---- the execution ----

  const FREE := Stick("s", "n", 1, None, None)
  const HELD := Stick("s", "n", 2, None, Some(Holder("a", "A", "e", 0, "r")))
  const BACK := Stick("s", "n", 3, None, None)
  const SESSION := Session("s", "a", "A", "e", "r", 0, None)

  lemma Then(acts: seq<Action>, act: Action)
    requires M.Exec(false, acts).Some?
    ensures M.Exec(false, acts + [act]) == M.Do(false, M.Exec(false, acts).value, act)
  {
    assert (acts + [act])[..|acts|] == acts;
  }

  const CREATED := Tables(map["s" := FREE], map[], map[], map[])
  const CLAIMED := Tables(map["s" := HELD], map[1 := SESSION], map[], map[])
  const CLAIM := Claim(Identity("a", "A", "e", false), "r", 0)
  const RELEASE := Release("a", 5)
  const FOLLOWER := Identity("b", "B", "f", false)

  /** One transaction may be in flight, agent 1's, which began at `began` and saw `snap`. */
  ghost predicate Claiming(m: M.Db, steps: nat, db: Tables, tx: Option<Tx>) {
    && m.base.steps == steps && m.base.committed == db && m.base.nextOutbox == 1 && m.base.drawn == {""}
    && m.base.txs == (if tx.Some? then map[1 := tx.value] else map[])
    && (tx.Some? ==>
          && 1 in m.base.began && m.base.began[1] == 1
          && 1 in m.snaps && m.snaps[1] == M.Snap(CREATED, 1, 1)
          && forall doc | doc in m.written :: m.written[doc] < 1)
    && (forall doc | doc in m.written :: m.written[doc] < steps)
    && (forall at | at in m.base.done :: at < steps && KeepsSubscribers(m.base.done[at].op))
  }

  lemma CreatesStick() returns (m: M.Db)
    ensures M.Do(false, M.START, Create(FREE)) == Some(m)
    ensures Claiming(m, 1, CREATED, None) && m.base.nextSession == 1
  {
    assert 'n' in "n";
    assert NewStick("s", "n") == Ok(FREE);
    m := M.Do(false, M.START, Create(FREE)).value;
    assert Step(EMPTY, OpCreate(FREE)).db.sticks == map["s" := FREE];
  }

  lemma ClaimAllowed()
    ensures Next(FREE, CLAIM) == Ok(HELD) && Next(HELD, RELEASE) == Ok(BACK)
  {
    assert 'r' in "r";
  }

  lemma ClaimStarts(m: M.Db) returns (t: M.Db)
    requires Claiming(m, 1, CREATED, None) && m.base.nextSession == 1
    ensures M.Do(false, m, Start(1, Request.Change("s", 1, CLAIM))) == Some(t) && t.base.nextSession == 1
    ensures Claiming(t, 2, CREATED, Some(ChangeTx("s", 1, CLAIM, FREE, HELD, Read)))
  {
    ClaimAllowed();
    hide Next;
    t := M.Do(false, m, Start(1, Request.Change("s", 1, CLAIM))).value;
  }

  lemma ClaimSaves(m: M.Db) returns (t: M.Db)
    requires Claiming(m, 2, CREATED, Some(ChangeTx("s", 1, CLAIM, FREE, HELD, Read)))
    requires m.base.nextSession == 1
    ensures M.Do(false, m, Save(1)) == Some(t) && t.base.nextSession == 1
    ensures Claiming(t, 3, CREATED, Some(ChangeTx("s", 1, CLAIM, FREE, HELD, Saved)))
  {
    assert M.See(m, 1).sticks == map["s" := FREE];
    t := M.Do(false, m, Save(1)).value;
  }

  lemma ClaimOpens(m: M.Db) returns (t: M.Db)
    requires Claiming(m, 3, CREATED, Some(ChangeTx("s", 1, CLAIM, FREE, HELD, Saved)))
    requires m.base.nextSession == 1
    ensures M.Do(false, m, Open(1)) == Some(t) && t.base.nextSession == 1
    ensures Claiming(t, 4, CREATED, Some(ChangeTx("s", 1, CLAIM, FREE, HELD, Opened(1))))
  {
    assert M.See(m, 1).sessions == map[];
    assert OpenSessions(M.See(m, 1), "s") == {};
    t := M.Do(false, m, Open(1)).value;
  }

  lemma ClaimOverlay()
    ensures Overlay(CREATED, DeltaOf(ChangeTx("s", 1, CLAIM, FREE, HELD, Opened(1)))) == CLAIMED
  {
    var after := Overlay(CREATED, DeltaOf(ChangeTx("s", 1, CLAIM, FREE, HELD, Opened(1))));
    assert after.sticks == map["s" := HELD] && after.sessions == map[1 := SESSION];
    assert after.subscriptions == map[] && after.outbox == map[];
  }

  lemma ClaimCommits(m: M.Db) returns (t: M.Db)
    requires Claiming(m, 4, CREATED,
                      Some(ChangeTx("s", 1, CLAIM, FREE, HELD, Opened(1))))
    requires m.base.nextSession == 1
    ensures M.Do(false, m, Commit(1)) == Some(t) && t.base.nextSession == 2
    ensures Claiming(t, 5, CLAIMED, None)
  {
    ClaimOverlay();
    hide Inserted, Overlay, DeltaOf;
    t := M.Do(false, m, Commit(1)).value;
    assert t.base.txs == map[];
  }

  const FOLLOWED := CLAIMED.(subscriptions := map[Key("s", "b") := Subscription("B", "f", "t")])

  function Following(written: bool): Tx {
    FollowTx("s", FOLLOWER, 2, "t", written)
  }

  function Releasing(stage: Stage): Tx {
    ChangeTx("s", 2, RELEASE, HELD, BACK, stage)
  }

  /** Agent 1 subscribes, having begun at 5, and agent 2 releases, having begun at 6; both saw
      the claimed stick. */
  ghost predicate Racing(m: M.Db, steps: nat, db: Tables, follow: Option<Tx>, release: Option<Tx>) {
    && m.base.steps == steps && m.base.committed == db && m.base.nextOutbox == 1
    && (1 in m.base.txs <==> follow.Some?) && (2 in m.base.txs <==> release.Some?)
    && (forall a | a in m.base.txs :: a == 1 || a == 2)
    && (follow.Some? ==>
          && m.base.txs[1] == follow.value && 1 in m.base.began && m.base.began[1] == 5
          && 1 in m.snaps && m.snaps[1] == M.Snap(CLAIMED, 2, 1))
    && (release.Some? ==>
          && m.base.txs[2] == release.value && 2 in m.base.began && m.base.began[2] == 6
          && 2 in m.snaps && m.snaps[2] == M.Snap(CLAIMED, 2, 1))
    && (forall doc | doc in m.written && !doc.KeyDoc? :: m.written[doc] < 5)
    && (forall doc | doc in m.written && follow.Some? :: m.written[doc] < 5)
    && (forall at | at in m.base.done :: KeepsSubscribers(m.base.done[at].op))
  }

  lemma FollowStarts(m: M.Db) returns (t: M.Db)
    requires Claiming(m, 5, CLAIMED, None) && m.base.nextSession == 2
    ensures M.Do(false, m, Start(1, Follow("s", FOLLOWER, 2, "t"))) == Some(t)
    ensures Racing(t, 6, CLAIMED, Some(Following(false)), None) && t.base.nextSession == 2
  {
    t := M.Do(false, m, Start(1, Follow("s", FOLLOWER, 2, "t"))).value;
  }

  lemma ReleaseStarts(m: M.Db) returns (t: M.Db)
    requires Racing(m, 6, CLAIMED, Some(Following(false)), None) && m.base.nextSession == 2
    ensures M.Do(false, m, Start(2, Request.Change("s", 2, RELEASE))) == Some(t)
    ensures Racing(t, 7, CLAIMED, Some(Following(false)), Some(Releasing(Read)))
  {
    ClaimAllowed();
    hide Next;
    t := M.Do(false, m, Start(2, Request.Change("s", 2, RELEASE))).value;
  }

  lemma FollowWrites(m: M.Db) returns (t: M.Db)
    requires Racing(m, 7, CLAIMED, Some(Following(false)), Some(Releasing(Read)))
    ensures M.Do(false, m, Action.Write(1)) == Some(t)
    ensures Racing(t, 8, CLAIMED, Some(Following(true)), Some(Releasing(Read)))
  {
    assert M.See(m, 1).subscriptions == map[];
    assert Subscribe(M.See(m, 1), "s", FOLLOWER, "t").Ok?;
    t := M.Do(false, m, Action.Write(1)).value;
  }

  /** The subscription is over. */
  ghost predicate Followed(m: M.Db) {
    8 in m.base.done && m.base.done[8] == Finished(OpSubscribe("s", FOLLOWER, 2, "t"), Ok(Done), 5, 8)
  }

  lemma FollowOverlay()
    ensures Overlay(CLAIMED, DeltaOf(Following(true))) == FOLLOWED
  {
    var after := Overlay(CLAIMED, DeltaOf(Following(true)));
    assert after.sticks == CLAIMED.sticks && after.sessions == CLAIMED.sessions;
    assert after.subscriptions == FOLLOWED.subscriptions && after.outbox == map[];
  }

  lemma FollowCommits(m: M.Db) returns (t: M.Db)
    requires Racing(m, 8, CLAIMED, Some(Following(true)), Some(Releasing(Read)))
    ensures M.Do(false, m, Commit(1)) == Some(t)
    ensures Racing(t, 9, FOLLOWED, None, Some(Releasing(Read))) && Followed(t)
  {
    FollowOverlay();
    FollowDocs();
    hide Inserted, Overlay, DeltaOf, M.Docs, ReplyOf, KeepsSubscribers;
    t := M.Do(false, m, Commit(1)).value;
    assert KeepsSubscribers(OpSubscribe("s", FOLLOWER, 2, "t"));
  }

  lemma FollowDocs()
    ensures M.Docs(false, Following(true)) == {M.KeyDoc(Key("s", "b"))} && ReplyOf(Following(true)) == Done
    ensures KeepsSubscribers(OpSubscribe("s", FOLLOWER, 2, "t"))
  {
  }

  lemma ReleaseSaves(m: M.Db) returns (t: M.Db)
    requires Racing(m, 9, FOLLOWED, None, Some(Releasing(Read))) && Followed(m)
    ensures M.Do(false, m, Save(2)) == Some(t)
    ensures Racing(t, 10, FOLLOWED, None, Some(Releasing(Saved))) && Followed(t)
  {
    assert M.See(m, 2).sticks == map["s" := HELD];
    t := M.Do(false, m, Save(2)).value;
  }

  const ENDED := SESSION.(releasedAt := Some(5))

  lemma ReleaseCloses(m: M.Db) returns (t: M.Db)
    requires Racing(m, 10, FOLLOWED, None, Some(Releasing(Saved))) && Followed(m)
    ensures M.Do(false, m, Close(2, 1)) == Some(t)
    ensures Racing(t, 11, FOLLOWED, None, Some(Releasing(Closed(1, ENDED)))) && Followed(t)
  {
    assert M.See(m, 2).sessions == map[1 := SESSION];
    assert OpenSessionsBy(M.See(m, 2), "s", "a") == {1};
    t := M.Do(false, m, Close(2, 1)).value;
  }

  function NoKeys(): map<nat, Key> {
    map[]
  }

  /** The release has enqueued for nobody. */
  function Quiet(): Stage {
    Enqueued(1, ENDED, NoKeys(), map[], 6)
  }

  lemma NobodyToTell(view: Tables)
    requires view.subscriptions == map[]
    ensures Assigns(view, "s", NoKeys()) && NewRows(view, HELD, HELD.holder.value, 5, NoKeys()) == map[]
    ensures |NoKeys()| == 0
  {
  }

  lemma NoMoreDocs()
    ensures M.Docs(false, Releasing(Quiet())) == M.Docs(false, Releasing(Closed(1, ENDED)))
  {
    var rows: map<nat, Row> := map[];
    assert (set n | n in rows :: M.RowDoc(n)) == {};
  }

  lemma ReleaseSees(m: M.Db)
    requires Racing(m, 11, FOLLOWED, None, Some(Releasing(Closed(1, ENDED))))
    ensures M.See(m, 2).subscriptions == map[]
  {
  }

  lemma QuietRows(m: M.Db)
    requires Racing(m, 11, FOLLOWED, None, Some(Releasing(Closed(1, ENDED))))
    requires NewRows(M.See(m, 2), HELD, HELD.holder.value, 5, NoKeys()) == map[]
    ensures M.WithRows(m, 2, NoKeys()) == Releasing(Quiet())
  {
    hide NewRows, M.See, NoKeys;
  }

  lemma QuietWrite(m: M.Db)
    requires 2 in m.base.txs && 2 in m.base.began && m.base.txs[2] == Releasing(Closed(1, ENDED))
    ensures M.Write(false, m, 2, Releasing(Quiet())) == Some(m.(base := Put(m.base, 2, Releasing(Quiet()))))
  {
    NoMoreDocs();
    hide M.Docs, Quiet;
  }

  lemma EnqueueIsWrite(m: M.Db)
    requires Racing(m, 11, FOLLOWED, None, Some(Releasing(Closed(1, ENDED))))
    requires Assigns(M.See(m, 2), "s", NoKeys()) && |NoKeys()| == 0
    ensures M.Do(false, m, Enqueue(2, NoKeys(), 1)) == M.Write(false, m, 2, M.WithRows(m, 2, NoKeys()))
  {
    NoKeyAtAll();
    hide Assigns, NewRows, M.See, M.Docs, M.Write, M.WithRows, NoKeys;
  }

  lemma NoKeyAtAll()
    ensures forall n :: n !in NoKeys()
  {
  }

  lemma ReleaseEnqueues(m: M.Db) returns (t: M.Db)
    requires Racing(m, 11, FOLLOWED, None, Some(Releasing(Closed(1, ENDED)))) && Followed(m)
    ensures M.Do(false, m, Enqueue(2, NoKeys(), 1)) == Some(t)
    ensures Racing(t, 12, FOLLOWED, None, Some(Releasing(Quiet()))) && Followed(t)
  {
    hide M.Do, Assigns, NewRows, M.See, M.Docs, M.Write, M.WithRows, Quiet, NoKeys;
    ReleaseSees(m);
    NobodyToTell(M.See(m, 2));
    QuietRows(m);
    QuietWrite(m);
    EnqueueIsWrite(m);
    t := m.(base := Put(m.base, 2, Releasing(Quiet())));
  }

  lemma ReleaseCommits(m: M.Db) returns (t: M.Db)
    requires Racing(m, 12, FOLLOWED, None, Some(Releasing(Quiet()))) && Followed(m)
    ensures M.Do(false, m, Commit(2)) == Some(t) && Skewed(t.base)
  {
    var tx := m.base.txs[2];
    assert Overlay(m.base.committed, DeltaOf(tx)).outbox == map[];
    hide Inserted;
    t := M.Do(false, m, Commit(2)).value;
    assert t.base.done[6] == Finished(OpTransition("s", 2, RELEASE, Grant(0, NoKeys())), Ok(GotStick(BACK)), 6, 12);
    assert SkewedPair(t.base.done[8], t.base.done[6]);
  }

  lemma Claimed() returns (acts: seq<Action>, m: M.Db)
    ensures M.Exec(false, acts) == Some(m) && Claiming(m, 5, CLAIMED, None) && m.base.nextSession == 2
  {
    hide Claiming, M.Do;
    var start: seq<Action> := [];
    assert M.Exec(false, start) == Some(M.START);
    hide M.Exec;
    var m1 := CreatesStick();
    Then(start, Create(FREE));
    var m2 := ClaimStarts(m1);
    Then(start + [Create(FREE)], Start(1, Request.Change("s", 1, CLAIM)));
    var begun := start + [Create(FREE)] + [Start(1, Request.Change("s", 1, CLAIM))];
    var m3 := ClaimSaves(m2);
    Then(begun, Save(1));
    var m4 := ClaimOpens(m3);
    Then(begun + [Save(1)], Open(1));
    m := ClaimCommits(m4);
    Then(begun + [Save(1)] + [Open(1)], Commit(1));
    acts := begun + [Save(1)] + [Open(1)] + [Commit(1)];
  }

  /** Without the increment of zero there is an interleaving that no serial run explains: a user
      who subscribed to the version that was released is neither notified nor turned away. */
  lemma WithoutReserveNotSerial() returns (acts: seq<Action>, m: M.Db)
    ensures M.Exec(false, acts) == Some(m) && Skewed(m.base) && !IsSerial(m.base)
  {
    hide Claiming, Racing, M.Do, M.Exec, Skewed, Followed, IsSerial;
    var before, m5 := Claimed();
    var m6 := FollowStarts(m5);
    Then(before, Start(1, Follow("s", FOLLOWER, 2, "t")));
    var m7 := ReleaseStarts(m6);
    var acts6 := before + [Start(1, Follow("s", FOLLOWER, 2, "t"))];
    Then(acts6, Start(2, Request.Change("s", 2, RELEASE)));
    var acts7 := acts6 + [Start(2, Request.Change("s", 2, RELEASE))];
    var m8 := FollowWrites(m7);
    Then(acts7, Action.Write(1));
    var m9 := FollowCommits(m8);
    Then(acts7 + [Action.Write(1)], Commit(1));
    var acts9 := acts7 + [Action.Write(1)] + [Commit(1)];
    var m10 := ReleaseSaves(m9);
    Then(acts9, Save(2));
    var m11 := ReleaseCloses(m10);
    Then(acts9 + [Save(2)], Close(2, 1));
    var acts11 := acts9 + [Save(2)] + [Close(2, 1)];
    var m12 := ReleaseEnqueues(m11);
    Then(acts11, Enqueue(2, NoKeys(), 1));
    m := ReleaseCommits(m12);
    Then(acts11 + [Enqueue(2, NoKeys(), 1)], Commit(2));
    acts := acts11 + [Enqueue(2, NoKeys(), 1)] + [Commit(2)];
    SkewIsNotSerial(m.base);
  }

  // ---- both ways ----

  lemma ReserveSerial(acts: seq<Action>)
    requires M.Exec(true, acts).Some?
    ensures IsSerial(M.Exec(true, acts).value.base)
  {
    var log := MongoSerializability.SnapshotsSerializable(acts);
    hide M.Exec, StrictlySerial, Explained;
    StrictlyExplained(log, M.Exec(true, acts).value.base);
  }

  lemma StrictlyExplained(log: Log, s: Sys)
    requires StrictlySerial(s, log)
    ensures Explained(log, s)
  {
    hide Run, ValidRun, ReplyAt, IsOver, HasPlace, Increasing;
    forall at | at in s.done
      ensures HasPlace(log, s.done[at])
    {
      assert at in s.order;
      var i: nat :| i < |s.order| && s.order[i] == at;
      PlaceAt(log, i, s.done[at]);
    }
    forall op | op in log
      ensures IsOver(s, op)
    {
      var i: nat :| i < |log| && log[i] == op;
      OverAt(s, s.order[i], op);
    }
  }

  lemma PlaceAt(log: Log, i: nat, f: Finished)
    requires i < |log| && log[i] == f.op && ReplyAt(log, i) == f.reply
    ensures HasPlace(log, f)
  {
  }

  lemma OverAt(s: Sys, at: nat, op: Op)
    requires at in s.done && s.done[at].op == op
    ensures IsOver(s, op)
  {
  }

  /** Every interleaving is serial if and only if reading a stick writes it. */
  lemma SerialIff(reserve: bool)
    ensures (forall acts | M.Exec(reserve, acts).Some? :: IsSerial(M.Exec(reserve, acts).value.base)) <==> reserve
  {
    hide M.Exec, IsSerial, Skewed;
    if reserve {
      forall acts | M.Exec(true, acts).Some?
        ensures IsSerial(M.Exec(true, acts).value.base)
      {
        ReserveSerial(acts);
      }
    } else {
      var acts, m := WithoutReserveNotSerial();
    }
  }
}
