/** The use cases of internal/application/service.go on a store.  Each one performs exactly
    one operation, or none when authorization or validation fails first, and hands back
    what that operation replied. */
module Application {
  import opened Core
  import opened Database
  import opened Protocol
  import opened Consistency
  import opened Replies
  import opened Storage
  import Paging
  import History

  function RequireAdmin(identity: Identity): Result<()> {
    if identity.isAdmin then Ok(()) else Err(Forbidden)
  }

  /** The log grew by one operation, and `r` is what that operation replied. */
  ghost predicate Performed(before: Log, after: Log, op: Op, r: Result<Stick>) {
    && after == before + [op]
    && match r
       case Ok(stick) => Step(Run(before), op).reply == Ok(if op.OpCreate? then Done else GotStick(stick))
       case Err(error) => Step(Run(before), op).reply == Err(error)
  }

  /** A missing stick and a stale version are reported before anything else. */
  ghost predicate Gated<T>(sticks: map<string, Stick>, id: string, expected: int, r: Result<T>) {
    && (id !in sticks ==> r == Err(NotFound))
    && (id in sticks && sticks[id].version != expected ==> r == Err(VersionConflict))
  }

  function Verdict(reply: Result<Reply>): Result<()> {
    match reply
    case Ok(_) => Ok(())
    case Err(error) => Err(error)
  }

  /** An attempt that fails for a transient reason, during one of its statements or at its
      commit, and what everyone else gets done before the next one. */
  datatype Failure = Failure(midway: bool, others: seq<Op>)

  /** What others do around these failures. */
  function Others(failures: seq<Failure>): Log {
    if failures == [] then [] else
    Others(failures[..|failures| - 1]) + failures[|failures| - 1].others
  }

  lemma {:induction false} OthersPrefix(failures: seq<Failure>, k: nat)
    requires k <= |failures|
    ensures exists rest: Log :: Others(failures) == Others(failures[..k]) + rest
  {
    if k == |failures| {
      assert failures[..k] == failures;
      assert Others(failures) == Others(failures[..k]) + [];
    } else {
      var front := failures[..|failures| - 1];
      OthersPrefix(front, k);
      assert front[..k] == failures[..k];
      var rest: Log :| Others(front) == Others(failures[..k]) + rest;
      assert Others(failures) == Others(failures[..k]) + (rest + failures[|failures| - 1].others);
    }
  }

  lemma OthersSnoc(failures: seq<Failure>, k: nat)
    requires k < |failures|
    ensures Others(failures[..k + 1]) == Others(failures[..k]) + failures[k].others
  {
    assert failures[..k + 1][..k] == failures[..k];
  }

  lemma ValidPart(whole: Log, part: Log, rest: Log)
    requires ValidRun(whole) && whole == part + rest
    ensures ValidRun(part)
  {
    PrefixValid(whole, |part|);
    assert whole[..|part|] == part;
  }

  /** The next failure's share of a run that is valid with all of them. */
  lemma NextOthers(log: Log, failures: seq<Failure>, k: nat)
    requires k < |failures| && ValidRun(log + Others(failures))
    ensures Others(failures[..k + 1]) == Others(failures[..k]) + failures[k].others
    ensures ValidRun(log + Others(failures[..k]) + failures[k].others)
  {
    hide Run, Step, ValidRun, Others;
    OthersSnoc(failures, k);
    OthersPrefix(failures, k + 1);
    var rest: Log :| Others(failures) == Others(failures[..k + 1]) + rest;
    var part := log + Others(failures[..k]) + failures[k].others;
    assert log + Others(failures) == part + rest;
    ValidPart(log + Others(failures), part, rest);
  }

  class Service {
    const store: Store

    constructor (store: Store)
      ensures this.store == store
    {
      this.store := store;
    }

    /** The callback transitionStick passes to the store: read and check the version, apply
        the domain transition, save by compare-and-swap, do the extra writes. */
    method Callback(id: string, expected: int, change: Change) returns (result: Result<Stick>, ghost grant: Grant)
      requires store.InTransaction() && store.Contents() == Run(store.log)
      modifies store`sticks, store`sessions, store`nextSession, store`outbox, store`nextOutbox
      ensures store.InTransaction() && Gated(old(store.sticks), id, expected, result)
      ensures var op := OpTransition(id, expected, change, grant);
              && Admissible(store.log, op)
              && match result
                 case Ok(stick) => Step(Run(store.log), op) == Outcome(store.Contents(), Ok(GotStick(stick)))
                 case Err(error) => Step(Run(store.log), op).reply == Err(error)
    {
      grant := store.FreshGrant(id);
      ghost var db := store.Contents();
      var current := store.GetStick(id);
      if current.Err? {
        return Err(current.error), grant;
      }
      if current.value.version != expected {
        return Err(VersionConflict), grant;
      }
      var next := Next(current.value, change);
      if next.Err? {
        return Err(next.error), grant;
      }
      var saved := store.SaveStick(next.value, expected);
      if saved.Err? {
        return Err(saved.error), grant;
      }
      ghost var savedDb := store.Contents();
      assert current.value.id == id by {
        ReachableConsistent(store.log);
      }
      var worked;
      worked, grant := DoWork(current.value, next.value, change);
      SameGrant(db, savedDb, id, grant);
      if worked.Err? {
        return Err(worked.error), grant;
      }
      result := Ok(next.value);
    }

    /** One transaction of the SQL stores: commit, or roll back on the callback's error. */
    method TransitionStick(id: string, expected: int, change: Change) returns (r: Result<Stick>, ghost grant: Grant)
      requires store.Valid()
      modifies store
      ensures store.Valid() && Performed(old(store.log), store.log, OpTransition(id, expected, change, grant), r)
      ensures Gated(old(store.sticks), id, expected, r)
    {
      store.Begin();
      r, grant := Callback(id, expected, change);
      hide Run, Step, Admissible, ValidRun;
      if r.Err? {
        store.Rollback(OpTransition(id, expected, change, grant));
      } else {
        store.Commit(OpTransition(id, expected, change, grant));
      }
    }

    /** The MongoDB store may run the callback again after a transient failure, during one of
        its statements (`midway`) or at the commit, and in between other clients and workers do
        anything they like.  The attempts given up leave no trace, the operation takes place
        once, after all they did, and the stick returned is the one its own attempt wrote, not
        one captured by an earlier attempt.  Only an error of the callback ends it early. */
    method TransitionStickRetrying(id: string, expected: int, change: Change, failures: seq<Failure>)
      returns (r: Result<Stick>, tries: nat, ghost grant: Grant)
      requires store.Valid() && ValidRun(store.log + Others(failures))
      modifies store
      ensures store.Valid()
      ensures tries <= |failures| && (tries < |failures| ==> r.Err?)
      ensures Performed(old(store.log) + Others(failures[..tries]), store.log,
                        OpTransition(id, expected, change, grant), r)
    {
      hide Run, Step, Admissible, ValidRun, Others;
      ghost var start := store.log;
      NoOthers(start, failures);
      tries := 0;
      while tries < |failures|
        invariant tries <= |failures| && store.Valid() && store.log == start + Others(failures[..tries])
      {
        store.Begin();
        if !failures[tries].midway {
          r, grant := Callback(id, expected, change);
          if r.Err? {
            store.Rollback(OpTransition(id, expected, change, grant));
            return;
          }
        }
        store.Abort();
        NextOthers(start, failures, tries);
        store.MeanwhileAll(failures[tries].others);
        assert start + Others(failures[..tries]) + failures[tries].others
            == start + (Others(failures[..tries]) + failures[tries].others);
        tries := tries + 1;
      }
      r, grant := TransitionStick(id, expected, change);
    }

    lemma NoOthers(log: Log, failures: seq<Failure>)
      ensures Others(failures[..0]) == [] && log + [] == log
    {
    }

    /** The callback of a claim creates the session; that of a release closes it and
        enqueues the notifications. */
    method DoWork(before: Stick, after: Stick, change: Change) returns (r: Result<()>, ghost grant: Grant)
      requires store.InTransaction()
      modifies store`sessions, store`nextSession, store`outbox, store`nextOutbox
      ensures store.InTransaction()
      ensures change.Claim? ==> grant.session !in old(store.Contents()).sessions
      ensures change.Release? ==> Assigns(old(store.Contents()), before.id, grant.rows)
      ensures match Work(old(store.Contents()), before, after, change, grant)
              case Ok(db) => r == Ok(()) && store.Contents() == db
              case Err(error) => r == Err(error)
    {
      ghost var db := store.Contents();
      grant := store.FreshGrant(before.id);
      r := Ok(());
      match change
      case Claim(identity, reason, at) =>
        ghost var k;
        r, k := store.CreateSession(Session(after.id, identity.sub, identity.name, identity.email, reason, at, None));
        grant := Grant(k, map[]);
      case Release(subject, at) =>
        r := store.CloseSession(before.id, subject, at);
        if r.Ok? {
          ghost var closed, rows := store.Contents(), map[];
          r, rows := store.EnqueueReleaseNotifications(before, at);
          grant := Grant(0, rows);
          SameGrant(db, closed, before.id, grant);
        }
      case _ =>
    }

    /** What an assignment of row ids depends on. */
    lemma SameGrant(db: Tables, later: Tables, id: string, grant: Grant)
      requires later.subscriptions == db.subscriptions && later.outbox == db.outbox
      ensures Assigns(later, id, grant.rows) ==> Assigns(db, id, grant.rows)
    {
      assert forall key :: SubscribedTo(later, key, id) <==> SubscribedTo(db, key, id);
    }

    method CreateStick(identity: Identity, id: string, name: string) returns (r: Result<Stick>)
      requires store.Valid()
      modifies store
      ensures store.Valid()
      ensures !identity.isAdmin ==> r == Err(Forbidden) && unchanged(store)
      ensures identity.isAdmin && NewStick(id, name).Err? ==> r == Err(InvalidStickName) && unchanged(store)
      ensures identity.isAdmin && NewStick(id, name).Ok? ==>
                Performed(old(store.log), store.log, OpCreate(NewStick(id, name).value), r)
      ensures r == if !identity.isAdmin then Err(Forbidden) else
                   if !ValidStickName(name) then Err(InvalidStickName) else
                   if id in old(store.sticks) then Err(AlreadyExists) else Ok(Stick(id, name, 1, None, None))
      ensures store.sticks == if r.Ok? then old(store.sticks)[id := r.value] else old(store.sticks)
    {
      var _ :- RequireAdmin(identity);
      var stick :- NewStick(id, name);
      store.Begin();
      assert Admissible(store.log, OpCreate(stick));
      var created := store.CreateStick(stick);
      if created.Err? {
        store.Rollback(OpCreate(stick));
        return Err(created.error);
      }
      store.Commit(OpCreate(stick));
      r := Ok(stick);
    }

    method RenameStick(identity: Identity, id: string, name: string, expected: int)
      returns (r: Result<Stick>, ghost grant: Grant)
      requires store.Valid()
      modifies store
      ensures store.Valid()
      ensures !identity.isAdmin ==> r == Err(Forbidden) && unchanged(store)
      ensures identity.isAdmin && !ValidStickName(name) ==> r == Err(InvalidStickName) && unchanged(store)
      ensures identity.isAdmin && ValidStickName(name) ==>
                && Performed(old(store.log), store.log, OpTransition(id, expected, Rename(name), grant), r)
                && Gated(old(store.sticks), id, expected, r)
    {
      grant := NO_GRANT;
      if !identity.isAdmin {
        return Err(Forbidden), grant;
      }
      if !ValidStickName(name) {
        return Err(InvalidStickName), grant;
      }
      r, grant := TransitionStick(id, expected, Rename(name));
    }

    method ArchiveStick(identity: Identity, id: string, expected: int, now: Time)
      returns (r: Result<Stick>, ghost grant: Grant)
      requires store.Valid()
      modifies store
      ensures store.Valid()
      ensures !identity.isAdmin ==> r == Err(Forbidden) && unchanged(store)
      ensures identity.isAdmin ==>
                && Performed(old(store.log), store.log, OpTransition(id, expected, Archive(now), grant), r)
                && Gated(old(store.sticks), id, expected, r)
    {
      grant := NO_GRANT;
      if !identity.isAdmin {
        return Err(Forbidden), grant;
      }
      r, grant := TransitionStick(id, expected, Archive(now));
    }

    method UnarchiveStick(identity: Identity, id: string, expected: int) returns (r: Result<Stick>, ghost grant: Grant)
      requires store.Valid()
      modifies store
      ensures store.Valid()
      ensures !identity.isAdmin ==> r == Err(Forbidden) && unchanged(store)
      ensures identity.isAdmin ==>
                && Performed(old(store.log), store.log, OpTransition(id, expected, Unarchive, grant), r)
                && Gated(old(store.sticks), id, expected, r)
    {
      grant := NO_GRANT;
      if !identity.isAdmin {
        return Err(Forbidden), grant;
      }
      r, grant := TransitionStick(id, expected, Unarchive);
    }

    method ClaimStick(identity: Identity, id: string, reason: string, expected: int, now: Time)
      returns (r: Result<Stick>, ghost grant: Grant)
      requires store.Valid()
      modifies store
      ensures store.Valid()
      ensures !ValidClaimReason(reason) ==> r == Err(InvalidClaimReason) && unchanged(store)
      ensures ValidClaimReason(reason) ==>
                && Gated(old(store.sticks), id, expected, r)
                && Performed(old(store.log), store.log,
                             OpTransition(id, expected, Claim(identity, reason, now), grant), r)
    {
      grant := NO_GRANT;
      if !ValidClaimReason(reason) {
        return Err(InvalidClaimReason), grant;
      }
      r, grant := TransitionStick(id, expected, Claim(identity, reason, now));
    }

    method ReleaseStick(identity: Identity, id: string, expected: int, now: Time)
      returns (r: Result<Stick>, ghost grant: Grant)
      requires store.Valid()
      modifies store
      ensures store.Valid()
              && Performed(old(store.log), store.log, OpTransition(id, expected, Release(identity.sub, now), grant), r)
              && Gated(old(store.sticks), id, expected, r)
    {
      r, grant := TransitionStick(id, expected, Release(identity.sub, now));
    }

    method Subscribe(identity: Identity, id: string, expected: int, token: Token) returns (r: Result<()>)
      requires store.Valid() && token !in Used(store.log)
      modifies store
      ensures store.Valid() && store.log == old(store.log) + [OpSubscribe(id, identity, expected, token)]
      ensures r == Verdict(Step(Run(old(store.log)), OpSubscribe(id, identity, expected, token)).reply)
      ensures Gated(old(store.sticks), id, expected, r)
      ensures r.Ok? <==> id in old(store.sticks) && old(store.sticks)[id].version == expected
      ensures r.Err? ==> store.subscriptions == old(store.subscriptions)
      ensures r.Ok? ==>
                var live := Subscription(identity.name, identity.email, token);
                store.subscriptions == old(store.subscriptions)[Key(id, identity.sub) := live]
    {
      ghost var start, op := store.log, OpSubscribe(id, identity, expected, token);
      store.Begin();
      var current := store.GetStick(id);
      if current.Err? || current.value.version != expected {
        store.Rollback(op);
        return Err(if current.Err? then current.error else VersionConflict);
      }
      r := store.Subscribe(id, identity, token);
      if r.Err? {
        store.Rollback(op);
      } else {
        store.Commit(op);
      }
      Snoc(start, op);
      SubscriptionReplies(start, op);
    }

    method Unsubscribe(identity: Identity, id: string, expected: int) returns (r: Result<()>)
      requires store.Valid()
      modifies store
      ensures store.Valid() && store.log == old(store.log) + [OpUnsubscribe(id, identity.sub, expected)]
      ensures r == Verdict(Step(Run(old(store.log)), OpUnsubscribe(id, identity.sub, expected)).reply)
      ensures Gated(old(store.sticks), id, expected, r)
      ensures r.Ok? <==> id in old(store.sticks) && old(store.sticks)[id].version == expected
      ensures r.Err? ==> store.subscriptions == old(store.subscriptions)
      ensures r.Ok? ==> store.subscriptions == old(store.subscriptions) - {Key(id, identity.sub)}
    {
      store.Begin();
      var current := store.GetStick(id);
      if current.Err? || current.value.version != expected {
        store.Rollback(OpUnsubscribe(id, identity.sub, expected));
        return Err(if current.Err? then current.error else VersionConflict);
      }
      store.Unsubscribe(id, identity.sub);
      store.Commit(OpUnsubscribe(id, identity.sub, expected));
      r := Ok(());
    }

    /** The history of a stick the user may see.  What is counted is its accepted releases. */
    method GetHistory(identity: Identity, id: string, limit: int, offset: int)
      returns (r: Result<(seq<Session>, nat)>, ghost ids: seq<nat>)
      requires store.Valid()
      ensures r.Err? ==> r.error == if id !in store.sticks || (store.sticks[id].archivedAt.Some? && !identity.isAdmin)
                                    then NotFound else NegativePage
      ensures r.Ok? <==>
              && id in store.sticks && (store.sticks[id].archivedAt.Some? ==> identity.isAdmin)
              && limit >= 0 && offset >= 0
      ensures r.Ok? ==> r.value.1 == |History.Holdings(store.log, id)| / 2
      ensures r.Ok? ==>
                var page := r.value.0;
                && |ids| == |page|
                && (forall i | 0 <= i < |page| ::
                      && ids[i] in store.sessions && page[i] == store.sessions[ids[i]]
                      && page[i].stickId == id && page[i].releasedAt.Some?)
                && (forall k | k in store.sessions && store.sessions[k].stickId == id && !store.sessions[k].Open() ::
                      k in ids <==> offset <= |Paging.Ahead(store.sessions, k)| < offset + limit)
    {
      ids := [];
      var stick := store.GetStick(id);
      if stick.Err? || (stick.value.Archived() && !identity.isAdmin) {
        return Err(NotFound), ids;
      }
      var found;
      found, ids := Paging.GetHistory(store.sessions, id, limit, offset);
      CompletedCount(store.log, id);
      r := if found.None? then Err(NegativePage) else Ok(found.value);
    }
  }

  /** What the history counts, in a run. */
  lemma CompletedCount(log: Log, id: string)
    requires ValidRun(log)
    ensures var sessions := Run(log).sessions;
            var over := set k | k in sessions && sessions[k].stickId == id && sessions[k].releasedAt.Some?;
            |over| == |History.Holdings(log, id)| / 2
  {
    History.ClaimsAndReleasesAlternate(log, id);
    hide Run, History.Holdings;
    SameCompleted(Run(log), id);
  }

  lemma SameCompleted(db: Tables, id: string)
    ensures History.Completed(db, id)
         == set k | k in db.sessions && db.sessions[k].stickId == id && db.sessions[k].releasedAt.Some?
  {
  }
}
