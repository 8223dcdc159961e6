/** Notification backends (internal/application/notification.go): Multi drops what is not
    configured, and a fan-out calls every backend whatever the others answer. */
module Notifiers {
  import opened Core
  import opened Database

  datatype Notifier = Noop | Backend(id: nat) | Named(name: string, inner: Notifier) | Fanout(inners: seq<Notifier>)

  /** The backends behind a notifier, in the order they are configured. */
  function Backends(n: Notifier): seq<nat>
    decreases n
  {
    match n
    case Noop => []
    case Backend(id) => [id]
    case Named(_, inner) => Backends(inner)
    case Fanout(inners) => BackendsOf(inners)
  }

  function BackendsOf(inners: seq<Notifier>): seq<nat>
    decreases inners
  {
    if inners == [] then [] else BackendsOf(inners[..|inners| - 1]) + Backends(inners[|inners| - 1])
  }

  /** The backend a path leads to: at each fan-out the next number picks one of its notifiers,
      at a named one it is 0, and the path ends at a backend. */
  function At(n: Notifier, path: seq<nat>): Option<nat>
    decreases n
  {
    match n
    case Noop => None
    case Backend(id) => if path == [] then Some(id) else None
    case Named(_, inner) => if path != [] && path[0] == 0 then At(inner, path[1..]) else None
    case Fanout(inners) => if path != [] && path[0] < |inners| then At(inners[path[0]], path[1..]) else None
  }

  /** Lexicographic order. */
  predicate Earlier(p: seq<nat>, q: seq<nat>) {
    q != [] && (p == [] || p[0] < q[0] || (p[0] == q[0] && Earlier(p[1..], q[1..])))
  }

  /** All paths that lead to a backend, each once, in order. */
  ghost predicate Enumerates(n: Notifier, paths: seq<seq<nat>>) {
    && (forall path :: path in paths <==> At(n, path).Some?)
    && (forall i, j | 0 <= i < j < |paths| :: Earlier(paths[i], paths[j]))
  }

  /** Each of these backends is at the end of one of the paths, in their order. */
  ghost predicate AlongPaths(n: Notifier, paths: seq<seq<nat>>, backends: seq<nat>) {
    && Enumerates(n, paths) && |paths| == |backends|
    && forall k | 0 <= k < |paths| :: At(n, paths[k]) == Some(backends[k])
  }

  function Under(k: nat, paths: seq<seq<nat>>): (r: seq<seq<nat>>)
    ensures |r| == |paths| && forall i | 0 <= i < |r| :: r[i] == [k] + paths[i]
  {
    seq(|paths|, i requires 0 <= i < |paths| => [k] + paths[i])
  }

  lemma UnderHas(k: nat, paths: seq<seq<nat>>, path: seq<nat>)
    ensures path in Under(k, paths) <==> path != [] && path[0] == k && path[1..] in paths
  {
    if path != [] && path[0] == k && path[1..] in paths {
      var i :| 0 <= i < |paths| && paths[i] == path[1..];
      assert Under(k, paths)[i] == path;
    }
  }

  lemma {:induction false} PathsExist(n: Notifier) returns (paths: seq<seq<nat>>)
    ensures AlongPaths(n, paths, Backends(n))
    decreases n
  {
    match n
    case Noop => paths := [];
    case Backend(_) => paths := [[]];
    case Named(_, inner) =>
      var below := PathsExist(inner);
      paths := Under(0, below);
      forall path
        ensures path in paths <==> At(n, path).Some?
      {
        UnderHas(0, below, path);
      }
    case Fanout(inners) => paths := PathsOfExist(inners);
  }

  /** What leads to a backend behind one notifier more. */
  lemma OneMore(inners: seq<Notifier>, path: seq<nat>)
    requires inners != []
    ensures var last := |inners| - 1;
            At(Fanout(inners), path) == if path != [] && path[0] == last then At(inners[last], path[1..])
            else At(Fanout(inners[..last]), path)
  {
  }

  lemma PathsJoin(inners: seq<Notifier>, left: seq<seq<nat>>, below: seq<seq<nat>>)
    requires inners != [] && Enumerates(Fanout(inners[..|inners| - 1]), left)
    requires Enumerates(inners[|inners| - 1], below)
    ensures Enumerates(Fanout(inners), left + Under(|inners| - 1, below))
  {
    var last := |inners| - 1;
    var right := Under(last, below);
    forall path
      ensures path in left + right <==> At(Fanout(inners), path).Some?
      ensures path in left ==> path != [] && path[0] < last
    {
      UnderHas(last, below, path);
      OneMore(inners, path);
      assert path in left <==> At(Fanout(inners[..last]), path).Some?;
      if path != [] {
        assert path[1..] in below <==> At(inners[last], path[1..]).Some?;
      }
    }
    hide At;
    forall i, j | 0 <= i < j < |left + right|
      ensures Earlier((left + right)[i], (left + right)[j])
    {
      if i < |left| {
        assert left[i] in left;
      }
    }
  }

  lemma {:induction false} PathsOfExist(inners: seq<Notifier>) returns (paths: seq<seq<nat>>)
    ensures AlongPaths(Fanout(inners), paths, BackendsOf(inners))
    decreases inners, 0
  {
    if inners == [] {
      paths := [];
    } else {
      var front, last := inners[..|inners| - 1], |inners| - 1;
      var left := PathsOfExist(front);
      var below := PathsExist(inners[last]);
      paths := left + Under(last, below);
      PathsJoin(inners, left, below);
      forall k | 0 <= k < |paths|
        ensures At(Fanout(inners), paths[k]) == Some(BackendsOf(inners)[k])
      {
        OneMore(inners, paths[k]);
        if k < |left| {
          assert left[k] in left;
          assert At(Fanout(front), left[k]).Some?;
        }
      }
    }
  }

  /** A call that went out, and whether the backend accepted the notification. */
  datatype Call = Call(backend: nat, snapshot: Snapshot, accepted: bool)

  /** The calls are one to each backend, in order, about the same release. */
  ghost predicate CallsTo(made: seq<Call>, backends: seq<nat>, snapshot: Snapshot) {
    |made| == |backends| && forall k | 0 <= k < |made| :: made[k].backend == backends[k] && made[k].snapshot == snapshot
  }

  /** There is one call for each path to a backend, in the order of the paths. */
  ghost predicate OnePerPath(n: Notifier, made: seq<Call>) {
    exists paths: seq<seq<nat>> ::
      && Enumerates(n, paths) && |paths| == |made|
      && forall k | 0 <= k < |made| :: At(n, paths[k]) == Some(made[k].backend)
  }

  lemma CallsFollowPaths(n: Notifier, made: seq<Call>, snapshot: Snapshot)
    requires CallsTo(made, Backends(n), snapshot)
    ensures OnePerPath(n, made)
  {
    var paths := PathsExist(n);
    hide Enumerates, At, Backends;
    assert Enumerates(n, paths) && |paths| == |made|;
  }

  function Refused(made: seq<Call>): seq<nat> {
    if made == [] then [] else
    Refused(made[..|made| - 1]) + if made[|made| - 1].accepted then [] else [made[|made| - 1].backend]
  }

  lemma {:induction false} RefusedConcat(a: seq<Call>, b: seq<Call>)
    ensures Refused(a + b) == Refused(a) + Refused(b)
  {
    if b == [] {
      assert a + b == a;
    } else {
      RefusedConcat(a, b[..|b| - 1]);
      assert (a + b)[..|a + b| - 1] == a + b[..|b| - 1];
    }
  }

  lemma FewCalls(id: nat, snapshot: Snapshot, accepted: bool)
    ensures CallsTo([], [], snapshot) && Refused([]) == []
    ensures CallsTo([Call(id, snapshot, accepted)], [id], snapshot)
    ensures Refused([Call(id, snapshot, accepted)]) == if accepted then [] else [id]
  {
    assert Refused([]) == [];
  }

  lemma CallsConcat(made: seq<Call>, more: seq<Call>, inners: seq<Notifier>, k: nat, snapshot: Snapshot)
    requires k < |inners|
    requires CallsTo(made, BackendsOf(inners[..k]), snapshot) && CallsTo(more, Backends(inners[k]), snapshot)
    ensures CallsTo(made + more, BackendsOf(inners[..k + 1]), snapshot)
  {
    assert inners[..k + 1][..k] == inners[..k];
    hide Backends;
  }

  /** No failure is reported exactly when every call was accepted. */
  lemma {:induction false} NoneRefused(made: seq<Call>)
    ensures Refused(made) == [] <==> forall k | 0 <= k < |made| :: made[k].accepted
  {
    if made != [] {
      var front := made[..|made| - 1];
      NoneRefused(front);
      assert made == front + [made[|made| - 1]];
      if forall k | 0 <= k < |front| :: front[k].accepted {
        assert forall k | 0 <= k < |front| :: made[k] == front[k];
      } else {
        var k :| 0 <= k < |front| && !front[k].accepted;
        assert !made[k].accepted;
      }
    }
  }

  /** The outside world: `answers` says how the n-th call of all is answered. */
  class Wire {
    var calls: seq<Call>
    const answers: nat -> bool

    constructor (answers: nat -> bool)
      ensures calls == [] && this.answers == answers
    {
      calls := [];
      this.answers := answers;
    }

    method Send(backend: nat, snapshot: Snapshot) returns (accepted: bool)
      modifies this
      ensures calls == old(calls) + [Call(backend, snapshot, accepted)]
    {
      accepted := answers(|calls|);
      calls := calls + [Call(backend, snapshot, accepted)];
    }
  }

  /** Calls each backend exactly once, in order, past any failure, and returns the backends
      that refused. */
  method Notify(n: Notifier, snapshot: Snapshot, wire: Wire) returns (failed: seq<nat>, ghost made: seq<Call>)
    modifies wire
    ensures wire.calls == old(wire.calls) + made
    ensures CallsTo(made, Backends(n), snapshot) && OnePerPath(n, made)
    ensures failed == Refused(made)
    decreases n
  {
    hide CallsTo, Refused, OnePerPath;
    match n {
      case Noop =>
        FewCalls(0, snapshot, true);
        failed, made := [], [];
      case Backend(id) =>
        var accepted := wire.Send(id, snapshot);
        FewCalls(id, snapshot, accepted);
        failed, made := if accepted then [] else [id], [Call(id, snapshot, accepted)];
      case Named(_, inner) =>
        failed, made := Notify(inner, snapshot, wire);
      case Fanout(inners) =>
        FewCalls(0, snapshot, true);
        assert inners[..0] == [];
        failed, made := [], [];
        var k := 0;
        while k < |inners|
          invariant k <= |inners|
          invariant wire.calls == old(wire.calls) + made
          invariant CallsTo(made, BackendsOf(inners[..k]), snapshot)
          invariant failed == Refused(made)
        {
          var failures; ghost var more;
          failures, more := Notify(inners[k], snapshot, wire);
          RefusedConcat(made, more);
          CallsConcat(made, more, inners, k, snapshot);
          failed, made, k := failed + failures, made + more, k + 1;
        }
        assert inners[..k] == inners;
    }
    CallsFollowPaths(n, made, snapshot);
  }

  /** The notifiers that are there. */
  function Present(notifiers: seq<Option<Notifier>>): seq<Notifier> {
    if notifiers == [] then [] else
    var last := notifiers[|notifiers| - 1];
    Present(notifiers[..|notifiers| - 1]) + if last.Some? then [last.value] else []
  }

  /** What a worker built with this notifier will call. */
  function Configured(n: Option<Notifier>): seq<nat> {
    if n.Some? then Backends(n.value) else []
  }

  lemma OnlyOne(n: Notifier)
    ensures BackendsOf([n]) == Backends(n)
  {
    assert [n][..0] == [];
    assert BackendsOf([n][..0]) == [];
  }

  /** `kept` are the notifiers that are there, at these positions, in order. */
  ghost predicate Keeps(notifiers: seq<Option<Notifier>>, places: seq<nat>, kept: seq<Notifier>) {
    && |places| == |kept|
    && (forall i | 0 <= i < |places| :: places[i] < |notifiers| && notifiers[places[i]] == Some(kept[i]))
    && (forall i, j | 0 <= i < j < |places| :: places[i] < places[j])
    && (forall k: nat | k < |notifiers| :: k in places <==> notifiers[k].Some?)
  }

  lemma KeepsSnoc(notifiers: seq<Option<Notifier>>, places: seq<nat>, kept: seq<Notifier>, n: Option<Notifier>)
    requires Keeps(notifiers, places, kept)
    ensures if n.None? then Keeps(notifiers + [n], places, kept)
            else Keeps(notifiers + [n], places + [|notifiers|], kept + [n.value])
  {
    var all := if n.Some? then places + [|notifiers|] else places;
    assert all[..|places|] == places;
    forall i: nat | i < |notifiers + [n]|
      ensures i in all <==> (notifiers + [n])[i].Some?
    {
      if i < |notifiers| {
        assert (notifiers + [n])[i] == notifiers[i];
      }
    }
  }

  lemma KeepsNothing()
    ensures Keeps([], [], [])
  {
  }

  lemma KeptNothing(notifiers: seq<Option<Notifier>>, places: seq<nat>, kept: seq<Notifier>)
    requires Keeps(notifiers, places, kept)
    ensures kept == [] <==> forall i | 0 <= i < |notifiers| :: notifiers[i].None?
  {
    if kept != [] {
      assert notifiers[places[0]].Some?;
    }
  }

  /** Nothing configured is lost or reordered, and a single notifier is not wrapped. */
  method Multi(notifiers: seq<Option<Notifier>>)
    returns (r: Option<Notifier>, ghost places: seq<nat>, ghost kept: seq<Notifier>)
    ensures Configured(r) == BackendsOf(Present(notifiers))
    ensures r.None? <==> forall i | 0 <= i < |notifiers| :: notifiers[i].None?
    ensures Keeps(notifiers, places, kept)
    ensures r.Some? ==> r.value == if |kept| == 1 then kept[0] else Fanout(kept)
  {
    hide Keeps;
    var filtered: seq<Notifier> := [];
    var k := 0;
    places := [];
    KeepsNothing();
    assert notifiers[..0] == [];
    while k < |notifiers|
      invariant k <= |notifiers|
      invariant filtered == Present(notifiers[..k])
      invariant Keeps(notifiers[..k], places, filtered)
    {
      assert notifiers[..k + 1] == notifiers[..k] + [notifiers[k]];
      KeepsSnoc(notifiers[..k], places, filtered, notifiers[k]);
      assert notifiers[..k + 1][..k] == notifiers[..k];
      if notifiers[k].Some? {
        filtered, places := filtered + [notifiers[k].value], places + [k];
      }
      k := k + 1;
    }
    assert notifiers[..k] == notifiers;
    KeptNothing(notifiers, places, filtered);
    kept := filtered;
    if |filtered| == 0 {
      r := None;
    } else if |filtered| == 1 {
      OnlyOne(filtered[0]);
      assert filtered == [filtered[0]];
      r := Some(filtered[0]);
    } else {
      r := Some(Fanout(filtered));
    }
  }

  function Configuration(names: seq<string>, ids: seq<nat>): seq<Option<Notifier>>
    requires |names| == |ids|
  {
    seq(|ids|, k requires 0 <= k < |ids| => Some(Named(names[k], Backend(ids[k]))))
  }

  lemma {:induction false} ConfigurationCalls(names: seq<string>, ids: seq<nat>)
    requires |names| == |ids|
    ensures BackendsOf(Present(Configuration(names, ids))) == ids
  {
    if ids != [] {
      var last := |ids| - 1;
      ConfigurationCalls(names[..last], ids[..last]);
      assert Configuration(names, ids)[..last] == Configuration(names[..last], ids[..last]);
      var front := Present(Configuration(names[..last], ids[..last]));
      var named := Named(names[last], Backend(ids[last]));
      assert Present(Configuration(names, ids)) == front + [named];
      assert (front + [named])[..|front|] == front;
      assert Backends(named) == [ids[last]];
      assert ids == ids[..last] + [ids[last]];
    }
  }

  /** A notification on its way through what buildNotifier configures, each backend under its
      own name: one call to each of them, in order, and no other, whether there is none, one
      or several; and those that refuse are exactly the ones reported. */
  method NotifyConfigured(names: seq<string>, ids: seq<nat>, snapshot: Snapshot, wire: Wire)
    returns (failed: seq<nat>, ghost made: seq<Call>)
    requires |names| == |ids|
    modifies wire
    ensures wire.calls == old(wire.calls) + made
    ensures |made| == |ids| && forall k | 0 <= k < |ids| :: made[k].backend == ids[k] && made[k].snapshot == snapshot
    ensures forall id :: id in failed <==> exists k :: 0 <= k < |made| && made[k].backend == id && !made[k].accepted
  {
    hide Keeps, OnePerPath, Refused, Present;
    var notifiers: seq<Option<Notifier>> := [];
    var k := 0;
    while k < |ids|
      invariant k <= |ids| && notifiers == Configuration(names, ids)[..k]
    {
      notifiers := notifiers + [Some(Named(names[k], Backend(ids[k])))];
      k := k + 1;
    }
    assert Configuration(names, ids)[..k] == Configuration(names, ids);
    var multi, _, _ := Multi(notifiers);
    ConfigurationCalls(names, ids);
    failed, made := Notify(if multi.None? then Noop else multi.value, snapshot, wire);
    RefusedAre(made);
  }

  lemma {:induction false} RefusedAre(made: seq<Call>)
    ensures forall id ::
              id in Refused(made) <==> exists k :: 0 <= k < |made| && made[k].backend == id && !made[k].accepted
  {
    if made != [] {
      var front, last := made[..|made| - 1], made[|made| - 1];
      RefusedAre(front);
      assert made == front + [last];
      forall id
        ensures id in Refused(made) <==> exists k :: 0 <= k < |made| && made[k].backend == id && !made[k].accepted
      {
        if k :| 0 <= k < |front| && front[k].backend == id && !front[k].accepted {
          assert made[k] == front[k];
        }
      }
    }
  }
}
