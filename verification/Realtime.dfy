/** Clocks over the interleaved system.  If every client reads the version it sends before it
    takes its timestamp, the serial run that explains an interleaving meets the assumptions
    of the timing results, so the sessions the database ends up with run forwards. */
module Realtime {
  import opened Core
  import opened Database
  import opened Protocol
  import opened Consistency
  import opened History
  import opened Intervals
  import opened Timing
  import opened Interleaving
  import opened Serializability

  /** `times[i]` is when action `i` took place. */
  predicate Clocked(acts: seq<Action>, times: seq<Time>) {
    |times| == |acts| && forall i, j | 0 <= i <= j < |times| :: times[i] <= times[j]
  }

  predicate AsksHandover(act: Action) {
    act.Start? && act.request.Change? && (act.request.change.Claim? || act.request.change.Release?)
  }

  /** At the state after `r` actions the committed stick had the version the request sends; the
      client took its timestamp after that and before it sent the request. */
  ghost predicate ReadAt(acts: seq<Action>, times: seq<Time>, i: nat, r: nat)
    requires |times| == |acts| && i < |acts| && AsksHandover(acts[i])
  {
    var Change(id, expected, change) := acts[i].request;
    && r <= i
    && (forall k | 0 <= k < r :: times[k] <= Stamp(change))
    && Stamp(change) <= times[i]
    && Exec(acts[..r]).Some?
    && id in Exec(acts[..r]).value.committed.sticks
    && expected <= Exec(acts[..r]).value.committed.sticks[id].version
  }

  ghost predicate ClientsObserve(acts: seq<Action>, times: seq<Time>)
    requires |times| == |acts|
  {
    forall i: nat | i < |acts| && AsksHandover(acts[i]) :: exists r: nat :: ReadAt(acts, times, i, r)
  }

  lemma {:induction false} StepsCount(acts: seq<Action>)
    requires Exec(acts).Some?
    ensures Exec(acts).value.steps == |acts|
  {
    if acts != [] {
      StepsCount(acts[..|acts| - 1]);
      OneStep(Exec(acts[..|acts| - 1]).value, acts[|acts| - 1]);
      hide Do;
    }
  }

  lemma OneStep(s: Sys, act: Action)
    requires Do(s, act).Some?
    ensures Do(s, act).value.steps == s.steps + 1
  {
    hide View, Assigns, OpenSessions, OpenSessionsBy, SaveStick, Subscribe, KeyFree, RowFree, Inserted, Step, ReadStick;
    hide NewRows, HasGeneration, Owns, SkipsTo, Next, StickFree, OpOf, ReplyOf;
  }

  /** Where a transition comes from: the request its transaction began with. */
  ghost predicate CameFrom(acts: seq<Action>, began: nat, id: string, expected: int, change: Change) {
    began < |acts| && acts[began].Start? && acts[began].request == Request.Change(id, expected, change)
  }

  ghost predicate Linked(acts: seq<Action>, s: Sys) {
    && s.steps == |acts|
    && (forall a | a in s.txs && s.txs[a].ChangeTx? ::
          a in s.began && CameFrom(acts, s.began[a], s.txs[a].id, s.txs[a].expected, s.txs[a].change))
    && (forall at | at in s.done && s.done[at].op.OpTransition? ::
          CameFrom(acts, s.done[at].began, s.done[at].op.id, s.done[at].op.expected, s.done[at].op.change))
  }

  /** An action completes at most one operation and moves at most one transaction. */
  ghost predicate Moves(acts: seq<Action>, act: Action, s: Sys, t: Sys) {
    && t.steps == s.steps + 1
    && (forall a | a in t.txs && t.txs[a].ChangeTx? ::
          a in t.began
          && ((a in s.txs && a in s.began && s.txs[a].ChangeTx? && t.began[a] == s.began[a]
               && t.txs[a].id == s.txs[a].id && t.txs[a].expected == s.txs[a].expected
               && t.txs[a].change == s.txs[a].change)
              || (t.began[a] == s.steps && act.Start?
                  && act.request == Request.Change(t.txs[a].id, t.txs[a].expected, t.txs[a].change))))
    && (forall at | at in t.done && t.done[at].op.OpTransition? ::
          || (at in s.done && t.done[at] == s.done[at])
          || (t.done[at].began == s.steps && act.Start?
              && act.request == Request.Change(t.done[at].op.id, t.done[at].op.expected, t.done[at].op.change))
          || (exists a :: a in s.txs && s.txs[a].ChangeTx? && a in s.began && t.done[at].began == s.began[a]
                          && t.done[at].op.id == s.txs[a].id && t.done[at].op.expected == s.txs[a].expected
                          && t.done[at].op.change == s.txs[a].change))
  }

  predicate Refused(s: Sys, request: Request) {
    match ReadStick(s.committed, request.id, request.expected)
    case Err(_) => true
    case Ok(before) => request.Change? && Next(before, request.change).Err?
  }

  lemma StartCompletes(s: Sys, act: Action)
    requires act.Start? && Do(s, act).Some? && Refused(s, act.request)
    ensures Do(s, act).value == Complete(s, RequestOp(act.request))
  {
    hide Complete, RequestOp, StickFree, ReadStick, Next;
  }

  lemma StartBegins(s: Sys, act: Action) returns (tx: Tx)
    requires act.Start? && Do(s, act).Some? && !Refused(s, act.request)
    ensures Do(s, act).value == Begin(s.(drawn := Do(s, act).value.drawn), act.agent, tx)
    ensures tx.ChangeTx? ==> act.request == Request.Change(tx.id, tx.expected, tx.change)
  {
    hide StickFree, ReadStick, Next, Complete;
    tx := Do(s, act).value.txs[act.agent];
  }

  lemma StartMoves(acts: seq<Action>, s: Sys, act: Action)
    requires Linked(acts, s) && act.Start? && Do(s, act).Some?
    ensures Moves(acts, act, s, Do(s, act).value)
  {
    hide Do, CameFrom, Refused, Step;
    if Refused(s, act.request) {
      StartCompletes(s, act);
    } else {
      var _ := StartBegins(s, act);
    }
  }

  lemma ChangeMoves(acts: seq<Action>, s: Sys, act: Action)
    requires Linked(acts, s) && (act.Save? || act.Open? || act.Close? || act.Enqueue?) && Do(s, act).Some?
    ensures Moves(acts, act, s, Do(s, act).value)
  {
    hide View, Assigns, OpenSessions, OpenSessionsBy, SaveStick, CameFrom, NewRows;
  }

  lemma CommitMoves(acts: seq<Action>, s: Sys, act: Action)
    requires Linked(acts, s) && act.Commit? && Do(s, act).Some?
    ensures Moves(acts, act, s, Do(s, act).value)
  {
    var a, t := act.agent, Do(s, act).value;
    assert forall at | at in t.done && !(at in s.done && t.done[at] == s.done[at]) ::
        t.done[at].op == OpOf(s.txs[a]) && t.done[at].began == s.began[a];
    hide View, Inserted, CameFrom;
  }

  lemma OtherMoves(acts: seq<Action>, s: Sys, act: Action)
    requires Linked(acts, s) && Do(s, act).Some?
    requires act.Create? || act.Write? || act.Abort? || act.Take? || act.Mark? || act.Delete? || act.Fail?
    ensures Moves(acts, act, s, Do(s, act).value)
  {
    hide View, Subscribe, KeyFree, RowFree, Step, CameFrom, Owns, HasGeneration, SkipsTo;
  }

  lemma ActionMoves(acts: seq<Action>, s: Sys, act: Action)
    requires Linked(acts, s) && Do(s, act).Some?
    ensures Moves(acts, act, s, Do(s, act).value)
  {
    hide Linked, Do, Moves;
    match act
    case Start(_, _) => StartMoves(acts, s, act);
    case Save(_) => ChangeMoves(acts, s, act);
    case Open(_) => ChangeMoves(acts, s, act);
    case Close(_, _) => ChangeMoves(acts, s, act);
    case Enqueue(_, _, _) => ChangeMoves(acts, s, act);
    case Commit(_) => CommitMoves(acts, s, act);
    case _ => OtherMoves(acts, s, act);
  }

  lemma {:induction false} AllLinked(acts: seq<Action>)
    requires Exec(acts).Some?
    ensures Linked(acts, Exec(acts).value)
  {
    if acts != [] {
      var front, act := acts[..|acts| - 1], acts[|acts| - 1];
      AllLinked(front);
      var s, t := Exec(front).value, Exec(acts).value;
      ActionMoves(front, s, act);
      hide Exec, Do;
      LinkedStep(front, act, s, t);
      assert front + [act] == acts;
    }
  }

  lemma LinkedStep(acts: seq<Action>, act: Action, s: Sys, t: Sys)
    requires Linked(acts, s) && Moves(acts, act, s, t)
    ensures Linked(acts + [act], t)
  {
    assert (acts + [act])[|acts|] == act;
  }

  // ---- what is over stays over ----

  predicate Kept(s: Sys, t: Sys) {
    forall at | at in s.done :: at in t.done && t.done[at] == s.done[at]
  }

  lemma NewInstant(s: Sys, log: Log, a: Agent)
    requires Explains(log, s) && Do(s, Commit(a)).Some?
    ensures a in s.txs && InstantOf(s, s.txs[a]) !in s.done
  {
    ExplainsParts(log, s);
    if s.txs[a].ChangeTx? && s.txs[a].stage.Enqueued? {
      assert s.txs[a].change.Release? by {
        EnqueuedIsRelease(s, log, a);
      }
      var k := ReleaseReady(s, log, a);
    }
    hide Explains, Do, InsertableAt, Ahead, Apiece;
  }

  lemma EnqueuedIsRelease(s: Sys, log: Log, a: Agent)
    requires Explains(log, s) && a in s.txs && s.txs[a].ChangeTx? && s.txs[a].stage.Enqueued?
    ensures s.txs[a].change.Release?
  {
    hide Run, Step, Next, Insertable, Accounts, Dated, Apiece, Ahead;
    assert TxOk(s, log, s.txs[a]);
  }

  lemma NowIsNew(s: Sys, log: Log)
    requires Explains(log, s)
    ensures s.steps !in s.done
  {
    ExplainsParts(log, s);
    hide Explains, Apiece, Ahead;
  }

  lemma OthersKeepDone(s: Sys, act: Action)
    requires s.steps !in s.done && !act.Commit? && Do(s, act).Some?
    ensures Kept(s, Do(s, act).value)
  {
    hide View, Assigns, OpenSessions, OpenSessionsBy, SaveStick, Subscribe, KeyFree, RowFree, Step, ReadStick;
    hide NewRows, HasGeneration, Owns, SkipsTo, Next, StickFree;
  }

  lemma DoneKept(s: Sys, log: Log, act: Action)
    requires Explains(log, s) && Do(s, act).Some?
    ensures Kept(s, Do(s, act).value)
  {
    hide Explains;
    if act.Commit? {
      NewInstant(s, log, act.agent);
      hide View, Inserted, InstantOf, OpOf, ReplyOf;
    } else {
      NowIsNew(s, log);
      hide Do, Kept;
      OthersKeepDone(s, act);
    }
  }

  lemma {:induction false} DonePersists(acts: seq<Action>, r: nat)
    requires Exec(acts).Some? && r <= |acts|
    ensures Exec(acts[..r]).Some? && Kept(Exec(acts[..r]).value, Exec(acts).value)
  {
    if r == |acts| {
      assert acts[..r] == acts;
    } else {
      var front := acts[..|acts| - 1];
      assert front[..r] == acts[..r];
      DonePersists(front, r);
      var log := Executed(front);
      DoneKept(Exec(front).value, log, acts[|acts| - 1]);
      hide Do, Explains;
    }
  }

  // ---- the version a client read was written by an operation that was over ----

  /** The operation brought the stick to this version. */
  predicate Brings(log: Log, m: nat, id: string, version: int) {
    Accepted(log, m)
    && ((log[m].OpCreate? && log[m].stick.id == id && version == 1)
        || (log[m].OpTransition? && log[m].id == id && log[m].expected == version - 1))
  }

  lemma {:induction false} VersionWasBrought(log: Log, id: string, version: int) returns (m: nat)
    requires ValidRun(log) && id in Run(log).sticks && 1 <= version <= Run(log).sticks[id].version
    ensures Brings(log, m, id, version)
  {
    var last := |log| - 1;
    var front, op := log[..last], log[last];
    LastStep(log, id);
    if id in Run(front).sticks && version <= Run(front).sticks[id].version {
      m := VersionWasBrought(front, id, version);
      assert front[..m] == log[..m];
    } else {
      m := last;
      if id in Run(front).sticks {
        ChangedTo(log, id);
      } else {
        NewlyCreated(front, op, id);
      }
    }
  }

  lemma ChangedTo(log: Log, id: string)
    requires ValidRun(log) && log != [] && id in Run(log[..|log| - 1]).sticks && id in Run(log).sticks
    requires Run(log).sticks[id] != Run(log[..|log| - 1]).sticks[id]
    ensures Accepted(log, |log| - 1) && log[|log| - 1].OpTransition? && log[|log| - 1].id == id
    ensures Run(log).sticks[id].version == log[|log| - 1].expected + 1
    ensures Run(log[..|log| - 1]).sticks[id].version == log[|log| - 1].expected
  {
    hide Run, Step, ValidRun, Admissible, Consistent, Next;
    LastStep(log, id);
    AcceptedChange(log, |log| - 1);
    assert log[..|log|] == log;
  }

  lemma NewlyCreated(log: Log, op: Op, id: string)
    requires ValidRun(log) && Admissible(log, op) && id !in Run(log).sticks && id in Step(Run(log), op).db.sticks
    ensures op.OpCreate? && op.stick.id == id && Step(Run(log), op).reply.Ok?
    ensures Step(Run(log), op).db.sticks[id].version == 1
  {
    ReachableConsistent(log);
    if op.OpTransition? {
      TransitionStep(Run(log), op);
    } else if IsWorkerOp(op) {
      WorkerWrites(Run(log), op);
    }
  }

  lemma BroughtVersion(log: Log, m: nat, id: string, version: int)
    requires ValidRun(log) && Brings(log, m, id, version)
    ensures id in Run(log[..m + 1]).sticks && Run(log[..m + 1]).sticks[id].version == version
  {
    if log[m].OpTransition? {
      AcceptedChange(log, m);
    } else {
      PrefixValid(log, m);
      assert log[..m + 1][..m] == log[..m];
    }
  }

  // ---- the serial run is timed ----

  function ClockOf(order: seq<nat>, times: seq<Time>): seq<Time>
    requires forall i | 0 <= i < |order| :: order[i] < |times|
  {
    seq(|order|, i requires 0 <= i < |order| => times[order[i]])
  }

  /** Everything Serializable says of the log. */
  ghost predicate Serial(acts: seq<Action>, log: Log) {
    && Exec(acts).Some?
    && var s := Exec(acts).value;
    && s.steps == |acts| && StrictlySerial(s, log) && forall i | 0 <= i < |s.order| :: s.order[i] < |acts|
  }

  lemma SerialLog(acts: seq<Action>) returns (log: Log)
    requires Exec(acts).Some?
    ensures Serial(acts, log)
  {
    log := Serializable(acts);
    StepsCount(acts);
    var witnessLog := Executed(acts);
    ExplainsParts(witnessLog, Exec(acts).value);
    hide Run, Step, ValidRun, Explains, Exec;
  }

  /** The operation that wrote the version the client read has its place before that reading. */
  lemma WrittenBefore(acts: seq<Action>, log: Log, r: nat, id: string, version: int) returns (q: nat)
    requires Serial(acts, log) && r <= |acts| && Exec(acts[..r]).Some?
    requires id in Exec(acts[..r]).value.committed.sticks
    requires 1 <= version <= Exec(acts[..r]).value.committed.sticks[id].version
    ensures q < |log| && Exec(acts).value.order[q] < r
    ensures id in Run(log[..q + 1]).sticks && Run(log[..q + 1]).sticks[id].version == version
  {
    hide Run, Step, ValidRun, Exec;
    var earlier := SerialLog(acts[..r]);
    var m := VersionWasBrought(earlier, id, version);
    var at := Exec(acts[..r]).value.order[m];
    DonePersists(acts, r);
    var s := Exec(acts).value;
    assert at in s.done && at in s.order;
    q :| 0 <= q < |s.order| && s.order[q] == at;
    assert Brings(log, q, id, version);
    BroughtVersion(log, q, id, version);
  }

  /** The request an accepted claim or release came from, and when its client had read. */
  lemma ReadingOf(acts: seq<Action>, times: seq<Time>, log: Log, p: nat) returns (i: nat, r: nat)
    requires |times| == |acts| && ClientsObserve(acts, times) && Serial(acts, log) && IsHandover(log, p)
    ensures i < |acts| && i <= Exec(acts).value.order[p]
    ensures AsksHandover(acts[i]) && acts[i].request == Request.Change(log[p].id, log[p].expected, log[p].change)
    ensures ReadAt(acts, times, i, r)
  {
    AllLinked(acts);
    hide Run, Step, ValidRun, Exec, ReadAt;
    var s := Exec(acts).value;
    i := s.done[s.order[p]].began;
    assert CameFrom(acts, i, log[p].id, log[p].expected, log[p].change);
    r :| ReadAt(acts, times, i, r);
  }

  lemma PlacesFollow(order: seq<nat>, q: nat, p: nat)
    requires Increasing(order) && q < |order| && p < |order| && order[q] < order[p]
    ensures q < p
  {
    assert forall i, j | 0 <= i <= j < |order| :: order[i] <= order[j];
  }

  /** The places of the operations up to `q` lie before the timestamp, and `p` after it. */
  lemma BetweenPlaces(acts: seq<Action>, times: seq<Time>, log: Log, p: nat, q: nat, i: nat, r: nat)
    requires Clocked(acts, times) && Serial(acts, log) && p < |log| && q < |log| && IsHandover(log, p)
    requires i < |acts| && i <= Exec(acts).value.order[p]
    requires AsksHandover(acts[i]) && acts[i].request.change == log[p].change && ReadAt(acts, times, i, r)
    requires Exec(acts).value.order[q] < r
    ensures var clock := ClockOf(Exec(acts).value.order, times);
            && q < p && Stamp(log[p].change) <= clock[p]
            && forall k | 0 <= k <= q :: clock[k] <= Stamp(log[p].change)
  {
    hide Run, Step, ValidRun, Exec, Accepted;
    var order := Exec(acts).value.order;
    PlacesFollow(order, q, p);
    forall k | 0 <= k <= q
      ensures times[order[k]] <= Stamp(log[p].change)
    {
      assert order[k] <= order[q];
    }
  }

  /** An accepted claim or release of the run was observed by its client. */
  lemma HandoverObserved(acts: seq<Action>, times: seq<Time>, log: Log, p: nat) returns (seen: nat)
    requires Clocked(acts, times) && ClientsObserve(acts, times) && Serial(acts, log) && IsHandover(log, p)
    ensures Observed(log, ClockOf(Exec(acts).value.order, times), seen, p)
  {
    hide Run, Step, ValidRun, Exec, Serial, ClockOf;
    var i, r := ReadingOf(acts, times, log, p);
    SerialParts(acts, log);
    ExpectedIsPositive(log, p);
    var q := WrittenBefore(acts, log, r, log[p].id, log[p].expected);
    seen := q + 1;
    BetweenPlaces(acts, times, log, p, q, i, r);
  }

  lemma SerialParts(acts: seq<Action>, log: Log)
    requires Serial(acts, log)
    ensures ValidRun(log) && |Exec(acts).value.order| == |log|
  {
  }

  lemma ExpectedIsPositive(log: Log, p: nat)
    requires ValidRun(log) && IsHandover(log, p)
    ensures log[p].expected >= 1
  {
    AcceptedChange(log, p);
    PrefixValid(log, p);
    ReachableConsistent(log[..p]);
    WellFormedIn(Run(log[..p]), log[p].id);
  }

  ghost predicate ObservedIf(log: Log, clock: seq<Time>, seen: nat, p: nat)
    requires |clock| == |log|
  {
    IsHandover(log, p) ==> Observed(log, clock, seen, p)
  }

  ghost predicate ObservedUpTo(log: Log, clock: seq<Time>, seen: seq<nat>)
    requires |clock| == |log|
  {
    forall p: nat | p < |seen| :: ObservedIf(log, clock, seen[p], p)
  }

  lemma OneObserved(acts: seq<Action>, times: seq<Time>, log: Log, p: nat) returns (seen: nat)
    requires Clocked(acts, times) && ClientsObserve(acts, times) && Serial(acts, log) && p < |log|
    ensures ObservedIf(log, ClockOf(Exec(acts).value.order, times), seen, p)
  {
    seen := 0;
    if IsHandover(log, p) {
      seen := HandoverObserved(acts, times, log, p);
    }
  }

  lemma {:induction false} AllObserved(acts: seq<Action>, times: seq<Time>, log: Log, n: nat) returns (seen: seq<nat>)
    requires Clocked(acts, times) && ClientsObserve(acts, times) && Serial(acts, log) && n <= |log|
    ensures |seen| == n && ObservedUpTo(log, ClockOf(Exec(acts).value.order, times), seen)
  {
    if n == 0 {
      seen := [];
      SerialParts(acts, log);
      NoneObserved(log, ClockOf(Exec(acts).value.order, times));
    } else {
      hide Run, Step, ValidRun, Exec, ObservedIf, ObservedUpTo, ClockOf, Clocked, ClientsObserve;
      SerialParts(acts, log);
      hide Serial;
      var front := AllObserved(acts, times, log, n - 1);
      var last := OneObserved(acts, times, log, n - 1);
      seen := front + [last];
      ObservedSnoc(log, ClockOf(Exec(acts).value.order, times), front, last);
    }
  }

  lemma ObservedSnoc(log: Log, clock: seq<Time>, seen: seq<nat>, last: nat)
    requires |clock| == |log| && ObservedUpTo(log, clock, seen) && ObservedIf(log, clock, last, |seen|)
    ensures ObservedUpTo(log, clock, seen + [last])
  {
    hide ObservedIf;
  }

  lemma NoneObserved(log: Log, clock: seq<Time>)
    requires |clock| == |log|
    ensures ObservedUpTo(log, clock, [])
  {
  }

  /** Whatever the interleaving: if clients read the version they send before they take their
      timestamps, the serial run that explains what they were told is timed by the clock at
      its instants, and the sessions of every stick run forwards. */
  lemma SessionsRunForwards(acts: seq<Action>, times: seq<Time>) returns (log: Log, clock: seq<Time>, seen: seq<nat>)
    requires Exec(acts).Some? && Clocked(acts, times) && ClientsObserve(acts, times)
    ensures Serial(acts, log) && clock == ClockOf(Exec(acts).value.order, times) && Timed(log, clock, seen)
    ensures forall id :: SessionsForward(log, id)
  {
    log := SerialLog(acts);
    seen := AllObserved(acts, times, log, |log|);
    clock := ClockOf(Exec(acts).value.order, times);
    SerialParts(acts, log);
    TimedByInstants(acts, times, log, seen);
    hide Run, Step, ValidRun, Exec, Serial, ClockOf, Timed, SessionsForward;
    forall id
      ensures SessionsForward(log, id)
    {
      SessionIntervals(log, clock, seen, id);
    }
  }

  lemma TimedByInstants(acts: seq<Action>, times: seq<Time>, log: Log, seen: seq<nat>)
    requires Clocked(acts, times) && Serial(acts, log) && |seen| == |log|
    requires ObservedUpTo(log, ClockOf(Exec(acts).value.order, times), seen)
    ensures Timed(log, ClockOf(Exec(acts).value.order, times), seen)
  {
    hide Run, Step, ValidRun, Exec, Observed;
    var order := Exec(acts).value.order;
    forall p: nat | IsHandover(log, p)
      ensures Observed(log, ClockOf(order, times), seen[p], p)
    {
      assert ObservedIf(log, ClockOf(order, times), seen[p], p);
    }
    assert forall i, j | 0 <= i <= j < |order| :: order[i] <= order[j];
  }
}
