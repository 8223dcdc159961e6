/** What a whole run does to one stick: its version counts the accepted changes, and its
    claims and releases alternate. */
module History {
  import opened Core
  import opened Database
  import opened Protocol
  import opened Consistency

  /** The last operation of the log changes this stick, successfully. */
  predicate Changes(log: Log, op: Op, id: string) {
    op.OpTransition? && op.id == id && Step(Run(log), op).reply.Ok?
  }

  /** The accepted changes of a stick, in order. */
  function Mutations(log: Log, id: string): seq<Op> {
    if log == [] then [] else
    var front, op := log[..|log| - 1], log[|log| - 1];
    Mutations(front, id) + if Changes(front, op, id) then [op] else []
  }

  /** The accepted claims and releases of a stick, in order. */
  function Holdings(log: Log, id: string): seq<Op> {
    if log == [] then [] else
    var front, op := log[..|log| - 1], log[|log| - 1];
    Holdings(front, id)
    + if Changes(front, op, id) && (op.change.Claim? || op.change.Release?) then [op] else []
  }

  function Completed(db: Tables, id: string): set<nat> {
    set k | k in db.sessions && db.sessions[k].stickId == id && !db.sessions[k].Open()
  }

  /** Sticks never disappear, and only an accepted change of a stick alters it. */
  lemma StickFrame(log: Log, op: Op, id: string)
    requires Consistent(Run(log)) && id in Run(log).sticks
    ensures id in Step(Run(log), op).db.sticks
    ensures !Changes(log, op, id) ==> Step(Run(log), op).db.sticks[id] == Run(log).sticks[id]
    ensures Changes(log, op, id) ==>
              && op.expected == Run(log).sticks[id].version
              && Next(Run(log).sticks[id], op.change) == Ok(Step(Run(log), op).db.sticks[id])
              && Step(Run(log), op).reply == Ok(GotStick(Step(Run(log), op).db.sticks[id]))
  {
    if op.OpTransition? {
      TransitionStep(Run(log), op);
    } else {
      OtherWrites(Run(log), op);
    }
  }

  lemma NewStickIsFree(log: Log, op: Op, id: string)
    requires Admissible(log, op) && Consistent(Run(log))
    requires id !in Run(log).sticks
    ensures !Changes(log, op, id)
    ensures id in Step(Run(log), op).db.sticks ==>
              Step(Run(log), op).db.sticks[id].version == 1 && Step(Run(log), op).db.sticks[id].holder.None?
  {
    if op.OpTransition? {
      TransitionStep(Run(log), op);
    } else if IsWorkerOp(op) {
      WorkerWrites(Run(log), op);
    }
  }

  /** The facts an induction over a run uses of its last operation. */
  lemma LastStep(log: Log, id: string)
    requires ValidRun(log) && log != []
    ensures var front, op := log[..|log| - 1], log[|log| - 1];
            && ValidRun(front) && Admissible(front, op) && Consistent(Run(front))
            && Run(log) == Step(Run(front), op).db
            && (id in Run(front).sticks ==>
                  && id in Run(log).sticks
                  && (!Changes(front, op, id) ==> Run(log).sticks[id] == Run(front).sticks[id])
                  && (Changes(front, op, id) ==>
                        && op.expected == Run(front).sticks[id].version
                        && Next(Run(front).sticks[id], op.change) == Ok(Run(log).sticks[id])))
            && (id !in Run(front).sticks ==>
                  && !Changes(front, op, id)
                  && (id in Run(log).sticks ==> Run(log).sticks[id].version == 1 && Run(log).sticks[id].holder.None?))
  {
    var front, op := log[..|log| - 1], log[|log| - 1];
    ReachableConsistent(front);
    if id in Run(front).sticks {
      StickFrame(front, op, id);
    } else {
      NewStickIsFree(front, op, id);
    }
  }

  /** Versions are 1, 2, 3, ... with no gap and no reuse: the version of a stick is one
      more than the number of accepted changes, and the k-th of them expected version k. */
  lemma {:induction false} VersionsCountChanges(log: Log, id: string)
    requires ValidRun(log)
    ensures id !in Run(log).sticks ==> Mutations(log, id) == []
    ensures id in Run(log).sticks ==> Run(log).sticks[id].version == 1 + |Mutations(log, id)|
    ensures forall k | 0 <= k < |Mutations(log, id)| ::
              Mutations(log, id)[k].OpTransition? && Mutations(log, id)[k].expected == k + 1
  {
    if log != [] {
      LastStep(log, id);
      VersionsCountChanges(log[..|log| - 1], id);
      assert forall op | Changes(log[..|log| - 1], op, id) :: op.OpTransition?;
      hide Step, Changes;
    }
  }

  /** A stick, once there, stays, and its version never goes down. */
  lemma {:induction false} VersionMonotone(log: Log, i: nat, id: string)
    requires ValidRun(log) && i <= |log| && id in Run(log[..i]).sticks
    ensures id in Run(log).sticks
    ensures Run(log[..i]).sticks[id].version <= Run(log).sticks[id].version
  {
    if i == |log| {
      assert log[..i] == log;
    } else {
      var front := log[..|log| - 1];
      assert front[..i] == log[..i];
      LastStep(log, id);
      hide Step, Changes, Run;
      VersionMonotone(front, i, id);
    }
  }

  /** An accepted change takes the stick from the version it expected to the next. */
  lemma AcceptedChange(log: Log, i: nat)
    requires ValidRun(log) && Accepted(log, i) && log[i].OpTransition?
    ensures log[i].id in Run(log[..i]).sticks && Run(log[..i]).sticks[log[i].id].version == log[i].expected
    ensures log[i].id in Run(log[..i + 1]).sticks && Run(log[..i + 1]).sticks[log[i].id].version == log[i].expected + 1
    ensures ReplyAt(log, i) == Ok(GotStick(Run(log[..i + 1]).sticks[log[i].id]))
  {
    PrefixValid(log, i);
    ReachableConsistent(log[..i]);
    assert log[..i + 1][..i] == log[..i];
    TransitionStep(Run(log[..i]), log[i]);
    StickFrame(log[..i], log[i], log[i].id);
  }

  /** At most one change succeeds per stick and expected version. */
  lemma OneChangePerVersion(log: Log, i: nat, j: nat)
    requires ValidRun(log) && i < j
    requires Accepted(log, i) && Accepted(log, j)
    requires log[i].OpTransition? && log[j].OpTransition? && log[i].id == log[j].id
    ensures log[i].expected < log[j].expected
  {
    AcceptedChange(log, i);
    AcceptedChange(log, j);
    PrefixValid(log, j);
    hide Step, Run, Accepted;
    assert log[..j][..i + 1] == log[..i + 1];
    VersionMonotone(log[..j], i + 1, log[i].id);
  }

  lemma NextRaises(stick: Stick, change: Change)
    requires Next(stick, change).Ok?
    ensures Next(stick, change).value.version == stick.version + 1
  {
  }

  /** As long as its version stays the same, so does the stick. */
  lemma {:induction false} SameVersionSameStick(log: Log, i: nat, id: string)
    requires ValidRun(log) && i <= |log| && id in Run(log[..i]).sticks
    requires id in Run(log).sticks && Run(log).sticks[id].version == Run(log[..i]).sticks[id].version
    ensures Run(log).sticks[id] == Run(log[..i]).sticks[id]
  {
    if i == |log| {
      assert log[..i] == log;
    } else {
      var front := log[..|log| - 1];
      assert front[..i] == log[..i];
      LastStep(log, id);
      VersionMonotone(front, i, id);
      if Changes(front, log[|log| - 1], id) {
        NextRaises(Run(front).sticks[id], log[|log| - 1].change);
      }
      hide Step, Changes, Run, Next;
      SameVersionSameStick(front, i, id);
    }
  }

  /** A change and the next one of the stick: a release gives back what was claimed, to be had
      by the claimant only, and unarchiving gives back what was archived, two versions on. */
  lemma NextChangeUndoes(log: Log, i: nat, j: nat)
    requires ValidRun(log) && i < j && Accepted(log, i) && Accepted(log, j)
    requires log[i].OpTransition? && log[j].OpTransition?
    requires log[i].id == log[j].id && log[j].expected == log[i].expected + 1
    requires (log[i].change.Claim? && log[j].change.Release?) || (log[i].change.Archive? && log[j].change.Unarchive?)
    ensures log[i].id in Run(log[..i]).sticks && log[i].id in Run(log[..j + 1]).sticks
    ensures var before := Run(log[..i]).sticks[log[i].id];
            Run(log[..j + 1]).sticks[log[i].id] == before.(version := before.version + 2)
    ensures log[i].change.Claim? ==> log[j].change.subject == log[i].change.identity.sub
  {
    var id := log[i].id;
    Stepped(log, i);
    Stepped(log, j);
    PrefixValid(log, j);
    assert log[..j][..i + 1] == log[..i + 1];
    hide Run, Step, Accepted;
    SameVersionSameStick(log[..j], i + 1, id);
    Undone(Run(log[..i]).sticks[id], log[i].change, log[j].change);
  }

  lemma Stepped(log: Log, i: nat)
    requires ValidRun(log) && Accepted(log, i) && log[i].OpTransition?
    ensures log[i].id in Run(log[..i]).sticks && log[i].id in Run(log[..i + 1]).sticks
    ensures Run(log[..i]).sticks[log[i].id].version == log[i].expected
    ensures Run(log[..i + 1]).sticks[log[i].id].version == log[i].expected + 1
    ensures Next(Run(log[..i]).sticks[log[i].id], log[i].change) == Ok(Run(log[..i + 1]).sticks[log[i].id])
  {
    AcceptedChange(log, i);
    PrefixValid(log, i);
    PrefixValid(log, i + 1);
    assert log[..i + 1][..i] == log[..i];
    LastStep(log[..i + 1], log[i].id);
  }

  /** The claims and releases of a stick alternate, starting with a claim, and each release
      is made by the subject of the claim before it. */
  ghost predicate Alternate(holdings: seq<Op>) {
    forall k: nat | k < |holdings| :: InTurn(holdings, k)
  }

  ghost predicate InTurn(holdings: seq<Op>, k: nat)
    requires k < |holdings|
  {
    && holdings[k].OpTransition?
    && (k % 2 == 0 ==> holdings[k].change.Claim?)
    && (k % 2 == 1 ==>
          && holdings[k].change.Release?
          && holdings[k - 1].OpTransition? && holdings[k - 1].change.Claim?
          && holdings[k].change.subject == holdings[k - 1].change.identity.sub)
  }

  /** The holder is the author of the last claim, unless it has been released. */
  function HolderAfter(holdings: seq<Op>): Option<Holder> {
    if |holdings| % 2 == 0 then None else
    match holdings[|holdings| - 1]
    case OpTransition(_, _, Claim(identity, reason, at), _) =>
      Some(Holder(identity.sub, identity.name, identity.email, at, reason))
    case _ => None
  }

  lemma AlternateSnoc(holdings: seq<Op>, op: Op)
    requires Alternate(holdings) && op.OpTransition?
    requires |holdings| % 2 == 0 ==> op.change.Claim?
    requires |holdings| % 2 == 1 ==>
               op.change.Release? && HolderAfter(holdings).Some? && op.change.subject == HolderAfter(holdings).value.sub
    ensures Alternate(holdings + [op])
  {
    var all := holdings + [op];
    forall k: nat | k < |all|
      ensures InTurn(all, k)
    {
      if k < |holdings| {
        assert InTurn(holdings, k);
      } else if k % 2 == 1 {
        assert InTurn(holdings, k - 1);
      }
    }
  }

  lemma ClosingCompletes(db: Tables, after: Tables, k: nat, at: Time, other: string)
    requires k in db.sessions && db.sessions[k].Open()
    requires after.sessions == db.sessions[k := db.sessions[k].(releasedAt := Some(at))]
    ensures |Completed(after, other)| == |Completed(db, other)| + if db.sessions[k].stickId == other then 1 else 0
  {
    if db.sessions[k].stickId == other {
      assert Completed(after, other) == Completed(db, other) + {k};
    } else {
      assert Completed(after, other) == Completed(db, other);
    }
  }

  lemma WrittenCompletes(db: Tables, id: string, change: Change, grant: Grant, other: string)
    requires Consistent(db) && id in db.sticks && Next(db.sticks[id], change).Ok?
    requires change.Claim? ==> grant.session !in db.sessions
    requires change.Release? ==> HasOpenSession(db, id)
    ensures |Completed(Written(db, id, change, grant), other)|
         == |Completed(db, other)| + if id == other && change.Release? then 1 else 0
  {
    var after := Written(db, id, change, grant);
    hide Consistent;
    if change.Release? {
      ClosingCompletes(db, after, OpenSession(db, id), change.releasedAt, other);
    } else {
      assert Completed(after, other) == Completed(db, other);
    }
  }

  lemma StepCompletes(log: Log, op: Op, id: string)
    requires Admissible(log, op) && Consistent(Run(log))
    ensures |Completed(Step(Run(log), op).db, id)|
         == |Completed(Run(log), id)| + if Changes(log, op, id) && op.change.Release? then 1 else 0
  {
    if op.OpTransition? {
      TransitionStep(Run(log), op);
      hide Step;
      if Proceeds(Run(log), op.id, op.expected, op.change) {
        WrittenCompletes(Run(log), op.id, op.change, op.grant, id);
      }
    } else {
      OtherWrites(Run(log), op);
      hide Step;
      assert Completed(Step(Run(log), op).db, id) == Completed(Run(log), id);
    }
  }

  lemma HolderSnoc(holdings: seq<Op>, op: Op, before: Stick, after: Stick)
    requires op.OpTransition? && Next(before, op.change) == Ok(after)
    requires Alternate(holdings) && before.holder == HolderAfter(holdings)
    requires op.change.Claim? || op.change.Release?
    ensures Alternate(holdings + [op])
    ensures after.holder == HolderAfter(holdings + [op])
    ensures op.change.Release? <==> |holdings| % 2 == 1
  {
    if holdings != [] {
      assert InTurn(holdings, |holdings| - 1);
    }
    AlternateSnoc(holdings, op);
  }

  ghost predicate HoldingsOk(log: Log, id: string) {
    && Alternate(Holdings(log, id))
    && (id !in Run(log).sticks ==> Holdings(log, id) == [])
    && (id in Run(log).sticks ==> Run(log).sticks[id].holder == HolderAfter(Holdings(log, id)))
  }

  lemma HoldingsSnoc(log: Log, id: string)
    requires log != []
    ensures var front, op := log[..|log| - 1], log[|log| - 1];
            Holdings(log, id) == if Changes(front, op, id) && (op.change.Claim? || op.change.Release?)
            then Holdings(front, id) + [op] else Holdings(front, id)
  {
    hide Changes;
  }

  lemma HoldingsStep(log: Log, id: string)
    requires ValidRun(log) && log != [] && HoldingsOk(log[..|log| - 1], id)
    ensures HoldingsOk(log, id)
  {
    var front, op := log[..|log| - 1], log[|log| - 1];
    LastStep(log, id);
    HoldingsSnoc(log, id);
    NobodyHolds();
    hide Step, Run, Alternate, HolderAfter, ValidRun, Consistent, Holdings, Admissible;
    if Changes(front, op, id) {
      var before := Run(front).sticks[id];
      TransitionContract(before, op.change) by {
        WellFormedIn(Run(front), id);
      }
      if op.change.Claim? || op.change.Release? {
        HolderSnoc(Holdings(front, id), op, before, Run(log).sticks[id]);
      }
    }
  }

  lemma WellFormedIn(db: Tables, id: string)
    requires Consistent(db) && id in db.sticks
    ensures WellFormedStick(db.sticks[id])
  {
  }

  lemma {:induction false} HoldingsInv(log: Log, id: string)
    requires ValidRun(log)
    ensures HoldingsOk(log, id)
  {
    if log != [] {
      HoldingsInv(log[..|log| - 1], id);
      HoldingsStep(log, id);
    } else {
      NobodyHolds();
    }
  }

  lemma NobodyHolds()
    ensures HolderAfter([]) == None
  {
  }

  lemma {:induction false} CompletedInv(log: Log, id: string)
    requires ValidRun(log)
    ensures |Completed(Run(log), id)| == |Holdings(log, id)| / 2
  {
    if log != [] {
      var front, op := log[..|log| - 1], log[|log| - 1];
      LastStep(log, id);
      CompletedInv(front, id);
      HoldingsInv(front, id);
      StepCompletes(front, op, id);
      hide Step, Run, Completed;
      if Changes(front, op, id) && (op.change.Claim? || op.change.Release?) {
        HolderSnoc(Holdings(front, id), op, Run(front).sticks[id], Run(log).sticks[id]);
      }
    } else {
      assert Completed(Run(log), id) == {};
    }
  }

  /** Over any run the accepted claims and releases of a stick strictly alternate with the
      same subject on both sides, the holder is the one of the last claim, and the
      completed sessions number the accepted releases. */
  lemma ClaimsAndReleasesAlternate(log: Log, id: string)
    requires ValidRun(log)
    ensures Alternate(Holdings(log, id))
    ensures id in Run(log).sticks ==> Run(log).sticks[id].holder == HolderAfter(Holdings(log, id))
    ensures |Completed(Run(log), id)| == |Holdings(log, id)| / 2
  {
    HoldingsInv(log, id);
    CompletedInv(log, id);
  }
}
