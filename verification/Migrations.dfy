/** The migration history of the MongoDB store (internal/adapters/persistence/mongodb/db.go),
    written by any number of processes starting at once, of the same or of older releases. */
module Migrations {
  import opened Core

  type Id = nat

  /** An entry of a release's list, and its record in the history; `version` is the key. */
  datatype Migration = Migration(version: int, name: string)

  predicate WellNumbered(items: seq<Migration>) {
    forall i | 0 <= i < |items| :: items[i].version == i + 1 && items[i].name != ""
  }

  method ValidateMigrations(items: seq<Migration>) returns (ok: bool)
    ensures ok <==> items != [] && WellNumbered(items)
  {
    if |items| == 0 {
      return false;
    }
    var i := 0;
    while i < |items|
      invariant i <= |items| && WellNumbered(items[..i])
    {
      if items[i].version != i + 1 || items[i].name == "" {
        return false;
      }
      i := i + 1;
    }
    assert items[..i] == items;
    ok := true;
  }

  /** Reads the history in key order.  It is accepted if and only if it is a prefix of the
      release's own list, and the result is how much of the list is recorded. */
  method ValidateHistory(records: seq<Migration>, items: seq<Migration>) returns (applied: Option<nat>)
    requires WellNumbered(items)
    ensures applied == if records <= items then Some(|records|) else None
  {
    var count, k := 0, 0;
    while k < |records|
      invariant k <= |records| && count == k && records[..k] <= items
    {
      var item := records[k];
      if item.version != count + 1 || item.version > |items| || item.name != items[item.version - 1].name {
        assert k < |items| ==> records[k] != items[k];
        return None;
      }
      count, k := item.version, k + 1;
    }
    assert records[..k] == records;
    applied := Some(count);
  }

  predicate Recorded(records: seq<Migration>, version: int) {
    exists k | 0 <= k < |records| :: records[k].version == version
  }

  /** The history, in key order, with one more record. */
  function Inserted(records: seq<Migration>, item: Migration): seq<Migration> {
    if records == [] || item.version < records[0].version then [item] + records
    else [records[0]] + Inserted(records[1..], item)
  }

  /** Into a prefix of a well-numbered list the next record goes at the end. */
  lemma {:induction false} InsertNext(all: seq<Migration>, n: nat, from: nat)
    requires WellNumbered(all) && from <= n < |all|
    ensures Inserted(all[from..n], all[n]) == all[from..n + 1]
    decreases n - from
  {
    if from < n {
      InsertNext(all, n, from + 1);
      assert all[from..n][1..] == all[from + 1..n];
      assert [all[from]] + all[from + 1..n + 1] == all[from..n + 1];
    } else {
      assert all[from..n] == [];
    }
  }

  /** A prefix of a well-numbered list has exactly the versions up to its length. */
  lemma RecordedUpTo(all: seq<Migration>, records: seq<Migration>, version: int)
    requires WellNumbered(all) && records <= all
    ensures Recorded(records, version) <==> 1 <= version <= |records|
  {
    if 1 <= version <= |records| {
      assert records[version - 1].version == version;
    }
  }

  /** The shared collection.  `latest` is the list of the newest release around. */
  class Collection {
    var records: seq<Migration>
    const latest: seq<Migration>

    ghost predicate Valid()
      reads this
    {
      WellNumbered(latest) && records <= latest
    }

    constructor (latest: seq<Migration>)
      requires WellNumbered(latest)
      ensures Valid() && records == [] && this.latest == latest
    {
      records, this.latest := [], latest;
    }

    /** What other processes may do between two statements of this one. */
    method Meanwhile()
      requires Valid()
      modifies this
      ensures Valid() && old(records) <= records
    {
      var n :| |records| <= n <= |latest|;
      records := latest[..n];
    }

    method Find() returns (found: seq<Migration>)
      requires Valid()
      modifies this
      ensures Valid() && old(records) <= records && found == records
    {
      Meanwhile();
      found := records;
    }

    method Insert(item: Migration) returns (duplicate: bool)
      requires Valid() && 1 <= item.version <= |records| + 1
      requires item.version <= |latest| && item == latest[item.version - 1]
      modifies this
      ensures Valid() && old(records) <= records
      ensures item.version <= |records|
      ensures !duplicate ==> item.version == |records|
    {
      Meanwhile();
      RecordedUpTo(latest, records, item.version);
      duplicate := Recorded(records, item.version);
      if !duplicate {
        assert item.version == |records| + 1;
        assert records == latest[0..|records|];
        InsertNext(latest, |records|, 0);
        records := Inserted(records, item);
      }
    }
  }

  /** Records what is missing.  With other processes writing between any two statements, the
      history stays a prefix of the newest list; success means the whole list is recorded,
      and failure only that a newer release has recorded more than this one knows. */
  method EnsureMigrationHistory(c: Collection, items: seq<Migration>) returns (ok: bool)
    requires c.Valid() && items <= c.latest
    modifies c
    ensures c.Valid() && old(c.records) <= c.records
    ensures ok ==> items <= c.records
    ensures !ok ==> |c.records| > |items|
  {
    var found := c.Find();
    var applied := ValidateHistory(found, items);
    if applied.None? {
      return false;
    }
    var version, i := applied.value, 0;
    while i < |items|
      invariant c.Valid() && old(c.records) <= c.records
      invariant i <= |items| && i <= |c.records| && version <= |c.records|
    {
      var item := items[i];
      i := i + 1;
      if item.version <= version {
        continue;
      }
      var duplicate := c.Insert(item);
      if duplicate {
        found := c.Find();
        applied := ValidateHistory(found, items);
        if applied.None? {
          return false;
        }
        version := applied.value;
        continue;
      }
      version := item.version;
    }
    ok := true;
  }

  // ---- the same processes, statement by statement ----

  /** `Reading` goes through a cursor opened when `atLeast` records were there. */
  datatype Phase = Opening(index: nat) | Reading(index: nat, atLeast: nat) | Looping(version: nat, index: nat) | Ready
                 | Refused

  /** A process of a release that knows the first `size` migrations. */
  datatype Starter = Starter(size: nat, phase: Phase)

  datatype Sys = Sys(history: seq<Migration>, starters: map<Id, Starter>)

  datatype Action = Launch(id: Id, size: nat) | Open(id: Id) | Close(id: Id, read: nat) | Turn(id: Id) | Crash(id: Id)

  predicate Enabled(all: seq<Migration>, s: Sys, act: Action) {
    match act
    case Launch(id, size) => id !in s.starters && size <= |all|
    case Open(id) => id in s.starters && s.starters[id].phase.Opening?
    case Close(id, read) =>
      && id in s.starters && s.starters[id].phase.Reading? && s.starters[id].phase.atLeast <= read <= |s.history|
      && s.starters[id].size <= |all|
    case Turn(id) => id in s.starters && s.starters[id].phase.Looping?
                     && s.starters[id].phase.index <= s.starters[id].size <= |all|
    case Crash(id) => id in s.starters
  }

  function Become(s: Sys, id: Id, phase: Phase): Sys
    requires id in s.starters
  {
    s.(starters := s.starters[id := Starter(s.starters[id].size, phase)])
  }

  function Do(all: seq<Migration>, s: Sys, act: Action): Sys
    requires Enabled(all, s, act)
  {
    match act
    case Launch(id, size) => s.(starters := s.starters[id := Starter(size, Opening(0))])
    case Open(id) => Become(s, id, Reading(s.starters[id].phase.index, |s.history|))
    case Close(id, read) =>
      Become(s, id, if s.history[..read] <= all[..s.starters[id].size] then Looping(read, s.starters[id].phase.index)
             else Refused)
    case Turn(id) =>
      var Looping(version, i) := s.starters[id].phase;
      if i == s.starters[id].size then Become(s, id, Ready)
      else if all[i].version <= version then Become(s, id, Looping(version, i + 1))
      else if Recorded(s.history, all[i].version) then Become(s, id, Opening(i + 1))
      else Become(s.(history := Inserted(s.history, all[i])), id, Looping(i + 1, i + 1))
    case Crash(id) => s.(starters := s.starters - {id})
  }

  function Exec(all: seq<Migration>, start: Sys, acts: seq<Action>): Option<Sys> {
    if acts == [] then Some(start) else
    match Exec(all, start, acts[..|acts| - 1])
    case None => None
    case Some(s) => if Enabled(all, s, acts[|acts| - 1]) then Some(Do(all, s, acts[|acts| - 1])) else None
  }

  ghost predicate StarterOk(all: seq<Migration>, history: seq<Migration>, starter: Starter) {
    && starter.size <= |all|
    && match starter.phase
       case Opening(i) => i <= |history| && i <= starter.size
       case Reading(i, atLeast) => i <= atLeast <= |history| && i <= starter.size
       case Looping(version, i) => version <= |history| && i <= |history| && i <= starter.size
       case Ready => starter.size <= |history|
       case Refused => starter.size < |history|
  }

  ghost predicate Inv(all: seq<Migration>, s: Sys) {
    && s.history <= all
    && forall id | id in s.starters :: StarterOk(all, s.history, s.starters[id])
  }

  lemma StepKeeps(all: seq<Migration>, s: Sys, act: Action)
    requires WellNumbered(all) && Inv(all, s) && Enabled(all, s, act)
    ensures Inv(all, Do(all, s, act)) && s.history <= Do(all, s, act).history
  {
    if act.Turn? {
      var i := s.starters[act.id].phase.index;
      if i < s.starters[act.id].size {
        RecordedUpTo(all, s.history, all[i].version);
        if all[i].version > s.starters[act.id].phase.version && !Recorded(s.history, all[i].version) {
          InsertNext(all, i, 0);
          assert s.history == all[0..i];
        }
      }
    }
  }

  /** However many processes of however old releases start at once, and wherever some of
      them crash: the history is always a prefix of the newest list and only grows; a
      process that reports success has its whole list recorded, also when another recorded
      it first; and one that is refused finds more recorded than it knows. */
  lemma {:induction false} HistoryIsAlwaysAPrefix(all: seq<Migration>, start: Sys, acts: seq<Action>)
    requires WellNumbered(all) && start.history <= all && start.starters == map[]
    requires Exec(all, start, acts).Some?
    ensures var s := Exec(all, start, acts).value;
            && Inv(all, s)
            && start.history <= s.history <= all
            && (forall id | id in s.starters && s.starters[id].phase.Ready? :: all[..s.starters[id].size] <= s.history)
            && (forall id | id in s.starters && s.starters[id].phase.Refused? :: |s.history| > s.starters[id].size)
  {
    if acts != [] {
      var front := acts[..|acts| - 1];
      HistoryIsAlwaysAPrefix(all, start, front);
      StepKeeps(all, Exec(all, start, front).value, acts[|acts| - 1]);
    }
  }
}
