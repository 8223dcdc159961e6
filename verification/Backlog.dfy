/** When an outbox row is sure to be claimed.  Claims take the eligible row with the lowest id
    (internal/adapters/persistence/sqlite/outbox.go), so rows whose backend keeps timing out
    stand before every later row each time their pause is over. */
module Backlog {
  import opened Core
  import opened Database
  import opened Protocol
  import opened Consistency
  import opened Durations
  import opened Outbox

  /** One worker between two rounds: the tables and what its clock shows. */
  datatype State = State(db: Tables, clock: Time)

  /** A round: the row claimed under `token`, when the attempt was over and how, when its mark
      was recorded, and the tables after what others did meanwhile. */
  datatype Round = Round(
    row: nat, token: Token, over: Time, ended: Time, delivered: bool, failure: string, after: Tables)

  /** How long an attempt can last, from the reading of the clock before the claim to the one
      after the notifier returned, and how long the mark can take after that. */
  datatype Limits = Limits(attempt: nat, record: nat)

  predicate Lowest(db: Tables, n: nat, now: Time, ttl: Time) {
    && n in db.outbox && Eligible(db.outbox[n], now, now - ttl)
    && forall m | m in db.outbox && m < n :: !Eligible(db.outbox[m], now, now - ttl)
  }

  /** The tables once the claim and the mark of a round have taken effect. */
  function Settled(o: Options, s: State, round: Round): Tables
    requires round.row in s.db.outbox
  {
    var row := s.db.outbox[round.row];
    var claimed := Step(s.db, OpClaim(Some(round.row), s.clock, s.clock - o.claimTTL as int, round.token)).db;
    var delivery := Delivery(round.row, row.snapshot, row.attempts + 1, round.token);
    Step(claimed, if round.delivered then OpSucceed(delivery, round.over)
         else OpFail(delivery, round.over + Delay(o, row.attempts + 1), round.failure)).db
  }

  /** Others add rows after `n`; they leave the rows up to it to the worker. */
  predicate SameUpTo(n: nat, before: Tables, after: Tables) {
    forall m: nat | m <= n ::
      (m in before.outbox <==> m in after.outbox) && (m in before.outbox ==> after.outbox[m] == before.outbox[m])
  }

  predicate Happens(o: Options, l: Limits, n: nat, s: State, round: Round) {
    && Lowest(s.db, round.row, s.clock, o.claimTTL as int)
    && s.clock <= round.over <= s.clock + l.attempt && round.over <= round.ended <= round.over + l.record
    && SameUpTo(n, Settled(o, s, round), round.after)
  }

  /** The worker goes from round to round without a pause, as it does while rows are eligible. */
  predicate Runs(o: Options, l: Limits, n: nat, s: State, rounds: seq<Round>)
    decreases rounds
  {
    rounds == [] ||
    (Happens(o, l, n, s, rounds[0]) && Runs(o, l, n, State(rounds[0].after, rounds[0].ended), rounds[1..]))
  }

  /** The rows that stand before `n` until they are delivered. */
  function Ahead(db: Tables, n: nat): set<nat> {
    set m | m in db.outbox && m < n && db.outbox[m].status != Succeeded
  }

  predicate Claims(rounds: seq<Round>, n: nat) {
    exists i :: 0 <= i < |rounds| && rounds[i].row == n
  }

  predicate IsEligible(o: Options, s: State, n: nat) {
    n in s.db.outbox && Eligible(s.db.outbox[n], s.clock, s.clock - o.claimTTL as int)
  }

  // ---- what a round does ----

  /** The row a round leaves behind. */
  function RowAfter(o: Options, s: State, round: Round): Row
    requires round.row in s.db.outbox
  {
    var claimed := ClaimedRow(s.db.outbox[round.row], s.clock, round.token);
    if round.delivered then SucceededRow(claimed, round.over)
    else FailedRow(claimed, round.over + Delay(o, claimed.attempts), round.failure)
  }

  lemma SettledRow(o: Options, s: State, round: Round)
    requires IsEligible(o, s, round.row)
    ensures Settled(o, s, round).outbox == s.db.outbox[round.row := RowAfter(o, s, round)]
  {
    var now, row := s.clock, s.db.outbox[round.row];
    var claim := OpClaim(Some(round.row), now, now - o.claimTTL as int, round.token);
    var claimed := Step(s.db, claim).db;
    var delivery := Delivery(round.row, row.snapshot, row.attempts + 1, round.token);
    assert claimed.outbox == s.db.outbox[round.row := ClaimedRow(row, now, round.token)];
    assert Owns(claimed, delivery);
    WorkerWrites(claimed, if round.delivered then OpSucceed(delivery, round.over)
                 else OpFail(delivery, round.over + Delay(o, row.attempts + 1), round.failure));
    hide Step, Delay;
  }

  /** A row nobody touches stays eligible as time passes. */
  lemma StaysEligible(o: Options, l: Limits, n: nat, s: State, round: Round)
    requires Happens(o, l, n, s, round) && IsEligible(o, s, n) && round.row != n
    ensures round.row < n && IsEligible(o, State(round.after, round.ended), n)
  {
    SettledRow(o, s, round);
    hide Settled, RowAfter;
  }

  // ---- rows that wait the longest pause ----

  /** The worker has dealt with this row, and it is not due before `due`. */
  predicate NotDue(row: Row, due: Time) {
    || row.status == Succeeded
    || (row.status == Failed && row.nextAttemptAt.Some? && row.nextAttemptAt.value >= due)
  }

  predicate Done(db: Tables, n: nat, rows: set<nat>, due: Time) {
    forall m | m in rows :: m < n && m in db.outbox && NotDue(db.outbox[m], due)
  }

  /** How many pauses shorter than the longest a row has before it at most. */
  function Young(db: Tables, m: nat): nat {
    if m in db.outbox && db.outbox[m].status != Succeeded && db.outbox[m].attempts < 63
    then 63 - db.outbox[m].attempts else 0
  }

  function Youth(db: Tables, n: nat): nat {
    if n == 0 then 0 else Youth(db, n - 1) + Young(db, n - 1)
  }

  lemma {:induction false} YouthFalls(before: Tables, after: Tables, n: nat, m: nat)
    requires m < n && Young(after, m) <= Young(before, m)
    requires forall k: nat | k < n && k != m :: Young(after, k) == Young(before, k)
    ensures Youth(after, n) == Youth(before, n) - Young(before, m) + Young(after, m)
  {
    hide Young;
    if m < n - 1 {
      YouthFalls(before, after, n - 1, m);
    } else {
      YouthSame(before, after, n - 1);
    }
  }

  lemma {:induction false} YouthSame(before: Tables, after: Tables, n: nat)
    requires forall k: nat | k < n :: Young(after, k) == Young(before, k)
    ensures Youth(after, n) == Youth(before, n)
  {
    hide Young;
    if n > 0 {
      YouthSame(before, after, n - 1);
    }
  }

  /** A round on a lower row: what stands ahead does not grow, and the row was young or now
      pauses for the longest time. */
  lemma RoundAhead(o: Options, l: Limits, n: nat, s: State, round: Round)
    requires o.Normal() && Happens(o, l, n, s, round) && round.row < n
    ensures round.row in Ahead(s.db, n) && Ahead(round.after, n) <= Ahead(s.db, n)
    ensures Youth(round.after, n) <= Youth(s.db, n)
    ensures Youth(round.after, n) < Youth(s.db, n)
            || Done(round.after, n, {round.row}, round.over + o.maxBackoff as int)
  {
    SettledRow(o, s, round);
    var attempts := s.db.outbox[round.row].attempts;
    if attempts >= 63 {
      DelaySaturates(o, attempts + 1);
    }
    hide Settled, Delay, Youth;
    YouthFalls(s.db, round.after, n, round.row);
  }

  /** Rows done with stay done with, and are not claimed before they are due. */
  lemma StayDone(o: Options, l: Limits, n: nat, s: State, round: Round, rows: set<nat>, due: Time)
    requires Happens(o, l, n, s, round) && round.row < n && Done(s.db, n, rows, due) && s.clock < due
    ensures round.row !in rows && Done(round.after, n, rows, due)
  {
    SettledRow(o, s, round);
    hide Settled, RowAfter;
  }

  // ---- a bound for the row that waits ----

  function Final(s: State, rounds: seq<Round>): State {
    if rounds == [] then s else State(rounds[|rounds| - 1].after, rounds[|rounds| - 1].ended)
  }

  lemma {:induction false} RunsSplit(o: Options, l: Limits, n: nat, s: State, rounds: seq<Round>, k: nat)
    requires Runs(o, l, n, s, rounds) && k <= |rounds|
    ensures Runs(o, l, n, s, rounds[..k]) && Runs(o, l, n, Final(s, rounds[..k]), rounds[k..])
    decreases k
  {
    hide Happens;
    if k == 0 {
      assert rounds[0..] == rounds && rounds[..0] == [];
    } else {
      var next, rest := State(rounds[0].after, rounds[0].ended), rounds[1..];
      RunsSplit(o, l, n, next, rest, k - 1);
      assert rounds[..k][1..] == rest[..k - 1] && rounds[k..] == rest[k - 1..];
      assert Final(s, rounds[..k]) == Final(next, rest[..k - 1]);
    }
  }

  /** As long as `n` is not claimed every round is on a row ahead of it. */
  lemma {:induction false} NothingGrows(o: Options, l: Limits, n: nat, s: State, rounds: seq<Round>)
    requires o.Normal() && Runs(o, l, n, s, rounds) && IsEligible(o, s, n) && !Claims(rounds, n)
    ensures var t := Final(s, rounds);
            && IsEligible(o, t, n) && Ahead(t.db, n) <= Ahead(s.db, n) && Youth(t.db, n) <= Youth(s.db, n)
    decreases rounds
  {
    hide Happens, IsEligible, Ahead, Youth;
    if rounds != [] {
      var next := State(rounds[0].after, rounds[0].ended);
      assert rounds[0].row != n;
      StaysEligible(o, l, n, s, rounds[0]);
      RoundAhead(o, l, n, s, rounds[0]);
      NotClaimedLater(rounds, n);
      NothingGrows(o, l, n, next, rounds[1..]);
      assert Final(s, rounds) == Final(next, rounds[1..]);
    }
  }

  lemma RoundTakes(o: Options, l: Limits, n: nat, s: State, round: Round)
    requires Happens(o, l, n, s, round)
    ensures s.clock <= round.over <= round.ended <= round.over + l.record
    ensures round.ended <= s.clock + l.attempt + l.record
  {
    hide Settled;
  }

  lemma NotClaimedLater(rounds: seq<Round>, n: nat)
    requires rounds != [] && !Claims(rounds, n)
    ensures rounds[0].row != n && !Claims(rounds[1..], n)
  {
    forall i | 0 <= i < |rounds[1..]|
      ensures rounds[1..][i].row != n
    {
      assert rounds[1..][i] == rounds[i + 1];
    }
  }

  lemma {:induction false} SubsetSize(small: set<nat>, large: set<nat>)
    requires small <= large
    ensures |small| <= |large|
  {
    if small != {} {
      var x :| x in small;
      SubsetSize(small - {x}, large - {x});
    }
  }

  /** How long so many rounds can take. */
  function RoundsTime(l: Limits, count: nat): nat {
    if count == 0 then 0 else RoundsTime(l, count - 1) + l.attempt + l.record
  }

  lemma {:induction false} RoundsTimeIs(l: Limits, count: nat)
    ensures RoundsTime(l, count) == count * (l.attempt + l.record)
  {
    if count > 0 {
      RoundsTimeIs(l, count - 1);
    }
  }

  lemma {:induction false} RoundsTimeGrows(l: Limits, a: nat, b: nat)
    requires a <= b
    ensures RoundsTime(l, a) <= RoundsTime(l, b)
  {
    if a < b {
      RoundsTimeGrows(l, a, b - 1);
    }
  }

  /** So many times a round on every row ahead, and one round more each time. */
  function RoundsNeeded(youth: nat, ahead: nat): nat {
    ahead + 1 + if youth == 0 then 0 else RoundsNeeded(youth - 1, ahead)
  }

  lemma {:induction false} RoundsNeededIs(youth: nat, ahead: nat)
    ensures RoundsNeeded(youth, ahead) == (youth + 1) * (ahead + 1)
  {
    if youth > 0 {
      RoundsNeededIs(youth - 1, ahead);
      assert (youth + 1) * (ahead + 1) == youth * (ahead + 1) + ahead + 1;
    }
  }

  lemma {:induction false} RoundsNeededGrows(a: nat, b: nat, c: nat, d: nat)
    requires a <= b && c <= d
    ensures RoundsNeeded(a, c) <= RoundsNeeded(b, d)
  {
    if a > 0 {
      RoundsNeededGrows(a - 1, b - 1, c, d);
    } else if b > 0 {
      RoundsNeededGrows(0, b - 1, c, d);
    }
  }

  /** Rounds before `due` either use up youth or are on different rows. */
  lemma {:induction false} DifferentRows(o: Options, l: Limits, n: nat, s: State, rounds: seq<Round>,
                                         rows: set<nat>, due: Time, all: set<nat>)
    requires o.Normal() && Runs(o, l, n, s, rounds) && IsEligible(o, s, n) && !Claims(rounds, n)
    requires Done(s.db, n, rows, due) && due <= s.clock + o.maxBackoff as int
    requires rounds != [] ==> s.clock + RoundsTime(l, |rounds| - 1) < due
    requires rows <= all && Ahead(s.db, n) <= all
    ensures Youth(Final(s, rounds).db, n) < Youth(s.db, n) || |rows| + |rounds| <= |all|
    decreases rounds
  {
    hide IsEligible, Ahead, Youth, Done, Claims, Happens, Settled;
    if rounds == [] {
      SubsetSize(rows, all);
    } else {
      var round := rounds[0];
      var next := State(round.after, round.ended);
      NotClaimedLater(rounds, n);
      RoundTakes(o, l, n, s, round);
      StaysEligible(o, l, n, s, round);
      RoundAhead(o, l, n, s, round);
      assert Final(s, rounds) == Final(next, rounds[1..]);
      NothingGrows(o, l, n, next, rounds[1..]);
      if Youth(round.after, n) == Youth(s.db, n) {
        StayDone(o, l, n, s, round, rows, due);
        OneMoreDone(round.after, n, rows, round.row, due, round.over + o.maxBackoff as int);
        DifferentRows(o, l, n, next, rounds[1..], rows + {round.row}, due, all);
      }
    }
  }

  lemma OneMoreDone(db: Tables, n: nat, rows: set<nat>, row: nat, due: Time, later: Time)
    requires Done(db, n, rows, due) && Done(db, n, {row}, later) && due <= later
    ensures Done(db, n, rows + {row}, due)
  {
  }

  /** If one round on every row ahead fits into the longest pause, as many rounds as there are
      rows ahead and one more use up some youth. */
  lemma OneRoundOfAll(o: Options, l: Limits, n: nat, s: State, rounds: seq<Round>)
    requires o.Normal() && Runs(o, l, n, s, rounds) && IsEligible(o, s, n) && !Claims(rounds, n)
    requires |rounds| == |Ahead(s.db, n)| + 1
    requires |rounds| > 1 ==> RoundsTime(l, |rounds| - 2) + l.record < o.maxBackoff as int
    ensures Youth(Final(s, rounds).db, n) < Youth(s.db, n)
  {
    hide Ahead, IsEligible, Youth, Done, Claims, Happens, Settled;
    var round := rounds[0];
    RoundTakes(o, l, n, s, round);
    var next, due := State(round.after, round.ended), round.over + o.maxBackoff as int;
    NotClaimedLater(rounds, n);
    StaysEligible(o, l, n, s, round);
    RoundAhead(o, l, n, s, round);
    assert Final(s, rounds) == Final(next, rounds[1..]);
    NothingGrows(o, l, n, next, rounds[1..]);
    if Youth(round.after, n) == Youth(s.db, n) {
      if |rounds| == 1 {
        SubsetSize({round.row}, Ahead(s.db, n));
      }
      DifferentRows(o, l, n, next, rounds[1..], {round.row}, due, Ahead(s.db, n));
    }
  }

  /** Then the row is claimed within so many rounds. */
  lemma {:induction false} ClaimedInTime(o: Options, l: Limits, n: nat, s: State, rounds: seq<Round>)
    requires o.Normal() && Runs(o, l, n, s, rounds) && IsEligible(o, s, n)
    requires |Ahead(s.db, n)| > 0 ==> RoundsTime(l, |Ahead(s.db, n)| - 1) + l.record < o.maxBackoff as int
    requires |rounds| >= RoundsNeeded(Youth(s.db, n), |Ahead(s.db, n)|)
    ensures Claims(rounds, n)
    decreases Youth(s.db, n)
  {
    var ahead, youth := |Ahead(s.db, n)|, Youth(s.db, n);
    hide IsEligible, Ahead, Youth, Runs, Claims;
    if !Claims(rounds, n) {
      var window, rest := rounds[..ahead + 1], rounds[ahead + 1..];
      RunsSplit(o, l, n, s, rounds, ahead + 1);
      var t := Final(s, window);
      NotClaimedParts(rounds, n, ahead + 1);
      OneRoundOfAll(o, l, n, s, window);
      NothingGrows(o, l, n, s, window);
      SubsetSize(Ahead(t.db, n), Ahead(s.db, n));
      if |Ahead(t.db, n)| > 0 {
        RoundsTimeGrows(l, |Ahead(t.db, n)| - 1, ahead - 1);
      }
      RoundsNeededGrows(Youth(t.db, n), youth - 1, |Ahead(t.db, n)|, ahead);
      ClaimedInTime(o, l, n, t, rest);
    }
  }

  lemma NotClaimedParts(rounds: seq<Round>, n: nat, k: nat)
    requires k <= |rounds| && !Claims(rounds, n)
    ensures !Claims(rounds[..k], n) && !Claims(rounds[k..], n)
  {
    forall i | 0 <= i < |rounds[k..]|
      ensures rounds[k..][i].row != n
    {
      assert rounds[k..][i] == rounds[i + k];
    }
  }

  lemma {:induction false} YouthBound(db: Tables, n: nat)
    ensures Youth(db, n) <= 63 * |Ahead(db, n)|
  {
    if n > 0 {
      YouthBound(db, n - 1);
      if n - 1 in Ahead(db, n) {
        assert Ahead(db, n) == Ahead(db, n - 1) + {n - 1};
      } else {
        assert Ahead(db, n) == Ahead(db, n - 1);
      }
    }
  }

  // ---- rows that are never over with ----

  /** The rows ahead, the one attempted last at the end, each due again before all those behind
      it in the queue have had a round. */
  ghost predicate Turns(o: Options, l: Limits, count: nat, s: State, queue: seq<nat>) {
    && |queue| == count
    && (forall i, j | 0 <= i < j < count :: queue[i] != queue[j])
    && (forall m: nat | m < count :: m in queue)
    && (forall i: nat | i < count :: queue[i] < count && DueAt(o, l, s, queue[i], count - 1 - i))
  }

  ghost predicate DueAt(o: Options, l: Limits, s: State, m: nat, after: nat) {
    && m in s.db.outbox && (s.db.outbox[m].status == Pending || s.db.outbox[m].status == Failed)
    && s.db.outbox[m].nextAttemptAt.Some?
    && s.db.outbox[m].nextAttemptAt.value + RoundsTime(l, after) + l.record <= s.clock + o.maxBackoff as int
  }

  /** A round that takes as long as it can and fails. */
  function LongRound(o: Options, l: Limits, s: State, m: nat): (round: Round)
    requires m in s.db.outbox
  {
    var over := s.clock + l.attempt;
    var round := Round.Round(m, "", over, over + l.record, false, "", s.db);
    round.(after := Settled(o, s, round))
  }

  lemma LongRoundFails(o: Options, l: Limits, n: nat, s: State, m: nat)
    requires o.Normal() && IsEligible(o, s, m) && IsEligible(o, s, n) && m != n
    ensures var t := State(LongRound(o, l, s, m).after, LongRound(o, l, s, m).ended);
            && DueAt(o, l, t, m, 0) && IsEligible(o, t, n) && t.clock == s.clock + l.attempt + l.record
            && (forall k | k in s.db.outbox && k != m :: k in t.db.outbox && t.db.outbox[k] == s.db.outbox[k])
            && t.db.outbox.Keys == s.db.outbox.Keys
  {
    var round := LongRound(o, l, s, m);
    SettledRow(o, s, round);
    DelayGrows(o, s.db.outbox[m].attempts + 1, s.db.outbox[m].attempts + 1);
    hide Settled, Delay;
  }

  lemma LongRoundHappens(o: Options, l: Limits, n: nat, s: State, m: nat)
    requires m in s.db.outbox && Lowest(s.db, m, s.clock, o.claimTTL as int)
    ensures Happens(o, l, n, s, LongRound(o, l, s, m))
  {
    hide Step, Delay, Lowest;
  }

  lemma {:induction false} LowestBelow(db: Tables, m: nat, now: Time, ttl: Time) returns (n: nat)
    requires m in db.outbox && Eligible(db.outbox[m], now, now - ttl)
    ensures n <= m && Lowest(db, n, now, ttl)
  {
    hide Eligible;
    n := m;
    if k: nat :| k in db.outbox && k < m && Eligible(db.outbox[k], now, now - ttl) {
      n := LowestBelow(db, k, now, ttl);
    }
  }

  function Requeued(queue: seq<nat>, i: nat): seq<nat>
    requires i < |queue|
  {
    queue[..i] + queue[i + 1..] + [queue[i]]
  }

  /** The row attempted goes to the end of the queue, and all move up. */
  lemma TurnsGoOn(o: Options, l: Limits, count: nat, s: State, t: State, queue: seq<nat>, i: nat)
    requires Turns(o, l, count, s, queue) && i < count && t.clock == s.clock + l.attempt + l.record
    requires forall k | k in s.db.outbox && k != queue[i] :: k in t.db.outbox && t.db.outbox[k] == s.db.outbox[k]
    requires DueAt(o, l, t, queue[i], 0)
    ensures Turns(o, l, count, t, Requeued(queue, i))
  {
    var more := Requeued(queue, i);
    forall m: nat | m < count
      ensures m in more
    {
      assert m in queue;
      var j :| 0 <= j < |queue| && queue[j] == m;
      assert more[if j < i then j else if j == i then count - 1 else j - 1] == m;
    }
    forall p: nat | p < count
      ensures more[p] < count && DueAt(o, l, t, more[p], count - 1 - p)
    {
      if p < i {
        RoundsTimeGrows(l, count - 1 - p, count - p);
        assert DueAt(o, l, s, queue[p], count - 1 - p);
      } else if p < count - 1 {
        assert DueAt(o, l, s, queue[p + 1], count - 1 - (p + 1));
        assert RoundsTime(l, count - 1 - p) == RoundsTime(l, count - 2 - p) + l.attempt + l.record;
      }
    }
  }

  /** If a round on every row ahead does not fit into the longest pause, the row can wait for
      any number of rounds. */
  lemma {:induction false} Starves(o: Options, l: Limits, count: nat, s: State, queue: seq<nat>, more: nat)
    returns (rounds: seq<Round>)
    requires o.Normal() && 0 < count && o.maxBackoff as int <= RoundsTime(l, count - 1) + l.record
    requires Turns(o, l, count, s, queue) && IsEligible(o, s, count)
    ensures |rounds| == more && Runs(o, l, count, s, rounds) && !Claims(rounds, count)
    decreases more
  {
    if more == 0 {
      rounds := [];
    } else {
      assert DueAt(o, l, s, queue[0], count - 1);
      var m := LowestBelow(s.db, queue[0], s.clock, o.claimTTL as int);
      assert m in queue;
      var i: nat :| i < |queue| && queue[i] == m;
      LongRoundFails(o, l, count, s, m);
      LongRoundHappens(o, l, count, s, m);
      var round := LongRound(o, l, s, m);
      var t := State(round.after, round.ended);
      TurnsGoOn(o, l, count, s, t, queue, i);
      hide Turns, IsEligible, Happens, LongRound, Lowest;
      var rest := Starves(o, l, count, t, Requeued(queue, i), more - 1);
      rounds := [round] + rest;
      assert rounds[1..] == rest;
    }
  }

  function PendingRows(count: nat, past: Time): (rows: map<nat, Row>)
    ensures forall n: nat :: n in rows <==> n <= count
    ensures forall n | n in rows ::
              rows[n].status == Pending && rows[n].nextAttemptAt == Some(past) && rows[n].attempts == 0
  {
    var row := NewRow(Snapshot("s", "n", "h", "e", past, past, "u", "r", "m", "g"), past);
    if count == 0 then map[0 := row] else PendingRows(count - 1, past)[count := row]
  }

  /** So many rows wait, all due long since. */
  function Waiting(count: nat, past: Time): State {
    State(EMPTY.(outbox := PendingRows(count, past)), 0)
  }

  lemma {:induction false} AllAhead(count: nat, past: Time, n: nat)
    requires n <= count
    ensures |Ahead(Waiting(count, past).db, n)| == n
  {
    var db := Waiting(count, past).db;
    if n == 0 {
      assert Ahead(db, 0) == {};
    } else {
      AllAhead(count, past, n - 1);
      assert Ahead(db, n) == Ahead(db, n - 1) + {n - 1};
    }
  }

  lemma SomeoneStarves(o: Options, l: Limits, count: nat, more: nat) returns (s: State, rounds: seq<Round>)
    requires o.Normal() && 0 < count && o.maxBackoff as int <= RoundsTime(l, count - 1) + l.record
    ensures IsEligible(o, s, count) && |Ahead(s.db, count)| == count
    ensures |rounds| == more && Runs(o, l, count, s, rounds) && !Claims(rounds, count)
  {
    var past := -(RoundsTime(l, count) + l.record);
    s := Waiting(count, past);
    AllAhead(count, past, count);
    var queue := seq(count, i => i);
    forall i: nat | i < count
      ensures DueAt(o, l, s, queue[i], count - 1 - i)
    {
      RoundsTimeGrows(l, count - 1 - i, count);
    }
    forall m: nat | m < count
      ensures m in queue
    {
      assert queue[m] == m;
    }
    rounds := Starves(o, l, count, s, queue, more);
  }

  /** So many rounds are enough if the rows ahead are so many. */
  function Enough(count: nat): nat {
    (63 * count + 1) * (count + 1)
  }

  /** Every row with so many unsuccessful rows ahead of it is claimed within a bounded number
      of rounds, however notifiers answer and whatever others do. */
  ghost predicate NobodyStarves(o: Options, l: Limits, count: nat) {
    forall s, n, rounds | IsEligible(o, s, n) && |Ahead(s.db, n)| == count && Runs(o, l, n, s, rounds)
                          && |rounds| >= Enough(count) ::
      Claims(rounds, n)
  }

  /** One attempt on each of the rows ahead but one, with the marks, fits into the longest pause
      between attempts. */
  predicate Fits(o: Options, l: Limits, count: nat) {
    count == 0 || (count - 1) * (l.attempt + l.record) + l.record < o.maxBackoff as int
  }

  lemma FitsAll(o: Options, l: Limits, count: nat)
    ensures count > 0 ==> (Fits(o, l, count) <==> RoundsTime(l, count - 1) + l.record < o.maxBackoff as int)
  {
    if count > 0 {
      RoundsTimeIs(l, count - 1);
    }
  }

  lemma EnoughRounds(db: Tables, n: nat, count: nat)
    requires |Ahead(db, n)| == count
    ensures RoundsNeeded(Youth(db, n), count) <= Enough(count)
  {
    YouthBound(db, n);
    RoundsNeededGrows(Youth(db, n), 63 * count, count, count);
    RoundsNeededIs(63 * count, count);
  }

  /** Nobody starves if and only if the attempts on the rows ahead fit into the longest pause. */
  lemma NobodyStarvesIff(o: Options, l: Limits, count: nat)
    requires o.Normal()
    ensures NobodyStarves(o, l, count) <==> Fits(o, l, count)
  {
    FitsAll(o, l, count);
    hide IsEligible, Ahead, Runs, Claims, Youth, Enough, RoundsTime;
    if Fits(o, l, count) {
      forall s, n, rounds | IsEligible(o, s, n) && |Ahead(s.db, n)| == count && Runs(o, l, n, s, rounds)
                            && |rounds| >= Enough(count)
        ensures Claims(rounds, n)
      {
        EnoughRounds(s.db, n, count);
        ClaimedInTime(o, l, n, s, rounds);
      }
    } else {
      var s, rounds := SomeoneStarves(o, l, count, Enough(count));
    }
  }

  /** With the default timing and a claim that takes no time, up to nine rows ahead. */
  lemma DefaultsStarveFromTen(o: Options, count: nat)
    requires o.Normal() && o.maxBackoff == 5 * MINUTE
    ensures NobodyStarves(o, Limits(30 * SECOND as int, 5 * SECOND as int), count) <==> count <= 9
  {
    hide NobodyStarves;
    NobodyStarvesIff(o, Limits(30 * SECOND as int, 5 * SECOND as int), count);
  }
}
