/** Claims as leases.  Workers on one clock claim a row, call the notifier under the attempt
    timeout and record the result under the result timeout; any of them may crash.
    NewWorker does not relate these timeouts to the claim's time to live, so whether a
    lease protects its holder is a condition on the options, found here exactly. */
module Lease {
  import opened Core
  import opened Database

  type Id = nat

  /** `latency` bounds the time from reading the clock for a claim to calling Notify. */
  datatype Options = Options(latency: nat, attemptTimeout: nat, resultTimeout: nat, claimTTL: nat)

  datatype Phase =
    | Idle
    | Claiming(now: Time)
    | Notifying(delivery: Delivery, now: Time, since: Time)
    | Marking(delivery: Delivery, now: Time, since: Time)

  datatype Sys = Sys(clock: Time, db: Tables, workers: map<Id, Phase>, drawn: set<Token>)

  datatype Action =
    | Tick(delta: nat)
    | ReadClock(worker: Id)
    | TakeRow(worker: Id, row: nat, token: Token)
    | Return(worker: Id)
    | Succeed(worker: Id)
    | Fail(worker: Id, next: Time)
    | Stop(worker: Id)
    | Clients(sticks: map<string, Stick>, sessions: map<nat, Session>, subscriptions: map<Key, Subscription>,
              rows: map<nat, Row>)

  /** The latest instant a worker can still be in this phase. */
  function Deadline(o: Options, phase: Phase): Option<Time> {
    match phase
    case Idle => None
    case Claiming(now) => Some(now + o.latency)
    case Notifying(_, _, since) => Some(since + o.attemptTimeout)
    case Marking(_, _, since) => Some(since + o.resultTimeout)
  }

  function PhaseOf(s: Sys, w: Id): Phase {
    if w in s.workers then s.workers[w] else Idle
  }

  function Become(s: Sys, w: Id, phase: Phase): Sys {
    s.(workers := s.workers[w := phase])
  }

  predicate CanWait(o: Options, s: Sys, delta: nat) {
    forall w | w in s.workers ::
      var deadline := Deadline(o, s.workers[w]);
      deadline.None? || s.clock + delta <= deadline.value
  }

  /** A mark that finds its claim gone changes nothing; the worker goes on all the same. */
  function Record(s: Sys, w: Id, result: Result<Tables>): Sys {
    Become(if result.Ok? then s.(db := result.value) else s, w, Idle)
  }

  predicate Unclaimed(rows: map<nat, Row>) {
    forall n | n in rows :: rows[n].claimToken.None?
  }

  /** `Clients` stands for anything the service does meanwhile: it may rewrite the other three
      tables and add outbox rows nobody has claimed. */
  function Do(o: Options, s: Sys, act: Action): Option<Sys> {
    match act
    case Tick(delta) => if CanWait(o, s, delta) then Some(s.(clock := s.clock + delta)) else None
    case ReadClock(w) => if PhaseOf(s, w).Idle? then Some(Become(s, w, Claiming(s.clock))) else None
    case TakeRow(w, n, token) =>
      if !PhaseOf(s, w).Claiming? || token in s.drawn then None else
      var now := s.workers[w].now;
      (match ClaimRow(s.db, n, now, now - o.claimTTL, token)
       case Err(_) => None
       case Ok((db, delivery)) =>
         Some(Become(s.(db := db, drawn := s.drawn + {token}), w, Notifying(delivery, now, s.clock))))
    case Return(w) =>
      (match PhaseOf(s, w)
       case Notifying(delivery, now, _) => Some(Become(s, w, Marking(delivery, now, s.clock)))
       case _ => None)
    case Succeed(w) =>
      (match PhaseOf(s, w)
       case Marking(delivery, _, _) => Some(Record(s, w, MarkSucceeded(s.db, delivery, s.clock)))
       case _ => None)
    case Fail(w, next) =>
      (match PhaseOf(s, w)
       case Marking(delivery, _, _) => Some(Record(s, w, MarkFailed(s.db, delivery, next, "")))
       case _ => None)
    case Stop(w) => Some(Become(s, w, Idle))
    case Clients(sticks, sessions, subscriptions, rows) =>
      if rows.Keys !! s.db.outbox.Keys && Unclaimed(rows) then
        Some(s.(db := Tables(sticks, sessions, subscriptions, s.db.outbox + rows)))
      else None
  }

  function Exec(o: Options, start: Sys, acts: seq<Action>): Option<Sys> {
    if acts == [] then Some(start) else
    match Exec(o, start, acts[..|acts| - 1])
    case Some(s) => Do(o, s, acts[|acts| - 1])
    case None => None
  }

  /** Any clock and any tables to start with, but no worker running yet. */
  predicate Initial(s: Sys) {
    s.workers == map[]
  }

  /** The worker still owns its row, under the time stamp it took for the claim. */
  predicate Holds(s: Sys, delivery: Delivery, now: Time) {
    Owns(s.db, delivery) && s.db.outbox[delivery.id].claimedAt == Some(now)
  }

  predicate Busy(phase: Phase) {
    phase.Notifying? || phase.Marking?
  }

  /** What the timeouts alone give: the clock is still within the worker's deadlines. */
  ghost predicate OnTime(o: Options, s: Sys, phase: Phase) {
    match phase
    case Idle => true
    case Claiming(now) => now <= s.clock <= now + o.latency
    case Notifying(_, now, since) => since <= now + o.latency && s.clock <= since + o.attemptTimeout
    case Marking(_, now, since) => since <= now + o.latency + o.attemptTimeout && s.clock <= since + o.resultTimeout
  }

  ghost predicate Timely(o: Options, s: Sys) {
    forall w | w in s.workers :: OnTime(o, s, s.workers[w])
  }

  ghost predicate TokensFresh(s: Sys) {
    && (forall w | w in s.workers && Busy(s.workers[w]) :: s.workers[w].delivery.claimToken in s.drawn)
    && (forall v, w | v in s.workers && w in s.workers && v != w && Busy(s.workers[v]) && Busy(s.workers[w]) ::
          s.workers[v].delivery.claimToken != s.workers[w].delivery.claimToken)
  }

  /** Workers in these phases own their rows. */
  ghost predicate Leased(s: Sys, marksToo: bool) {
    forall w | w in s.workers && (s.workers[w].Notifying? || (marksToo && s.workers[w].Marking?)) ::
      Holds(s, s.workers[w].delivery, s.workers[w].now)
  }

  ghost predicate Inv(o: Options, s: Sys, marksToo: bool) {
    Timely(o, s) && TokensFresh(s) && Leased(s, marksToo)
  }

  /** How long the phases in question can last, counted from the claim's time stamp. */
  function Span(o: Options, marksToo: bool): nat {
    o.latency + o.attemptTimeout + if marksToo then o.resultTimeout else 0
  }

  lemma TimelyAt(o: Options, s: Sys, w: Id)
    requires Timely(o, s) && w in s.workers
    ensures OnTime(o, s, s.workers[w])
  {
  }

  lemma StepKeepsTime(o: Options, s: Sys, act: Action)
    requires Timely(o, s) && Do(o, s, act).Some?
    ensures Timely(o, Do(o, s, act).value)
  {
    hide ClaimRow, MarkSucceeded, MarkFailed;
  }

  lemma StepKeepsTokens(o: Options, s: Sys, act: Action)
    requires TokensFresh(s) && Do(o, s, act).Some?
    ensures TokensFresh(Do(o, s, act).value)
  {
    hide MarkSucceeded, MarkFailed, CanWait, Unclaimed;
  }

  lemma StepKeepsLeases(o: Options, s: Sys, act: Action, marksToo: bool)
    requires Span(o, marksToo) < o.claimTTL
    requires Inv(o, s, marksToo) && Do(o, s, act).Some?
    ensures Inv(o, Do(o, s, act).value, marksToo)
  {
    var t := Do(o, s, act).value;
    StepKeepsTime(o, s, act);
    StepKeepsTokens(o, s, act);
    hide Timely, TokensFresh, Do;
    forall w | w in t.workers && (t.workers[w].Notifying? || (marksToo && t.workers[w].Marking?))
      ensures Holds(t, t.workers[w].delivery, t.workers[w].now)
    {
      if w in s.workers && s.workers[w] == t.workers[w] {
        StepSparesLease(o, s, act, marksToo, w);
      } else {
        StepTakesLease(o, s, act, marksToo, w);
      }
    }
  }

  /** A worker that does not act keeps its row: nobody else can claim or mark it in time. */
  lemma StepSparesLease(o: Options, s: Sys, act: Action, marksToo: bool, w: Id)
    requires Span(o, marksToo) < o.claimTTL
    requires Inv(o, s, marksToo) && Do(o, s, act).Some?
    requires w in s.workers && (s.workers[w].Notifying? || (marksToo && s.workers[w].Marking?))
    requires w in Do(o, s, act).value.workers && Do(o, s, act).value.workers[w] == s.workers[w]
    ensures Holds(Do(o, s, act).value, s.workers[w].delivery, s.workers[w].now)
  {
    assert Holds(s, s.workers[w].delivery, s.workers[w].now);
    assert OnTime(o, s, s.workers[w]) by {
      TimelyAt(o, s, w);
    }
    hide Timely, CanWait, Leased;
  }

  /** A worker that acts has just claimed its row or still holds it. */
  lemma StepTakesLease(o: Options, s: Sys, act: Action, marksToo: bool, w: Id)
    requires Inv(o, s, marksToo) && Do(o, s, act).Some?
    requires var t := Do(o, s, act).value;
             && w in t.workers && (t.workers[w].Notifying? || (marksToo && t.workers[w].Marking?))
             && !(w in s.workers && s.workers[w] == t.workers[w])
    ensures var t := Do(o, s, act).value;
            Holds(t, t.workers[w].delivery, t.workers[w].now)
  {
    hide Timely, TokensFresh, CanWait, Unclaimed;
  }

  lemma {:induction false} LeasesKept(o: Options, start: Sys, acts: seq<Action>, marksToo: bool)
    requires Span(o, marksToo) < o.claimTTL
    requires Initial(start) && Exec(o, start, acts).Some?
    ensures Inv(o, Exec(o, start, acts).value, marksToo)
  {
    if acts != [] {
      LeasesKept(o, start, acts[..|acts| - 1], marksToo);
      StepKeepsLeases(o, Exec(o, start, acts[..|acts| - 1]).value, acts[|acts| - 1], marksToo);
    }
  }

  /** No two workers are notifying for the same row. */
  predicate Exclusive(s: Sys) {
    forall v, w | v in s.workers && w in s.workers && v != w && s.workers[v].Notifying? && s.workers[w].Notifying? ::
      s.workers[v].delivery.id != s.workers[w].delivery.id
  }

  /** No mark that is about to be made would get ErrClaimLost. */
  predicate NoneLost(s: Sys) {
    forall w | w in s.workers && s.workers[w].Marking? :: Owns(s.db, s.workers[w].delivery)
  }

  ghost predicate AlwaysExclusive(o: Options) {
    forall start, acts | Initial(start) && Exec(o, start, acts).Some? :: Exclusive(Exec(o, start, acts).value)
  }

  ghost predicate NeverLost(o: Options) {
    forall start, acts | Initial(start) && Exec(o, start, acts).Some? :: NoneLost(Exec(o, start, acts).value)
  }

  // ---- when the condition fails, a run that shows it ----

  const SNAPSHOT := Snapshot("s", "a", "n", "e", 0, 0, "u", "n", "e", "g")
  const START := Sys(0, EMPTY.(outbox := map[0 := NewRow(SNAPSHOT, 0)]), map[], {})

  /** Worker 0 claims after the whole latency; at `until` worker 1 claims the same row. */
  function TwoClaims(o: Options, until: nat): seq<Action>
    requires o.latency <= until
  {
    [ReadClock(0), Tick(o.latency), TakeRow(0, 0, "x"), Tick(until - o.latency), ReadClock(1), TakeRow(1, 0, "y")]
  }

  /** The same with worker 0 back from Notify before the second claim. */
  function ClaimBehindBack(o: Options, until: nat): seq<Action>
    requires o.latency + o.attemptTimeout <= until
  {
    [ReadClock(0), Tick(o.latency), TakeRow(0, 0, "x"), Tick(o.attemptTimeout), Return(0),
     Tick(until - o.latency - o.attemptTimeout), ReadClock(1), TakeRow(1, 0, "y")]
  }

  lemma ExecSnoc(o: Options, start: Sys, acts: seq<Action>, act: Action)
    requires Exec(o, start, acts).Some?
    ensures Exec(o, start, acts + [act]) == Do(o, Exec(o, start, acts).value, act)
  {
    assert (acts + [act])[..|acts|] == acts;
  }

  function FirstDelivery(): Delivery {
    Delivery(0, SNAPSHOT, 1, "x")
  }

  function FirstClaimed(): Row {
    ClaimedRow(NewRow(SNAPSHOT, 0), 0, "x")
  }

  /** Worker 0 has claimed the only row, at time 0, and is calling Notify. */
  function FirstNotifying(o: Options): Sys {
    Sys(o.latency, EMPTY.(outbox := map[0 := FirstClaimed()]), map[0 := Notifying(FirstDelivery(), 0, o.latency)],
        {"x"})
  }

  lemma FirstTake(o: Options)
    ensures Do(o, Sys(o.latency, START.db, map[0 := Claiming(0)], {}), TakeRow(0, 0, "x")) == Some(FirstNotifying(o))
  {
    assert START.db.outbox[0 := FirstClaimed()] == map[0 := FirstClaimed()];
    var none: set<Token> := {};
    assert none + {"x"} == {"x"};
    assert map[0 := Claiming(0)][0 := Notifying(FirstDelivery(), 0, o.latency)]
        == map[0 := Notifying(FirstDelivery(), 0, o.latency)];
  }

  lemma FirstClaim(o: Options)
    ensures Exec(o, START, [ReadClock(0), Tick(o.latency), TakeRow(0, 0, "x")]) == Some(FirstNotifying(o))
  {
    var a0, a1, a2 := ReadClock(0), Tick(o.latency), TakeRow(0, 0, "x");
    assert Exec(o, START, []) == Some(START);
    FirstTake(o);
    hide Exec, ClaimRow;
    ExecSnoc(o, START, [], a0);
    assert [] + [a0] == [a0];
    ExecSnoc(o, START, [a0], a1);
    assert [a0] + [a1] == [a0, a1];
    ExecSnoc(o, START, [a0, a1], a2);
    assert [a0, a1] + [a2] == [a0, a1, a2];
  }

  lemma OverlapRun(o: Options, until: nat)
    requires o.latency <= until <= o.latency + o.attemptTimeout && o.claimTTL <= until
    ensures Exec(o, START, TwoClaims(o, until)).Some?
    ensures !Exclusive(Exec(o, START, TwoClaims(o, until)).value)
  {
    var acts := [ReadClock(0), Tick(o.latency), TakeRow(0, 0, "x")];
    FirstClaim(o);
    hide Exec;
    var s3 := Exec(o, START, acts).value;
    var a3, a4, a5 := Tick(until - o.latency), ReadClock(1), TakeRow(1, 0, "y");
    ExecSnoc(o, START, acts, a3);
    ExecSnoc(o, START, acts + [a3], a4);
    ExecSnoc(o, START, acts + [a3] + [a4], a5);
    assert acts + [a3] + [a4] + [a5] == TwoClaims(o, until);
    assert Exec(o, START, acts + [a3]) == Some(s3.(clock := until));
    SecondClaim(o, until, s3);
    hide Do, Exclusive;
  }

  /** Worker 1 claims the row while worker 0 is still calling Notify. */
  lemma SecondClaim(o: Options, until: nat, s: Sys)
    requires s == FirstNotifying(o) && o.claimTTL <= until
    ensures var later := Do(o, s.(clock := until), ReadClock(1));
            && later.Some? && Do(o, later.value, TakeRow(1, 0, "y")).Some?
            && !Exclusive(Do(o, later.value, TakeRow(1, 0, "y")).value)
  {
    var t := Do(o, Do(o, s.(clock := until), ReadClock(1)).value, TakeRow(1, 0, "y")).value;
    assert t.workers[0].Notifying? && t.workers[1].Notifying? && t.workers[0].delivery.id == t.workers[1].delivery.id;
  }

  /** Worker 1 takes the row away while worker 0, back from Notify, has yet to mark it. */
  lemma TakenAway(o: Options, until: nat, phase: Phase)
    requires phase == Marking(FirstDelivery(), 0, o.latency + o.attemptTimeout) && o.claimTTL <= until
    ensures var s := Sys(until, FirstNotifying(o).db, map[0 := phase, 1 := Claiming(until)], {"x"});
            Do(o, s, TakeRow(1, 0, "y")).Some? && !NoneLost(Do(o, s, TakeRow(1, 0, "y")).value)
  {
    var t := Do(o, Sys(until, FirstNotifying(o).db, map[0 := phase, 1 := Claiming(until)], {"x"}), TakeRow(1, 0, "y"));
    assert t.value.workers[0].Marking? && !Owns(t.value.db, t.value.workers[0].delivery);
  }

  /** Worker 0 is back from Notify. */
  function FirstMarking(o: Options): Sys {
    FirstNotifying(o).(clock := o.latency + o.attemptTimeout,
    workers := map[0 := Marking(FirstDelivery(), 0, o.latency + o.attemptTimeout)])
  }

  lemma Returned(o: Options)
    ensures Exec(o, START, [ReadClock(0), Tick(o.latency), TakeRow(0, 0, "x"), Tick(o.attemptTimeout), Return(0)])
         == Some(FirstMarking(o))
  {
    var acts := [ReadClock(0), Tick(o.latency), TakeRow(0, 0, "x")];
    FirstClaim(o);
    assert FirstNotifying(o).workers[0 := FirstMarking(o).workers[0]] == FirstMarking(o).workers;
    hide Exec;
    ExecSnoc(o, START, acts, Tick(o.attemptTimeout));
    ExecSnoc(o, START, acts + [Tick(o.attemptTimeout)], Return(0));
    assert acts + [Tick(o.attemptTimeout)] + [Return(0)]
        == [ReadClock(0), Tick(o.latency), TakeRow(0, 0, "x"), Tick(o.attemptTimeout), Return(0)];
  }

  lemma Waited(o: Options, until: nat)
    requires o.latency + o.attemptTimeout <= until <= o.latency + o.attemptTimeout + o.resultTimeout
    ensures Exec(o, START, [ReadClock(0), Tick(o.latency), TakeRow(0, 0, "x"), Tick(o.attemptTimeout), Return(0),
                            Tick(until - o.latency - o.attemptTimeout)])
         == Some(FirstMarking(o).(clock := until))
  {
    var acts := [ReadClock(0), Tick(o.latency), TakeRow(0, 0, "x"), Tick(o.attemptTimeout), Return(0)];
    Returned(o);
    hide Exec;
    ExecSnoc(o, START, acts, Tick(until - o.latency - o.attemptTimeout));
    assert acts + [Tick(until - o.latency - o.attemptTimeout)]
        == [ReadClock(0), Tick(o.latency), TakeRow(0, 0, "x"), Tick(o.attemptTimeout), Return(0),
            Tick(until - o.latency - o.attemptTimeout)];
  }

  lemma LostRun(o: Options, until: nat)
    requires o.latency + o.attemptTimeout <= until <= o.latency + o.attemptTimeout + o.resultTimeout
             && o.claimTTL <= until
    ensures Exec(o, START, ClaimBehindBack(o, until)).Some?
    ensures !NoneLost(Exec(o, START, ClaimBehindBack(o, until)).value)
  {
    var acts := [ReadClock(0), Tick(o.latency), TakeRow(0, 0, "x"), Tick(o.attemptTimeout), Return(0),
                 Tick(until - o.latency - o.attemptTimeout)];
    Waited(o, until);
    TakenAway(o, until, FirstMarking(o).workers[0]);
    hide Exec, ClaimRow, NoneLost;
    ExecSnoc(o, START, acts, ReadClock(1));
    ExecSnoc(o, START, acts + [ReadClock(1)], TakeRow(1, 0, "y"));
    assert FirstMarking(o).workers[1 := Claiming(until)] == map[0 := FirstMarking(o).workers[0], 1 := Claiming(until)];
    assert acts + [ReadClock(1)] + [TakeRow(1, 0, "y")] == ClaimBehindBack(o, until);
  }

  /** Notifying is exclusive in every run if and only if claim latency and attempt timeout
      together stay below the claim's time to live. */
  lemma ExclusionIff(o: Options)
    ensures AlwaysExclusive(o) <==> o.latency + o.attemptTimeout < o.claimTTL
  {
    if o.latency + o.attemptTimeout < o.claimTTL {
      forall start, acts | Initial(start) && Exec(o, start, acts).Some?
        ensures Exclusive(Exec(o, start, acts).value)
      {
        LeasesKept(o, start, acts, false);
      }
    } else {
      var until := Max(o.latency, o.claimTTL);
      OverlapRun(o, until);
      assert Initial(START);
    }
  }

  /** No mark ever returns ErrClaimLost, in any run, if and only if latency, attempt timeout
      and result timeout together stay below the claim's time to live. */
  lemma NoClaimLostIff(o: Options)
    ensures NeverLost(o) <==> o.latency + o.attemptTimeout + o.resultTimeout < o.claimTTL
  {
    if o.latency + o.attemptTimeout + o.resultTimeout < o.claimTTL {
      forall start, acts | Initial(start) && Exec(o, start, acts).Some?
        ensures NoneLost(Exec(o, start, acts).value)
      {
        LeasesKept(o, start, acts, true);
      }
    } else {
      var until := Max(o.latency + o.attemptTimeout, o.claimTTL);
      LostRun(o, until);
      assert Initial(START);
    }
  }

  const SECOND := 1_000_000_000

  /** With the default timing, both hold exactly while a claim takes less than 25 seconds
      (and notifying alone is exclusive below 30). */
  lemma DefaultsAreSafe(latency: nat)
    ensures var o := Options(latency, 30 * SECOND, 5 * SECOND, 60 * SECOND);
            (NeverLost(o) <==> latency < 25 * SECOND) && (AlwaysExclusive(o) <==> latency < 30 * SECOND)
  {
    var o := Options(latency, 30 * SECOND, 5 * SECOND, 60 * SECOND);
    ExclusionIff(o);
    NoClaimLostIff(o);
  }
}
