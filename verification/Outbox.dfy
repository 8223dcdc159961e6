/** The notification worker of internal/outbox/worker.go: its options, its backoff on 64-bit
    durations and its rounds on the store. */
module Outbox {
  import opened Core
  import opened Database
  import opened Durations
  import opened Protocol
  import opened Storage
  import opened Notifiers
  import opened Eligibility

  const MAX_FAILURE_LENGTH := 4096

  datatype Options = Options(
    pollInterval: Duration, attemptTimeout: Duration,
    initialBackoff: Duration, maxBackoff: Duration, claimTTL: Duration)
  {
    predicate Normal() {
      && pollInterval > 0 && attemptTimeout > 0 && claimTTL > 0
      && 0 < initialBackoff <= maxBackoff
    }
  }

  /** The delay before the attempt after this one, over the unbounded integers. */
  function Delay(o: Options, attempt: int): int {
    Min(o.maxBackoff as int, o.initialBackoff as int * Pow2(if attempt < 1 then 0 else attempt - 1))
  }

  /** Delays are positive, bounded and never shrink; below the cap each is twice the last. */
  lemma DelayGrows(o: Options, a: int, b: int)
    requires o.Normal() && a <= b
    ensures 0 < Delay(o, a) <= Delay(o, b) <= o.maxBackoff as int
    ensures Delay(o, 1) == o.initialBackoff as int
    ensures a >= 1 ==> Delay(o, a + 1) == Min(o.maxBackoff as int, 2 * Delay(o, a))
  {
    var m, n := if a < 1 then 0 else a - 1, if b < 1 then 0 else b - 1;
    Pow2Monotone(0, m);
    Pow2Monotone(m, n);
    MulMonotone(o.initialBackoff as int, 1, Pow2(m));
    MulMonotone(o.initialBackoff as int, Pow2(m), Pow2(n));
    if a >= 1 {
      assert o.initialBackoff as int * Pow2(a) == 2 * (o.initialBackoff as int * Pow2(a - 1));
    }
  }

  /** Whatever the options, the cap is reached by attempt 64. */
  lemma DelaySaturates(o: Options, attempt: int)
    requires o.Normal() && attempt >= 64
    ensures Delay(o, attempt) == o.maxBackoff as int
  {
    Pow2Monotone(63, attempt - 1);
    assert Pow2(63) == 0x8000_0000_0000_0000 by {
      assert Pow2(10) == 1024;
      Pow2Sum(10, 10);
      Pow2Sum(20, 20);
      Pow2Sum(40, 20);
      Pow2Sum(60, 3);
    }
    MulMonotone(Pow2(attempt - 1), 1, o.initialBackoff as int);
  }

  function Truncated(failure: string): string {
    if |failure| > MAX_FAILURE_LENGTH then failure[..MAX_FAILURE_LENGTH] else failure
  }

  lemma DelayAndText(o: Options, attempt: int, failure: string)
    requires attempt >= 1
    ensures Delay(o, attempt) == Min(o.maxBackoff as int, o.initialBackoff as int * Pow2(attempt - 1))
    ensures Truncated(failure) == failure[..Min(4096, |failure|)]
  {
  }

  /** What happens around one round besides the notifier's answers: the UUID drawn, the
      clock when the attempt is over, whether the store answers the claim and the mark,
      and the text of the failure, if there is one. */
  datatype Round = Round(token: Token, later: Time, claims: bool, records: bool, failure: string)

  /** The operations a round performs for the row it claimed. */
  function Operations(now: Time, ttl: Time, round: Round, claimed: Option<Delivery>, delivered: bool, delay: int): Log {
    var claim := OpClaim(if claimed.Some? then Some(claimed.value.id) else None, now, now - ttl, round.token);
    if !round.claims then [] else
    if claimed.None? || !round.records then [claim] else
    [claim, if delivered then OpSucceed(claimed.value, round.later)
     else OpFail(claimed.value, round.later + delay, Truncated(round.failure))]
  }

  /** Once claimed, the row is out of the eligible set and the worker may mark it. */
  lemma ClaimSettles(start: Log, delivery: Delivery, now: Time, ttl: Time, token: Token)
    requires ttl > 0
    requires delivery.id in EligibleRows(Run(start), now, ttl)
    requires Step(Run(start), OpClaim(Some(delivery.id), now, now - ttl, token)).reply
          == Ok(GotDelivery(Some(delivery)))
    ensures var middle := start + [OpClaim(Some(delivery.id), now, now - ttl, token)];
            && delivery in Deliveries(middle)
            && Owns(Run(middle), delivery)
            && EligibleRows(Run(middle), now, ttl) == EligibleRows(Run(start), now, ttl) - {delivery.id}
  {
    Snoc(start, OpClaim(Some(delivery.id), now, now - ttl, token));
    ClaimShrinks(Run(start), delivery.id, now, ttl, token);
  }

  /** Marking a row one owns succeeds and changes nothing about who is eligible. */
  lemma MarkSettles(middle: Log, op: Op, now: Time, ttl: Time)
    requires op.OpSucceed? || (op.OpFail? && op.next > now)
    requires Owns(Run(middle), op.delivery) && op.delivery.id !in EligibleRows(Run(middle), now, ttl)
    ensures Step(Run(middle), op).reply == Ok(Done)
    ensures EligibleRows(Run(middle + [op]), now, ttl) == EligibleRows(Run(middle), now, ttl)
  {
    Snoc(middle, op);
    MarkAddsNone(Run(middle), op, now, ttl);
  }

  /** A round draws no UUID but its own. */
  lemma RoundUses(start: Log, now: Time, ttl: Time, round: Round, claimed: Option<Delivery>, delivered: bool,
                  delay: int)
    ensures Used(start + Operations(now, ttl, round, claimed, delivered, delay)) <= Used(start) + {round.token}
  {
    var more := Operations(now, ttl, round, claimed, delivered, delay);
    hide Run, Step, ValidRun, Used, Deliveries;
    if more == [] {
      assert start + more == start;
    } else {
      Snoc(start, more[0]);
      if |more| == 1 {
        assert more == [more[0]];
      } else {
        assert start + more == start + [more[0]] + [more[1]];
        Snoc(start + [more[0]], more[1]);
      }
    }
  }

  class Worker {
    const store: Store
    const wire: Wire
    const notifier: Notifier
    const options: Options

    ghost predicate Valid()
      reads this, store
    {
      options.Normal() && store.Valid()
    }

    /** Fills in defaults.  Whatever is given, the timing comes out positive and the caps in
        order; normal options are kept as they are. */
    constructor (store: Store, wire: Wire, notifier: Option<Notifier>, given: Options)
      ensures this.store == store && this.wire == wire
      ensures options.Normal()
      ensures given.Normal() ==> options == given
      ensures options.pollInterval == if given.pollInterval > 0 then given.pollInterval else SECOND
      ensures options.attemptTimeout == if given.attemptTimeout > 0 then given.attemptTimeout else 30 * SECOND
      ensures options.initialBackoff == if given.initialBackoff > 0 then given.initialBackoff else SECOND
      ensures options.claimTTL == if given.claimTTL > 0 then given.claimTTL else MINUTE
      ensures given.maxBackoff >= options.initialBackoff ==> options.maxBackoff == given.maxBackoff
      ensures given.maxBackoff <= 0 ==>
                options.maxBackoff == if 5 * MINUTE < options.initialBackoff then options.initialBackoff else 5 * MINUTE
      ensures 0 < given.maxBackoff < options.initialBackoff ==> options.maxBackoff == options.initialBackoff
      ensures Backends(this.notifier) == Configured(notifier)
    {
      this.store, this.wire := store, wire;
      this.notifier := if notifier.None? then Noop else notifier.value;
      var o := given;
      if o.pollInterval <= 0 {
        o := o.(pollInterval := SECOND);
      }
      if o.attemptTimeout <= 0 {
        o := o.(attemptTimeout := 30 * SECOND);
      }
      if o.initialBackoff <= 0 {
        o := o.(initialBackoff := SECOND);
      }
      if o.maxBackoff <= 0 {
        o := o.(maxBackoff := 5 * MINUTE);
      }
      if o.maxBackoff < o.initialBackoff {
        o := o.(maxBackoff := o.initialBackoff);
      }
      if o.claimTTL <= 0 {
        o := o.(claimTTL := MINUTE);
      }
      options := o;
    }

    /** Doubling with an early exit gives the closed form, and no intermediate value
        overflows. */
    method Backoff(attempt: int) returns (delay: Duration)
      requires options.Normal()
      ensures delay as int == Delay(options, attempt)
    {
      delay := options.initialBackoff;
      var i := 1;
      while i < attempt && delay < options.maxBackoff
        invariant 1 <= i && (i <= attempt || i == 1)
        invariant 0 < delay <= options.maxBackoff
        invariant delay as int == options.initialBackoff as int * Pow2(i - 1)
      {
        assert options.initialBackoff as int * Pow2(i) == 2 * delay as int;
        if delay > options.maxBackoff / 2 {
          Pow2Monotone(i, attempt - 1);
          MulMonotone(options.initialBackoff as int, Pow2(i), Pow2(attempt - 1));
          return options.maxBackoff;
        }
        delay := delay * 2;
        i := i + 1;
      }
      if i < attempt {
        Pow2Monotone(i - 1, attempt - 1);
        MulMonotone(options.initialBackoff as int, Pow2(i - 1), Pow2(attempt - 1));
      }
      if delay > options.maxBackoff {
        return options.maxBackoff;
      }
    }

    /** One round: claim, call every backend once, record the result.  A round that worked
        has taken the claimed row, and only it, out of the rows eligible at `now`, however
        the attempt and its record turned out.  The row ends up succeeded, and the
        subscription it was for is gone, if every call was accepted; failed, to be tried again
        after the delay, if some was refused; and in progress if that was not recorded. */
    method ProcessOne(now: Time, round: Round)
      returns (worked: bool, failed: bool, ghost claimed: Option<Delivery>, ghost made: seq<Call>)
      requires Valid() && round.token !in Used(store.log)
      requires now <= round.later
      modifies store, wire
      ensures Valid()
      ensures worked == claimed.Some?
      ensures wire.calls == old(wire.calls) + made
      ensures store.log == old(store.log)
                           + Operations(now, options.claimTTL as int, round, claimed, Refused(made) == [],
                                        if worked then Delay(options, claimed.value.attempts) else 0)
      ensures !worked ==> made == [] && failed == !round.claims
      ensures !worked ==> store.Contents() == old(store.Contents())
      ensures round.claims ==> (worked <==> EligibleRows(old(store.Contents()), now, options.claimTTL as int) != {})
      ensures worked ==>
                && round.claims
                && Step(Run(old(store.log)), store.log[|old(store.log)|]).reply == Ok(GotDelivery(claimed))
                && CallsTo(made, Backends(notifier), claimed.value.snapshot)
                && (failed <==> Refused(made) != [] || !round.records)
                && claimed.value.id in EligibleRows(old(store.Contents()), now, options.claimTTL as int)
                && EligibleRows(store.Contents(), now, options.claimTTL as int)
                   == EligibleRows(old(store.Contents()), now, options.claimTTL as int) - {claimed.value.id}
      ensures worked ==>
                var n := claimed.value.id;
                && n in old(store.outbox) && n in store.outbox
                && store.sticks == old(store.sticks) && store.sessions == old(store.sessions)
                && store.outbox == old(store.outbox)[n := store.outbox[n]]
                && var row := old(store.outbox)[n];
                && claimed.value == Delivery(n, row.snapshot, row.attempts + 1, round.token)
                && var told := forall k | 0 <= k < |made| :: made[k].accepted;
                && (!round.records ==>
                      && store.outbox[n] == Row(row.snapshot, InProgress, row.attempts + 1, row.nextAttemptAt,
                                                Some(round.token), Some(now), Some(now), row.deliveredAt, row.lastError)
                      && store.subscriptions == old(store.subscriptions))
                && (round.records && told ==>
                      && store.outbox[n] == Row(row.snapshot, Succeeded, row.attempts + 1, None, None, None,
                                                Some(now), Some(round.later), row.lastError)
                      && var key := Key(row.snapshot.stickId, row.snapshot.recipientSub);
                      store.subscriptions == if key in old(store.subscriptions)
                                                && old(store.subscriptions)[key].generation == row.snapshot.generation
                      then old(store.subscriptions) - {key} else old(store.subscriptions))
                && (round.records && !told ==>
                      && var cap, first := options.maxBackoff as int, options.initialBackoff as int;
                      && var delay := Min(cap, first * Pow2(row.attempts));
                      && store.outbox[n] == Row(row.snapshot, Failed, row.attempts + 1, Some(round.later + delay), None,
                                                None, Some(now), row.deliveredAt,
                                                Some(round.failure[..Min(4096, |round.failure|)]))
                      && store.subscriptions == old(store.subscriptions))
    {
      hide Run, ValidRun, Used, Deliveries, Truncated, Backends, Delay, Refused, CallsTo, OnePerPath, Pow2, ClaimRow,
        MarkSucceeded, MarkFailed;
      claimed, made := None, [];
      if !round.claims {
        return false, true, claimed, made;
      }
      ghost var start, ttl := store.log, options.claimTTL as int;
      var delivery := store.ClaimNotification(now, now - options.claimTTL as int, round.token);
      claimed := delivery;
      assert store.log[..|start|] == start;
      if delivery.None? {
        Snoc(start, store.log[|start|]);
        return false, false, claimed, made;
      }
      ghost var middle := store.log;
      ClaimSettles(start, delivery.value, now, ttl, round.token);
      hide Step, EligibleRows, Owns, Eligible;
      var refused;
      refused, made := Notify(notifier, delivery.value.snapshot, wire);
      NoneRefused(made);
      if !round.records {
        return true, true, claimed, made;
      }
      if refused == [] {
        ghost var op := OpSucceed(delivery.value, round.later);
        var marked := store.MarkNotificationSucceeded(delivery.value, round.later);
        MarkSettles(middle, op, now, ttl);
        return true, marked.Err?, claimed, made;
      }
      var delay := Backoff(delivery.value.attempts);
      DelayAndText(options, delivery.value.attempts, round.failure);
      DelayGrows(options, delivery.value.attempts, delivery.value.attempts);
      ghost var op := OpFail(delivery.value, round.later + delay as int, Truncated(round.failure));
      var marked := store.MarkNotificationFailed(delivery.value, round.later + delay as int, Truncated(round.failure));
      MarkSettles(middle, op, now, ttl);
      return true, true, claimed, made;
    }

    /** The loop of Run from a wake-up to its idle wait, or until the context is cancelled
        when `rounds` are over, with the clock standing at `now`.  It goes through exactly
        one round for each eligible row: it neither stops short nor spins. */
    method RunUntilIdle(now: Time, rounds: seq<Round>) returns (count: nat, idle: bool)
      requires Valid()
      requires forall k | 0 <= k < |rounds| :: rounds[k].later == now && rounds[k].token !in Used(store.log)
      requires forall j, k | 0 <= j < k < |rounds| :: rounds[j].token != rounds[k].token
      modifies store, wire
      ensures Valid()
      ensures |EligibleRows(store.Contents(), now, options.claimTTL as int)|
           == |EligibleRows(old(store.Contents()), now, options.claimTTL as int)| - count
      ensures count <= |rounds| && (idle <==> count < |rounds|)
      ensures forall k | 0 <= k < count :: rounds[k].claims
      ensures idle && rounds[count].claims ==> EligibleRows(store.Contents(), now, options.claimTTL as int) == {}
      ensures (forall k | 0 <= k < |rounds| :: rounds[k].claims) ==>
                count == Min(|rounds|, |EligibleRows(old(store.Contents()), now, options.claimTTL as int)|)
    {
      hide EligibleRows, ValidRun, Run, Step, Used, Operations, Delay, Refused, CallsTo, Backends, ReplyAt, DeliveryOf;
      ghost var ttl, first := options.claimTTL as int, EligibleRows(store.Contents(), now, options.claimTTL as int);
      count := 0;
      while count < |rounds|
        invariant Valid() && count <= |rounds|
        invariant forall k | count <= k < |rounds| :: rounds[k].token !in Used(store.log)
        invariant |EligibleRows(store.Contents(), now, ttl)| == |first| - count
        invariant forall k | 0 <= k < count :: rounds[k].claims
      {
        ghost var start := store.log;
        var worked, failed; ghost var claimed, made;
        worked, failed, claimed, made := ProcessOne(now, rounds[count]);
        if !worked {
          return count, true;
        }
        RoundUses(start, now, ttl, rounds[count], claimed, Refused(made) == [], Delay(options, claimed.value.attempts));
        count := count + 1;
      }
      idle := false;
    }
  }
}
