/** Lazy discovery of the OpenID provider (providerConfig in internal/web/auth/handler.go): a
    mutex, a channel that waiters block on, and a backoff after failures. */
module Discovery {
  import opened Core
  import opened Durations

  type Id = nat
  type Channel = nat
  type Provider = nat
  type Failure = string

  const MAX_FAILURE_BACKOFF: Duration := 30 * SECOND

  function NextBackoff(current: Duration, initial: Duration): Duration {
    if current <= 0 then
      if initial > MAX_FAILURE_BACKOFF then MAX_FAILURE_BACKOFF else initial
    else if current >= MAX_FAILURE_BACKOFF / 2 then MAX_FAILURE_BACKOFF
    else current * 2
  }

  /** The backoff after `k` failures in a row, in closed form. */
  function Pause(initial: Duration, k: nat): int {
    if k == 0 then 0 else
    if initial < 0 then initial as int else
    Min(MAX_FAILURE_BACKOFF as int, initial as int * Pow2(k - 1))
  }

  /** Repeated NextBackoff follows the closed form, with no overflow on the way. */
  lemma BackoffStep(initial: Duration, k: nat, current: Duration)
    requires current as int == Pause(initial, k)
    ensures NextBackoff(current, initial) as int == Pause(initial, k + 1)
  {
    if k > 0 && initial >= 0 {
      Pow2Monotone(0, k - 1);
      if initial > 0 {
        MulMonotone(initial as int, 1, Pow2(k - 1));
      }
      assert initial as int * Pow2(k) == 2 * (initial as int * Pow2(k - 1));
    }
  }

  /** What the mutex protects, and the channels closed so far. */
  datatype Shared = Shared(
    provider: Option<Provider>, done: Option<Channel>, lastErr: Option<Failure>,
    failureBackoff: Duration, retryAt: Time, closed: set<Channel>)

  const UNDISCOVERED := Shared(None, None, None, 0, 0, {})

  datatype Answer = Got(provider: Provider) | Refused(failure: Failure) | Cancelled

  /** Where a caller of providerConfig is. */
  datatype Phase = Entering | Waiting(channel: Channel) | Discovering(channel: Channel) | Returned(answer: Answer)

  /** The first critical section; `next` is the channel a new discovery would make. */
  function Enter(h: Shared, now: Time, next: Channel): (Shared, Phase) {
    if h.provider.Some? then (h, Returned(Got(h.provider.value))) else
    if h.lastErr.Some? && now < h.retryAt then (h, Returned(Refused(h.lastErr.value))) else
    if h.done.Some? then (h, Waiting(h.done.value)) else
    (h.(done := Some(next)), Discovering(next))
  }

  /** What a discovery comes back with. */
  datatype Discovered = Found(provider: Provider) | NotFound(failure: Failure)

  /** The second critical section, which ends with closing the channel. */
  function Finish(h: Shared, initial: Duration, channel: Channel, result: Discovered, now: Time): (Shared, Phase) {
    match result
    case Found(provider) =>
      (Shared(Some(provider), None, None, 0, 0, h.closed + {channel}), Returned(Got(provider)))
    case NotFound(failure) =>
      var backoff := NextBackoff(h.failureBackoff, initial);
      (Shared(h.provider, None, Some(failure), backoff, now + backoff as int, h.closed + {channel}),
       Returned(Refused(failure)))
  }

  /** The mutable handler and the channels closed so far.  Both methods run under its mutex;
      SharedHandler.Callers calls them. */
  class Handler {
    var provider: Option<Provider>
    var discoveryDone: Option<Channel>
    var lastDiscoveryErr: Option<Failure>
    var retryDiscoveryAt: Time
    var failureBackoff: Duration
    const initialBackoff: Duration
    var closed: set<Channel>

    function Contents(): Shared
      reads this
    {
      Shared(provider, discoveryDone, lastDiscoveryErr, failureBackoff, retryDiscoveryAt, closed)
    }

    constructor (initialBackoff: Duration)
      ensures Contents() == UNDISCOVERED && this.initialBackoff == initialBackoff
    {
      provider, discoveryDone, lastDiscoveryErr := None, None, None;
      retryDiscoveryAt, failureBackoff, closed := 0, 0, {};
      this.initialBackoff := initialBackoff;
    }

    method BeginDiscovery(now: Time, next: Channel) returns (phase: Phase)
      modifies this
      ensures (Contents(), phase) == Enter(old(Contents()), now, next)
    {
      if provider.Some? {
        return Returned(Got(provider.value));
      }
      if lastDiscoveryErr.Some? && now < retryDiscoveryAt {
        return Returned(Refused(lastDiscoveryErr.value));
      }
      if discoveryDone.Some? {
        return Waiting(discoveryDone.value);
      }
      discoveryDone := Some(next);
      phase := Discovering(next);
    }

    method EndDiscovery(channel: Channel, result: Discovered, now: Time) returns (phase: Phase)
      modifies this
      ensures (Contents(), phase) == Finish(old(Contents()), initialBackoff, channel, result, now)
    {
      match result {
        case Found(found) =>
          provider, lastDiscoveryErr := Some(found), None;
          retryDiscoveryAt, failureBackoff := 0, 0;
          phase := Returned(Got(found));
        case NotFound(failure) =>
          lastDiscoveryErr := Some(failure);
          failureBackoff := NextBackoff(failureBackoff, initialBackoff);
          retryDiscoveryAt := now + failureBackoff as int;
          phase := Returned(Refused(failure));
      }
      discoveryDone := None;
      closed := closed + {channel};
    }
  }

  // ---- any number of callers ----

  datatype Event = Started(at: Time) | Failed(at: Time, failure: Failure) | Succeeded(provider: Provider)

  datatype Sys = Sys(clock: Time, h: Shared, callers: map<Id, Phase>, next: Channel, events: seq<Event>)

  function Start(clock: Time): Sys {
    Sys(clock, UNDISCOVERED, map[], 0, [])
  }

  /** `Lock` and `Complete` are the critical sections; a cancelled context frees a waiter. */
  datatype Action =
    | Tick(delta: nat)
    | Call(caller: Id)
    | Lock(caller: Id)
    | Wake(caller: Id)
    | Cancel(caller: Id)
    | Complete(caller: Id, result: Discovered)

  predicate Enabled(s: Sys, act: Action) {
    match act
    case Tick(_) => true
    case Call(c) => c !in s.callers
    case Lock(c) => c in s.callers && s.callers[c].Entering?
    case Wake(c) => c in s.callers && s.callers[c].Waiting? && s.callers[c].channel in s.h.closed
    case Cancel(c) => c in s.callers && s.callers[c].Waiting?
    case Complete(c, _) => c in s.callers && s.callers[c].Discovering?
  }

  function Do(initial: Duration, s: Sys, act: Action): Sys
    requires Enabled(s, act)
  {
    match act
    case Tick(delta) => s.(clock := s.clock + delta)
    case Call(c) => s.(callers := s.callers[c := Entering])
    case Lock(c) =>
      var (h, phase) := Enter(s.h, s.clock, s.next);
      if phase.Discovering? then Sys(s.clock, h, s.callers[c := phase], s.next + 1, s.events + [Started(s.clock)])
      else s.(callers := s.callers[c := phase])
    case Wake(c) => s.(callers := s.callers[c := Entering])
    case Cancel(c) => s.(callers := s.callers[c := Returned(Cancelled)])
    case Complete(c, result) =>
      var (h, phase) := Finish(s.h, initial, s.callers[c].channel, result, s.clock);
      Sys(s.clock, h, s.callers[c := phase], s.next,
          s.events + [if result.Found? then Succeeded(result.provider) else Failed(s.clock, result.failure)])
  }

  function Exec(initial: Duration, clock: Time, acts: seq<Action>): Option<Sys> {
    if acts == [] then Some(Start(clock)) else
    match Exec(initial, clock, acts[..|acts| - 1])
    case None => None
    case Some(s) =>
      if Enabled(s, acts[|acts| - 1]) then Some(Do(initial, s, acts[|acts| - 1])) else None
  }

  function Failures(events: seq<Event>): nat {
    if events == [] then 0 else
    Failures(events[..|events| - 1]) + if events[|events| - 1].Failed? then 1 else 0
  }

  /** Whether an event may follow these: a discovery starts first of all, or after a failure
      and its pause; what ends is what was started last. */
  predicate MayFollow(initial: Duration, events: seq<Event>, event: Event) {
    match event
    case Started(at) =>
      events == [] || (Last(events).Failed? && at >= Last(events).at + Pause(initial, Failures(events)))
    case _ => events != [] && Last(events).Started?
  }

  function Last(events: seq<Event>): Event
    requires events != []
  {
    events[|events| - 1]
  }

  predicate Paced(initial: Duration, events: seq<Event>) {
    events == [] || (Paced(initial, events[..|events| - 1]) && MayFollow(initial, events[..|events| - 1], Last(events)))
  }

  predicate SingleFlight(s: Sys) {
    forall c, d | c in s.callers && d in s.callers && s.callers[c].Discovering? && s.callers[d].Discovering? :: c == d
  }

  /** A waiter's channel is closed, or a caller that is still discovering will close it. */
  ghost predicate NoLostWakeUp(s: Sys) {
    forall c | c in s.callers && s.callers[c].Waiting? ::
      s.callers[c].channel in s.h.closed
      || exists d :: d in s.callers && s.callers[d] == Discovering(s.callers[c].channel)
  }

  predicate SameProvider(s: Sys) {
    forall c | c in s.callers && s.callers[c].Returned? && s.callers[c].answer.Got? ::
      s.h.provider == Some(s.callers[c].answer.provider)
  }

  ghost predicate HasFailed(events: seq<Event>, failure: Failure) {
    exists i :: 0 <= i < |events| && events[i].Failed? && events[i].failure == failure
  }

  /** Whoever is refused is given the error of a discovery that did fail. */
  ghost predicate HonestRefusals(s: Sys) {
    forall c | c in s.callers && s.callers[c].Returned? && s.callers[c].answer.Refused? ::
      HasFailed(s.events, s.callers[c].answer.failure)
  }

  predicate ChannelsOk(s: Sys) {
    && (forall ch | ch in s.h.closed :: ch < s.next)
    && (s.h.done.Some? ==> s.h.done.value < s.next && s.h.done.value !in s.h.closed)
  }

  ghost predicate CallersOk(s: Sys) {
    && (forall c | c in s.callers && s.callers[c].Discovering? :: s.h.done == Some(s.callers[c].channel))
    && (forall c | c in s.callers && s.callers[c].Waiting? ::
          s.callers[c].channel in s.h.closed || s.h.done == Some(s.callers[c].channel))
    && (s.h.done.Some? ==> exists d :: d in s.callers && s.callers[d] == Discovering(s.h.done.value))
  }

  /** The handler's fields are those of a handler that went through these events. */
  ghost predicate FieldsOk(initial: Duration, s: Sys) {
    var e, h := s.events, s.h;
    var k := Failures(e);
    var settled := h.failureBackoff as int == Pause(initial, k);
    if e == [] then h == UNDISCOVERED else
    match e[|e| - 1]
    case Started(_) =>
      && h.done.Some? && h.provider.None? && settled
      && (if |e| == 1 then h.lastErr.None?
          else e[|e| - 2].Failed? && h.lastErr == Some(e[|e| - 2].failure) && h.retryAt <= s.clock)
    case Failed(at, failure) =>
      h.done.None? && h.provider.None? && h.lastErr == Some(failure) && settled && h.retryAt == at + Pause(initial, k)
    case Succeeded(provider) => h.done.None? && h.provider == Some(provider)
  }

  ghost predicate Inv(initial: Duration, s: Sys) {
    && SingleFlight(s) && SameProvider(s) && HonestRefusals(s) && ChannelsOk(s) && CallersOk(s)
    && Paced(initial, s.events) && FieldsOk(initial, s)
  }

  lemma EventSnoc(initial: Duration, events: seq<Event>, event: Event)
    ensures Failures(events + [event]) == Failures(events) + if event.Failed? then 1 else 0
    ensures Paced(initial, events + [event]) <==> Paced(initial, events) && MayFollow(initial, events, event)
  {
    assert (events + [event])[..|events|] == events;
  }

  lemma StillFailed(events: seq<Event>, event: Event, failure: Failure)
    ensures HasFailed(events + [event], failure)
       <==> HasFailed(events, failure) || (event.Failed? && event.failure == failure)
  {
    var more := events + [event];
    if i :| 0 <= i < |events| && events[i].Failed? && events[i].failure == failure {
      assert more[i] == events[i];
    }
    if event.Failed? && event.failure == failure {
      assert more[|events|] == event;
    }
  }

  /** The discoverer of the open channel is still there after a step of somebody else. */
  lemma StillOwned(s: Sys, t: Sys, c: Id)
    requires CallersOk(s) && t.h.done == s.h.done && !(c in s.callers && s.callers[c].Discovering?)
    requires forall d | d in s.callers && d != c :: d in t.callers && t.callers[d] == s.callers[d]
    ensures t.h.done.Some? ==> exists d :: d in t.callers && t.callers[d] == Discovering(t.h.done.value)
  {
    if s.h.done.Some? {
      var d :| d in s.callers && s.callers[d] == Discovering(s.h.done.value);
      assert d in t.callers && t.callers[d] == s.callers[d];
    }
  }

  lemma LockKeeps(initial: Duration, s: Sys, c: Id)
    requires Inv(initial, s) && Enabled(s, Lock(c))
    ensures Inv(initial, Do(initial, s, Lock(c)))
  {
    var t := Do(initial, s, Lock(c));
    EventSnoc(initial, s.events, Started(s.clock));
    hide Paced, Pause, Failures;
    if t.callers[c].Discovering? {
      assert s.h.done.None?;
      assert t.callers[c] == Discovering(t.h.done.value);
      assert FieldsOk(initial, t) by {
        assert t.events == s.events + [Started(s.clock)];
        if s.events != [] {
          assert t.events[|t.events| - 2] == Last(s.events);
        }
      }
      assert MayFollow(initial, s.events, Started(s.clock));
      RefusalsStayHonest(s, t, Started(s.clock));
    } else {
      StillOwned(s, t, c);
      if s.h.provider.None? && s.h.lastErr.Some? {
        LastErrHasFailed(initial, s);
      }
    }
  }

  lemma RefusalsStayHonest(s: Sys, t: Sys, event: Event)
    requires HonestRefusals(s) && t.events == s.events + [event]
    requires forall c | c in t.callers && t.callers[c].Returned? && t.callers[c].answer.Refused? ::
               (c in s.callers && s.callers[c] == t.callers[c])
               || (event.Failed? && event.failure == t.callers[c].answer.failure)
    ensures HonestRefusals(t)
  {
    forall c | c in t.callers && t.callers[c].Returned? && t.callers[c].answer.Refused?
      ensures HasFailed(t.events, t.callers[c].answer.failure)
    {
      StillFailed(s.events, event, t.callers[c].answer.failure);
    }
  }

  lemma LastErrHasFailed(initial: Duration, s: Sys)
    requires FieldsOk(initial, s) && s.h.provider.None? && s.h.lastErr.Some?
    ensures HasFailed(s.events, s.h.lastErr.value)
  {
    var e := s.events;
    if Last(e).Failed? {
      assert e[|e| - 1].Failed?;
    } else {
      assert e[|e| - 2].Failed?;
    }
  }

  lemma CompleteKeeps(initial: Duration, s: Sys, c: Id, result: Discovered)
    requires Inv(initial, s) && Enabled(s, Complete(c, result))
    ensures Inv(initial, Do(initial, s, Complete(c, result)))
  {
    var t := Do(initial, s, Complete(c, result));
    EventSnoc(initial, s.events, t.events[|s.events|]);
    BackoffStep(initial, Failures(s.events), s.h.failureBackoff);
    RefusalsStayHonest(s, t, t.events[|s.events|]);
    hide HonestRefusals, Paced, Pause, Failures, NextBackoff;
  }

  lemma OtherKeeps(initial: Duration, s: Sys, act: Action)
    requires Inv(initial, s) && Enabled(s, act) && (act.Call? || act.Wake? || act.Cancel?)
    ensures Inv(initial, Do(initial, s, act))
  {
    hide Paced, Pause, Failures;
    StillOwned(s, Do(initial, s, act), act.caller);
  }

  lemma StepKeeps(initial: Duration, s: Sys, act: Action)
    requires Inv(initial, s) && Enabled(s, act)
    ensures Inv(initial, Do(initial, s, act))
  {
    match act
    case Lock(c) => LockKeeps(initial, s, c);
    case Complete(c, result) => CompleteKeeps(initial, s, c, result);
    case Tick(_) =>
    case _ => OtherKeeps(initial, s, act);
  }

  lemma {:induction false} Kept(initial: Duration, clock: Time, acts: seq<Action>)
    requires Exec(initial, clock, acts).Some?
    ensures Inv(initial, Exec(initial, clock, acts).value)
  {
    if acts != [] {
      Kept(initial, clock, acts[..|acts| - 1]);
      StepKeeps(initial, Exec(initial, clock, acts[..|acts| - 1]).value, acts[|acts| - 1]);
    }
  }

  /** For any number of callers: at most one discovers at a time, nobody waits for a channel
      that no one will close, all who get a provider get the same one, and all who are
      refused are given the error of a discovery that failed. */
  lemma DiscoveryIsSingleFlight(initial: Duration, clock: Time, acts: seq<Action>)
    requires Exec(initial, clock, acts).Some?
    ensures var s := Exec(initial, clock, acts).value;
            SingleFlight(s) && NoLostWakeUp(s) && SameProvider(s) && HonestRefusals(s)
  {
    Kept(initial, clock, acts);
  }

  /** Failures and starts alternate until one succeeds, so after a failure half the events are
      failures; and this is the pause then, outright. */
  lemma {:induction false} PauseAfterFailure(initial: Duration, events: seq<Event>)
    requires Paced(initial, events)
    ensures events == [] || !Last(events).Succeeded? ==>
              && Failures(events) == |events| / 2
              && (|events| % 2 == 1 <==> events != [] && Last(events).Started?)
    ensures events != [] && Last(events).Failed? ==>
              && |events| >= 2
              && Pause(initial, Failures(events))
                 == if initial < 0 then initial as int else Min(30_000_000_000, initial as int * Pow2(|events| / 2 - 1))
  {
    if events != [] {
      PauseAfterFailure(initial, events[..|events| - 1]);
    }
  }

  /** What a caller meets, in terms of the discoveries made so far.  It makes the next one if
      there was none yet, or the last failed and the pause after it is over: the initial
      backoff, doubled with each failure in a row, up to 30 seconds.  During the pause it is
      refused with the last error, while one is under way it waits for whoever makes it,
      and after a success it has the provider. */
  lemma LockMeets(initial: Duration, clock: Time, acts: seq<Action>, c: Id)
    requires Exec(initial, clock, acts).Some? && Enabled(Exec(initial, clock, acts).value, Lock(c))
    ensures var s := Exec(initial, clock, acts).value;
            var t, e := Do(initial, s, Lock(c)), s.events;
            if e == [] then t.events == [Started(s.clock)] && t.callers[c].Discovering? else
            match e[|e| - 1]
            case Failed(at, failure) =>
              && |e| >= 2
              && var pause := if initial < 0 then initial as int
                              else Min(30_000_000_000, initial as int * Pow2(|e| / 2 - 1));
              if s.clock >= at + pause then t.events == e + [Started(s.clock)] && t.callers[c].Discovering?
              else t.events == e && t.callers[c] == Returned(Refused(failure))
            case Started(_) =>
              && t.events == e && t.callers[c].Waiting?
              && exists d :: d in s.callers && s.callers[d] == Discovering(t.callers[c].channel)
            case Succeeded(provider) => t.events == e && t.callers[c] == Returned(Got(provider))
  {
    Kept(initial, clock, acts);
    PauseAfterFailure(initial, Exec(initial, clock, acts).value.events);
    hide Exec, Pause, Failures, Paced, Pow2;
  }

  /** Whatever `d` discovers, `c` can go on once `d` is done, which it can be now. */
  ghost predicate Frees(initial: Duration, s: Sys, d: Id, c: Id) {
    forall result :: Enabled(s, Complete(d, result)) && Enabled(Do(initial, s, Complete(d, result)), Wake(c))
  }

  /** No caller is stuck: whoever has not returned can go on, or waits for a discoverer whose
      completion, whatever it finds, lets the waiter go on. */
  lemma NobodyIsStuck(initial: Duration, clock: Time, acts: seq<Action>, c: Id)
    requires Exec(initial, clock, acts).Some?
    requires c in Exec(initial, clock, acts).value.callers && !Exec(initial, clock, acts).value.callers[c].Returned?
    ensures var s := Exec(initial, clock, acts).value;
            || Enabled(s, Lock(c)) || Enabled(s, Wake(c)) || s.callers[c].Discovering?
            || exists d :: Frees(initial, s, d, c)
  {
    Kept(initial, clock, acts);
    var s := Exec(initial, clock, acts).value;
    hide Exec, Paced, Pause, Failures, NextBackoff;
    if s.callers[c].Waiting? && s.callers[c].channel !in s.h.closed {
      var d :| d in s.callers && s.callers[d] == Discovering(s.callers[c].channel);
      assert Frees(initial, s, d, c);
    }
  }

  /** The provider is written once: what a state knows, every later state knows too. */
  lemma {:induction false} ProviderIsFinal(initial: Duration, clock: Time, acts: seq<Action>, i: nat)
    requires i <= |acts| && Exec(initial, clock, acts).Some?
    ensures Exec(initial, clock, acts[..i]).Some?
    ensures var p := Exec(initial, clock, acts[..i]).value.h.provider;
            p.Some? ==> Exec(initial, clock, acts).value.h.provider == p
  {
    if i == |acts| {
      assert acts[..i] == acts;
    } else {
      var front := acts[..|acts| - 1];
      assert front[..i] == acts[..i];
      ProviderIsFinal(initial, clock, front, i);
      Kept(initial, clock, front);
    }
  }

  lemma {:induction false} SuccessIsLast(initial: Duration, events: seq<Event>, i: nat)
    requires Paced(initial, events) && i < |events| && events[i].Succeeded?
    ensures i == |events| - 1
  {
    if i < |events| - 1 {
      SuccessIsLast(initial, events[..|events| - 1], i);
    }
  }

  /** After k failures in a row the next discovery starts no earlier than the k-th pause
      after the last one was over; after a success none ever starts. */
  lemma DiscoveriesArePaced(initial: Duration, clock: Time, acts: seq<Action>)
    requires Exec(initial, clock, acts).Some?
    ensures var events := Exec(initial, clock, acts).value.events;
            Paced(initial, events) && forall i: nat | i < |events| && events[i].Succeeded? :: i == |events| - 1
  {
    Kept(initial, clock, acts);
    var events := Exec(initial, clock, acts).value.events;
    forall i: nat | i < |events| && events[i].Succeeded?
      ensures i == |events| - 1
    {
      SuccessIsLast(initial, events, i);
    }
  }
}
