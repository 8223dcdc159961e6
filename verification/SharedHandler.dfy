/** providerConfig (internal/web/auth/handler.go) as its callers run it: the loop over the
    mutable handler, with everyone else acting whenever the caller is outside the mutex. */
module SharedHandler {
  import opened Core
  import opened Durations
  import opened Discovery

  /** What happens while the caller waits or discovers: the clock and the other callers move on,
      and the caller's context may be cancelled. */
  datatype Turn = Turn(others: seq<Action>, cancelled: bool)

  predicate NotBy(others: seq<Action>, c: Id) {
    forall act | act in others :: act.Tick? || act.caller != c
  }

  /** A discovery may start: there was none yet, or the last one failed and its pause is over. */
  predicate Due(initial: Duration, s: Sys) {
    s.events == [] || (Last(s.events).Failed? && s.clock >= Last(s.events).at + Pause(initial, Failures(s.events)))
  }

  /** The last discovery failed with this error and its pause is not over. */
  predicate InPause(initial: Duration, s: Sys, failure: Failure) {
    && s.events != [] && Last(s.events).Failed? && Last(s.events).failure == failure
    && s.clock < Last(s.events).at + Pause(initial, Failures(s.events))
  }

  /** A refusal is the failure just found by one's own discovery, or comes in the pause after the
      last failure and repeats its error. */
  predicate Justified(initial: Duration, s: Sys, found: Discovered, failure: Failure) {
    || InPause(initial, s, failure)
    || (found == Discovered.NotFound(failure) && s.events != [] && Last(s.events) == Failed(s.clock, failure))
  }

  lemma LockDecides(initial: Duration, start: Time, acts: seq<Action>, c: Id)
    requires Exec(initial, start, acts).Some? && Enabled(Exec(initial, start, acts).value, Lock(c))
    ensures var s := Exec(initial, start, acts).value;
            var t := Do(initial, s, Lock(c));
            && (Due(initial, s) ==> t.callers[c].Discovering?)
            && (t.callers[c].Returned? && t.callers[c].answer.Refused? ==>
                  InPause(initial, t, t.callers[c].answer.failure))
  {
    Kept(initial, start, acts);
    LockMeets(initial, start, acts, c);
    PauseAfterFailure(initial, Exec(initial, start, acts).value.events);
    hide Exec, Enter, Pause, Failures, Paced, Pow2;
  }

  lemma ExecSnoc(initial: Duration, start: Time, acts: seq<Action>, act: Action)
    requires Exec(initial, start, acts).Some? && Enabled(Exec(initial, start, acts).value, act)
    ensures Exec(initial, start, acts + [act]) == Some(Do(initial, Exec(initial, start, acts).value, act))
  {
    assert (acts + [act])[..|acts|] == acts;
  }

  /** The goroutines that share one handler.  The ghost field `acts` records what they did: a
      valid object is always the state of a run, so what is proved of runs holds of it. */
  class Callers {
    const handler: Handler
    var clock: Time
    var callers: map<Id, Phase>
    var next: Channel
    const start: Time
    ghost var acts: seq<Action>

    ghost predicate Valid()
      reads this, handler
    {
      && Exec(handler.initialBackoff, start, acts).Some?
      && var s := Exec(handler.initialBackoff, start, acts).value;
      s.clock == clock && s.h == handler.Contents() && s.callers == callers && s.next == next
    }

    ghost function State(): Sys
      requires Valid()
      reads this, handler
    {
      Exec(handler.initialBackoff, start, acts).value
    }

    constructor (initialBackoff: Duration, start: Time)
      ensures Valid() && fresh(handler) && acts == [] && callers == map[]
    {
      handler := new Handler(initialBackoff);
      clock, callers, next, this.start := start, map[], 0, start;
      acts := [];
    }

    /** Time passes, or a caller arrives, wakes up or gives up. */
    method Advance(act: Action)
      requires Valid() && Enabled(State(), act) && (act.Tick? || act.Call? || act.Wake? || act.Cancel?)
      modifies this
      ensures Valid() && acts == old(acts) + [act] && State() == Do(handler.initialBackoff, old(State()), act)
      ensures !act.Tick? ==>
                callers == old(callers)[act.caller := if act.Cancel? then Returned(Cancelled) else Entering]
    {
      ExecSnoc(handler.initialBackoff, start, acts, act);
      hide Exec;
      match act {
        case Tick(delta) => clock := clock + delta;
        case Call(c) => callers := callers[c := Entering];
        case Wake(c) => callers := callers[c := Entering];
        case Cancel(c) => callers := callers[c := Returned(Cancelled)];
      }
      acts := acts + [act];
    }

    /** The first critical section of a caller. */
    method Begin(c: Id) returns (phase: Phase)
      requires Valid() && Enabled(State(), Lock(c))
      modifies this, handler
      ensures Valid() && acts == old(acts) + [Lock(c)]
      ensures State() == Do(handler.initialBackoff, old(State()), Lock(c)) && c in callers && callers[c] == phase
      ensures callers == old(callers)[c := phase] && !phase.Entering?
      ensures phase.Returned? ==> !phase.answer.Cancelled?
      ensures Due(handler.initialBackoff, old(State())) ==> phase.Discovering?
      ensures phase.Returned? && phase.answer.Refused? ==>
                forall found :: Justified(handler.initialBackoff, State(), found, phase.answer.failure)
    {
      LockDecides(handler.initialBackoff, start, acts, c);
      ExecSnoc(handler.initialBackoff, start, acts, Lock(c));
      hide Exec;
      phase := handler.BeginDiscovery(clock, next);
      if phase.Discovering? {
        next := next + 1;
      }
      callers := callers[c := phase];
      acts := acts + [Lock(c)];
    }

    /** The second one, of the caller that discovered. */
    method End(c: Id, result: Discovered) returns (phase: Phase)
      requires Valid() && Enabled(State(), Complete(c, result))
      modifies this, handler
      ensures Valid() && acts == old(acts) + [Complete(c, result)]
      ensures State() == Do(handler.initialBackoff, old(State()), Complete(c, result)) && c in callers
              && callers[c] == phase
      ensures phase == Returned(if result.Found? then Got(result.provider) else Refused(result.failure))
      ensures result.NotFound? ==> State().events == old(State()).events + [Failed(clock, result.failure)]
    {
      ExecSnoc(handler.initialBackoff, start, acts, Complete(c, result));
      hide Exec;
      phase := handler.EndDiscovery(callers[c].channel, result, clock);
      callers := callers[c := phase];
      acts := acts + [Complete(c, result)];
    }

    /** Everyone but `c` acts, as far as they can. */
    method Others(others: seq<Action>, c: Id)
      requires Valid() && NotBy(others, c) && c in callers
      modifies this, handler
      ensures Valid() && old(acts) <= acts && c in callers && callers[c] == old(callers[c])
    {
      hide Exec, Do;
      var k := 0;
      while k < |others|
        invariant Valid() && old(acts) <= acts && c in callers && callers[c] == old(callers[c])
      {
        var act := others[k];
        assert act in others;
        if Enabled(Sys(clock, handler.Contents(), callers, next, []), act) {
          SameEnabled(State(), Sys(clock, handler.Contents(), callers, next, []), act);
          OthersKeep(handler.initialBackoff, State(), act, c);
          match act {
            case Lock(other) => var _ := Begin(other);
            case Complete(other, result) => var _ := End(other, result);
            case _ => Advance(act);
          }
        }
        k := k + 1;
      }
    }

    /** The select on the channel and the context, for one turn of the others. */
    method Wait(c: Id, turn: Turn)
      requires Valid() && c in callers && callers[c].Waiting? && NotBy(turn.others, c)
      modifies this, handler
      ensures Valid() && old(acts) <= acts && c in callers
      ensures if turn.cancelled then callers[c] == Returned(Cancelled) else callers[c].Entering? || callers[c].Waiting?
    {
      hide Exec, Do;
      Others(turn.others, c);
      if turn.cancelled {
        Advance(Cancel(c));
      } else if callers[c].channel in handler.closed {
        Advance(Wake(c));
      }
    }

    /** A discovery of one's own, outside the mutex, and the section that records it. */
    method Discover(c: Id, others: seq<Action>, found: Discovered) returns (answer: Answer)
      requires Valid() && c in callers && callers[c].Discovering? && NotBy(others, c)
      modifies this, handler
      ensures Valid() && old(acts) <= acts && c in callers && callers[c] == Returned(answer)
      ensures answer == if found.Found? then Got(found.provider) else Refused(found.failure)
      ensures answer.Refused? ==> Justified(handler.initialBackoff, State(), found, answer.failure)
    {
      hide Exec, Do, InPause;
      Others(others, c);
      var phase := End(c, found);
      answer := phase.answer;
    }

    /** The loop of providerConfig for a caller that has just arrived.  `turns` says what goes on
        each time it is outside the mutex, `found` what its discovery finds if it makes one;
        when the turns are over its context is cancelled.  A provider it returns is the one
        every later state has; a refusal is the failure of its own discovery, or repeats the
        last one inside the pause after it; a caller that arrives when a discovery is due makes
        it; and it gives up only when cancelled.  Whatever it started, discoveries stay one at
        a time and paced. */
    method ProviderConfig(c: Id, turns: seq<Turn>, found: Discovered) returns (answer: Answer, used: nat)
      requires Valid() && c !in callers && forall turn | turn in turns :: NotBy(turn.others, c)
      modifies this, handler
      ensures Valid() && old(acts) <= acts && c in callers && callers[c] == Returned(answer)
      ensures answer.Got? ==>
                handler.provider == Some(answer.provider)
                && forall more | Exec(handler.initialBackoff, start, acts + more).Some? ::
                  Exec(handler.initialBackoff, start, acts + more).value.h.provider == Some(answer.provider)
      ensures answer.Refused? ==>
                && HasFailed(State().events, answer.failure)
                && Justified(handler.initialBackoff, State(), found, answer.failure)
      ensures old(Due(handler.initialBackoff, State())) ==>
                answer == if found.Found? then Got(found.provider) else Refused(found.failure)
      ensures used <= |turns| && (answer.Cancelled? ==> used == |turns| || turns[used].cancelled)
      ensures SingleFlight(State()) && NoLostWakeUp(State()) && Paced(handler.initialBackoff, State().events)
    {
      answer, used := RunLoop(c, turns, found);
      Kept(handler.initialBackoff, start, acts);
      DiscoveryIsSingleFlight(handler.initialBackoff, start, acts);
      hide Enabled, Do, Paced;
      if answer.Got? {
        forall more | Exec(handler.initialBackoff, start, acts + more).Some?
          ensures Exec(handler.initialBackoff, start, acts + more).value.h.provider == Some(answer.provider)
        {
          ProviderIsFinal(handler.initialBackoff, start, acts + more, |acts|);
          assert (acts + more)[..|acts|] == acts;
        }
      }
    }

    method RunLoop(c: Id, turns: seq<Turn>, found: Discovered) returns (answer: Answer, used: nat)
      requires Valid() && c !in callers && forall turn | turn in turns :: NotBy(turn.others, c)
      modifies this, handler
      ensures Valid() && old(acts) <= acts && c in callers && callers[c] == Returned(answer)
      ensures used <= |turns| && (answer.Cancelled? ==> used == |turns| || turns[used].cancelled)
      ensures answer.Refused? ==> Justified(handler.initialBackoff, State(), found, answer.failure)
      ensures old(Due(handler.initialBackoff, State())) ==>
                answer == if found.Found? then Got(found.provider) else Refused(found.failure)
    {
      hide Exec, Do, Due, Justified;
      used := 0;
      ghost var due := Due(handler.initialBackoff, State());
      ArrivingKeepsDue(handler.initialBackoff, State(), c);
      Advance(Call(c));
      while true
        invariant Valid() && old(acts) <= acts && used <= |turns| && c in callers
        invariant callers[c].Entering? || callers[c].Waiting?
        invariant due ==> callers[c].Entering? && Due(handler.initialBackoff, State())
        decreases |turns| - used, callers[c].Entering?
      {
        if callers[c].Entering? {
          var phase := Begin(c);
          match phase {
            case Returned(it) => return it, used;
            case Waiting(_) =>
            case Discovering(_) =>
              answer := Discover(c, if used < |turns| then turns[used].others else [], found);
              return answer, used;
          }
        } else {
          if used == |turns| {
            Advance(Cancel(c));
            return Cancelled, used;
          }
          Wait(c, turns[used]);
          if turns[used].cancelled {
            return Cancelled, used;
          }
          used := used + 1;
        }
      }
    }
  }

  lemma ArrivingKeepsDue(initial: Duration, s: Sys, c: Id)
    requires Enabled(s, Call(c))
    ensures Due(initial, Do(initial, s, Call(c))) == Due(initial, s)
  {
  }

  /** Whether an action can happen does not depend on what was recorded. */
  lemma SameEnabled(s: Sys, t: Sys, act: Action)
    requires s.callers == t.callers && s.h == t.h
    ensures Enabled(s, act) == Enabled(t, act)
  {
  }

  /** Nobody moves another caller. */
  lemma OthersKeep(initial: Duration, s: Sys, act: Action, c: Id)
    requires Enabled(s, act) && (act.Tick? || act.caller != c) && c in s.callers
    ensures c in Do(initial, s, act).callers && Do(initial, s, act).callers[c] == s.callers[c]
  {
    hide NextBackoff;
  }
}
