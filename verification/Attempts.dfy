/** Any number of workers delivering at once, call by call: a row is succeeded only after
    one claim under which every configured backend was called once, in order, and
    accepted (internal/outbox/worker.go, internal/application/notification.go). */
module Attempts {
  import opened Core
  import opened Database
  import opened Protocol
  import opened Fencing

  type Id = nat

  /** A call made under a claim, and the backend's answer. */
  datatype Sent = Sent(token: Token, backend: nat, accepted: bool)

  /** A worker between its claim and its mark: it has made the first `sent` calls. */
  datatype Attempt = Attempt(delivery: Delivery, sent: nat, clean: bool)

  datatype Sys = Sys(log: Log, calls: seq<Sent>, attempts: map<Id, Attempt>)

  const START := Sys([], [], map[])

  datatype Action =
    | Client(op: Op)
    | Take(worker: Id, op: Op)
    | Call(worker: Id, accepted: bool)
    | Record(worker: Id, at: Time, failure: string)
    | Crash(worker: Id)

  /** The mark that follows an attempt. */
  function MarkOf(attempt: Attempt, at: Time, failure: string): Op {
    if attempt.clean then OpSucceed(attempt.delivery, at) else OpFail(attempt.delivery, at, failure)
  }

  /** The calls made under one claim. */
  function Under(calls: seq<Sent>, token: Token): seq<Sent> {
    if calls == [] then [] else
    var last := calls[|calls| - 1];
    Under(calls[..|calls| - 1], token) + if last.token == token then [last] else []
  }

  ghost predicate Enabled(backends: seq<nat>, s: Sys, act: Action) {
    match act
    case Client(op) => Admissible(s.log, op)
                       && (op.OpCreate? || op.OpTransition? || op.OpSubscribe? || op.OpUnsubscribe?)
    case Take(w, op) => w !in s.attempts && op.OpClaim? && Admissible(s.log, op)
    case Call(w, _) => w in s.attempts && s.attempts[w].sent < |backends|
    case Record(w, _, _) => w in s.attempts && s.attempts[w].sent == |backends|
    case Crash(w) => w in s.attempts
  }

  ghost function Do(backends: seq<nat>, s: Sys, act: Action): Sys
    requires Enabled(backends, s, act)
  {
    match act
    case Client(op) => s.(log := s.log + [op])
    case Take(w, op) =>
      (match Step(Run(s.log), op).reply
       case Ok(GotDelivery(Some(delivery))) => Sys(s.log + [op], s.calls, s.attempts[w := Attempt(delivery, 0, true)])
       case _ => s.(log := s.log + [op]))
    case Call(w, accepted) =>
      var a := s.attempts[w];
      Sys(s.log, s.calls + [Sent(a.delivery.claimToken, backends[a.sent], accepted)],
          s.attempts[w := a.(sent := a.sent + 1, clean := a.clean && accepted)])
    case Record(w, at, failure) =>
      Sys(s.log + [MarkOf(s.attempts[w], at, failure)], s.calls, s.attempts - {w})
    case Crash(w) => s.(attempts := s.attempts - {w})
  }

  ghost function Exec(backends: seq<nat>, acts: seq<Action>): Option<Sys> {
    if acts == [] then Some(START) else
    match Exec(backends, acts[..|acts| - 1])
    case None => None
    case Some(s) =>
      if Enabled(backends, s, acts[|acts| - 1]) then Some(Do(backends, s, acts[|acts| - 1])) else None
  }

  /** The calls went to the first so many backends, in order. */
  predicate InOrder(made: seq<Sent>, backends: seq<nat>) {
    |made| <= |backends| && forall k | 0 <= k < |made| :: made[k].backend == backends[k]
  }

  predicate AllAccepted(made: seq<Sent>) {
    forall k | 0 <= k < |made| :: made[k].accepted
  }

  /** Every backend was called once, in order, under this claim, and accepted. */
  predicate Delivered(backends: seq<nat>, calls: seq<Sent>, token: Token) {
    var made := Under(calls, token);
    InOrder(made, backends) && |made| == |backends| && AllAccepted(made)
  }

  predicate Busy(s: Sys, token: Token) {
    exists w :: w in s.attempts && s.attempts[w].delivery.claimToken == token
  }

  ghost predicate AttemptOk(s: Sys, attempt: Attempt) {
    && attempt.delivery in Deliveries(s.log)
    && attempt.delivery.claimToken in Used(s.log)
    && |Under(s.calls, attempt.delivery.claimToken)| == attempt.sent
    && (attempt.clean <==> AllAccepted(Under(s.calls, attempt.delivery.claimToken)))
  }

  ghost predicate CallsOk(backends: seq<nat>, s: Sys) {
    forall token :: InOrder(Under(s.calls, token), backends) && (token !in Used(s.log) ==> Under(s.calls, token) == [])
  }

  ghost predicate AttemptsOk(s: Sys) {
    && (forall w | w in s.attempts :: AttemptOk(s, s.attempts[w]))
    && (forall v, w | v in s.attempts && w in s.attempts
                      && s.attempts[v].delivery.claimToken == s.attempts[w].delivery.claimToken :: v == w)
  }

  ghost predicate SuccessesOk(backends: seq<nat>, s: Sys) {
    forall i: nat | i < |s.log| && s.log[i].OpSucceed? ::
      var token := s.log[i].delivery.claimToken;
      token in Used(s.log) && Delivered(backends, s.calls, token) && !Busy(s, token)
  }

  ghost predicate Inv(backends: seq<nat>, s: Sys) {
    ValidRun(s.log) && CallsOk(backends, s) && AttemptsOk(s) && SuccessesOk(backends, s)
  }

  lemma UnderSnoc(calls: seq<Sent>, sent: Sent, token: Token)
    ensures Under(calls + [sent], token) == Under(calls, token) + if sent.token == token then [sent] else []
  {
    assert (calls + [sent])[..|calls|] == calls;
  }

  /** Growing the log without a success keeps what is known of the calls. */
  lemma LogGrows(backends: seq<nat>, s: Sys, op: Op)
    requires Inv(backends, s) && Admissible(s.log, op) && !op.OpSucceed?
    ensures Inv(backends, s.(log := s.log + [op]))
  {
    Snoc(s.log, op);
    hide Run, Step, InOrder, AllAccepted;
    var t := s.(log := s.log + [op]);
    forall i: nat | i < |t.log| && t.log[i].OpSucceed?
      ensures var token := t.log[i].delivery.claimToken;
              token in Used(t.log) && Delivered(backends, t.calls, token) && !Busy(t, token)
    {
      assert t.log[i] == s.log[i];
      assert Busy(t, t.log[i].delivery.claimToken) == Busy(s, t.log[i].delivery.claimToken);
    }
  }

  /** A worker sets out with a claim under which nothing has happened. */
  lemma AttemptAdded(backends: seq<nat>, s: Sys, w: Id, delivery: Delivery)
    requires Inv(backends, s) && w !in s.attempts
    requires delivery in Deliveries(s.log) && delivery.claimToken in Used(s.log)
    requires Under(s.calls, delivery.claimToken) == [] && !Busy(s, delivery.claimToken)
    requires forall i: nat | i < |s.log| && s.log[i].OpSucceed? :: s.log[i].delivery.claimToken != delivery.claimToken
    ensures Inv(backends, s.(attempts := s.attempts[w := Attempt(delivery, 0, true)]))
  {
    var t := s.(attempts := s.attempts[w := Attempt(delivery, 0, true)]);
    hide ValidRun, Used, Deliveries, Under, InOrder, Delivered;
    forall v | v in s.attempts
      ensures s.attempts[v].delivery.claimToken != delivery.claimToken
    {
    }
    forall i: nat | i < |t.log| && t.log[i].OpSucceed?
      ensures !Busy(t, t.log[i].delivery.claimToken)
    {
      assert !Busy(s, t.log[i].delivery.claimToken);
    }
  }

  lemma TakeKeeps(backends: seq<nat>, s: Sys, w: Id, op: Op, delivery: Delivery)
    requires Inv(backends, s) && w !in s.attempts && op.OpClaim? && Admissible(s.log, op)
    requires Step(Run(s.log), op).reply == Ok(GotDelivery(Some(delivery)))
    ensures Inv(backends, Sys(s.log + [op], s.calls, s.attempts[w := Attempt(delivery, 0, true)]))
  {
    var m := s.(log := s.log + [op]);
    LogGrows(backends, s, op);
    Snoc(s.log, op);
    assert delivery.claimToken == op.token;
    assert op.token !in Used(s.log);
    hide Run, Step, Admissible, ValidRun, InOrder, Used, Deliveries, Under, Delivered;
    forall v | v in s.attempts
      ensures s.attempts[v].delivery.claimToken != op.token
    {
      assert AttemptOk(s, s.attempts[v]);
    }
    forall i: nat | i < |m.log| && m.log[i].OpSucceed?
      ensures m.log[i].delivery.claimToken != op.token
    {
      assert m.log[i] == s.log[i];
    }
    AttemptAdded(backends, m, w, delivery);
  }

  /** What one more call under a claim does to the calls of every claim. */
  ghost predicate OneMore(before: seq<Sent>, after: seq<Sent>, sent: Sent) {
    forall token :: Under(after, token) == Under(before, token) + if token == sent.token then [sent] else []
  }

  lemma OneMoreCall(calls: seq<Sent>, sent: Sent)
    ensures OneMore(calls, calls + [sent], sent)
  {
    forall token
      ensures Under(calls + [sent], token) == Under(calls, token) + if token == sent.token then [sent] else []
    {
      UnderSnoc(calls, sent, token);
    }
  }

  lemma CallKeepsAttempts(s: Sys, t: Sys, w: Id, sent: Sent)
    requires AttemptsOk(s) && w in s.attempts && t.log == s.log && OneMore(s.calls, t.calls, sent)
    requires var a := s.attempts[w];
             && sent.token == a.delivery.claimToken
             && t.attempts == s.attempts[w := Attempt(a.delivery, a.sent + 1, a.clean && sent.accepted)]
    ensures AttemptsOk(t)
  {
    hide Deliveries, Used, Under;
    forall v | v in t.attempts
      ensures AttemptOk(t, t.attempts[v])
    {
      var token := s.attempts[v].delivery.claimToken;
      assert AttemptOk(s, s.attempts[v]);
      var before, after := Under(s.calls, token), Under(t.calls, token);
      if v == w {
        assert after == before + [sent];
        assert AllAccepted(after) <==> AllAccepted(before) && sent.accepted by {
          assert after[|before|] == sent;
          assert forall k | 0 <= k < |before| :: after[k] == before[k];
        }
      } else {
        assert token != sent.token;
        assert after == before;
      }
    }
  }

  /** What a worker about to make a call knows. */
  lemma BeforeCall(backends: seq<nat>, s: Sys, w: Id)
    requires Inv(backends, s) && w in s.attempts
    ensures s.attempts[w].delivery.claimToken in Used(s.log)
    ensures |Under(s.calls, s.attempts[w].delivery.claimToken)| == s.attempts[w].sent
    ensures ValidRun(s.log) && CallsOk(backends, s) && AttemptsOk(s) && SuccessesOk(backends, s)
  {
    assert AttemptOk(s, s.attempts[w]);
  }

  lemma SameBusy(s: Sys, t: Sys, w: Id, token: Token)
    requires w in s.attempts && w in t.attempts && t.attempts == s.attempts[w := t.attempts[w]]
    requires t.attempts[w].delivery == s.attempts[w].delivery
    ensures Busy(t, token) ==> Busy(s, token)
  {
    if Busy(t, token) {
      var v :| v in t.attempts && t.attempts[v].delivery.claimToken == token;
      assert v in s.attempts && s.attempts[v].delivery.claimToken == token;
    }
  }

  lemma CallKeeps(backends: seq<nat>, s: Sys, w: Id, accepted: bool)
    requires Inv(backends, s) && w in s.attempts && s.attempts[w].sent < |backends|
    ensures Inv(backends, Do(backends, s, Call(w, accepted)))
  {
    var a := s.attempts[w];
    CallMade(backends, s, Do(backends, s, Call(w, accepted)), w,
             Sent(a.delivery.claimToken, backends[a.sent], accepted));
  }

  lemma CallMade(backends: seq<nat>, s: Sys, t: Sys, w: Id, sent: Sent)
    requires Inv(backends, s) && w in s.attempts && s.attempts[w].sent < |backends|
    requires sent.token == s.attempts[w].delivery.claimToken && sent.backend == backends[s.attempts[w].sent]
    requires t.log == s.log && t.calls == s.calls + [sent]
    requires var a := s.attempts[w];
             t.attempts == s.attempts[w := Attempt(a.delivery, a.sent + 1, a.clean && sent.accepted)]
    ensures Inv(backends, t)
  {
    BeforeCall(backends, s, w);
    OneMoreCall(s.calls, sent);
    hide OneMore, ValidRun, Under, AttemptsOk, AttemptOk, SuccessesOk, CallsOk, Used;
    forall token
      ensures Busy(t, token) ==> Busy(s, token)
    {
      SameBusy(s, t, w, token);
    }
    CallKeepsAttempts(s, t, w, sent);
    CallKeepsOrder(backends, s, t, sent);
    CallKeepsSuccesses(backends, s, t, w, sent);
  }

  lemma CallKeepsOrder(backends: seq<nat>, s: Sys, t: Sys, sent: Sent)
    requires CallsOk(backends, s) && t.log == s.log && OneMore(s.calls, t.calls, sent)
    requires sent.token in Used(s.log)
    requires |Under(s.calls, sent.token)| < |backends| && sent.backend == backends[|Under(s.calls, sent.token)|]
    ensures CallsOk(backends, t)
  {
    hide Used, Under;
  }

  lemma CallKeepsSuccesses(backends: seq<nat>, s: Sys, t: Sys, w: Id, sent: Sent)
    requires SuccessesOk(backends, s) && t.log == s.log && OneMore(s.calls, t.calls, sent)
    requires w in s.attempts && sent.token == s.attempts[w].delivery.claimToken
    requires forall token :: Busy(t, token) ==> Busy(s, token)
    ensures SuccessesOk(backends, t)
  {
    hide Used, Under, InOrder, AllAccepted;
    forall i: nat | i < |t.log| && t.log[i].OpSucceed?
      ensures var token := t.log[i].delivery.claimToken;
              token in Used(t.log) && Delivered(backends, t.calls, token) && !Busy(t, token)
    {
      var token := s.log[i].delivery.claimToken;
      assert !Busy(s, token);
      assert token != sent.token;
      assert Under(t.calls, token) == Under(s.calls, token);
    }
  }

  lemma SuccessKeeps(backends: seq<nat>, s: Sys, delivery: Delivery, at: Time)
    requires Inv(backends, s) && delivery in Deliveries(s.log) && delivery.claimToken in Used(s.log)
    requires Delivered(backends, s.calls, delivery.claimToken) && !Busy(s, delivery.claimToken)
    ensures Inv(backends, s.(log := s.log + [OpSucceed(delivery, at)]))
  {
    var op := OpSucceed(delivery, at);
    var t := s.(log := s.log + [op]);
    Snoc(s.log, op);
    assert ValidRun(t.log);
    hide Run, Step, ValidRun, Admissible, Under, InOrder, AllAccepted, Deliveries, Used, Delivered;
    forall i: nat | i < |t.log| && t.log[i].OpSucceed?
      ensures var token := t.log[i].delivery.claimToken;
              token in Used(t.log) && Delivered(backends, t.calls, token) && !Busy(t, token)
    {
      var token := t.log[i].delivery.claimToken;
      if i < |s.log| {
        assert t.log[i] == s.log[i];
        assert !Busy(s, token);
      }
      assert Busy(t, token) == Busy(s, token);
    }
    assert AttemptsOk(t);
  }

  lemma RecordKeeps(backends: seq<nat>, s: Sys, w: Id, at: Time, failure: string)
    requires Inv(backends, s) && w in s.attempts && s.attempts[w].sent == |backends|
    ensures Inv(backends, Do(backends, s, Record(w, at, failure)))
  {
    var a := s.attempts[w];
    var m := s.(attempts := s.attempts - {w});
    assert AttemptOk(s, a);
    assert InOrder(Under(s.calls, a.delivery.claimToken), backends);
    assert !Busy(m, a.delivery.claimToken);
    CrashKeeps(backends, s, w);
    hide Inv, AttemptOk;
    if a.clean {
      SuccessKeeps(backends, m, a.delivery, at);
    } else {
      LogGrows(backends, m, MarkOf(a, at, failure));
    }
  }

  lemma CrashKeeps(backends: seq<nat>, s: Sys, w: Id)
    requires Inv(backends, s) && w in s.attempts
    ensures Inv(backends, s.(attempts := s.attempts - {w}))
  {
    var t := s.(attempts := s.attempts - {w});
    hide ValidRun, Used, Deliveries, Under, Delivered, InOrder;
    assert forall token :: Busy(t, token) ==> Busy(s, token);
  }

  lemma StepKeeps(backends: seq<nat>, s: Sys, act: Action)
    requires Inv(backends, s) && Enabled(backends, s, act)
    ensures Inv(backends, Do(backends, s, act))
  {
    hide Inv, Admissible;
    match act
    case Client(op) => LogGrows(backends, s, op);
    case Take(w, op) =>
      match Step(Run(s.log), op).reply {
        case Ok(GotDelivery(Some(delivery))) => TakeKeeps(backends, s, w, op, delivery);
        case _ => LogGrows(backends, s, op);
      }
    case Call(w, accepted) => CallKeeps(backends, s, w, accepted);
    case Record(w, at, failure) => RecordKeeps(backends, s, w, at, failure);
    case Crash(w) => CrashKeeps(backends, s, w);
  }

  lemma {:induction false} Kept(backends: seq<nat>, acts: seq<Action>)
    requires Exec(backends, acts).Some?
    ensures Inv(backends, Exec(backends, acts).value)
  {
    if acts != [] {
      Kept(backends, acts[..|acts| - 1]);
      StepKeeps(backends, Exec(backends, acts[..|acts| - 1]).value, acts[|acts| - 1]);
    } else {
      assert forall token :: InOrder(Under(START.calls, token), backends);
    }
  }

  /** In every run of any number of workers and clients: under no claim is a backend called
      twice or out of order, and whenever a row is succeeded, one claim of it had every
      configured backend called once, in order, with all of them accepting. */
  lemma SucceededMeansAllAccepted(backends: seq<nat>, acts: seq<Action>, n: nat) returns (delivery: Delivery)
    requires Exec(backends, acts).Some?
    requires n in Run(Exec(backends, acts).value.log).outbox
    requires Run(Exec(backends, acts).value.log).outbox[n].status == Succeeded
    ensures var s := Exec(backends, acts).value;
            && delivery in Deliveries(s.log) && delivery.id == n
            && Delivered(backends, s.calls, delivery.claimToken)
            && forall token :: InOrder(Under(s.calls, token), backends)
  {
    Kept(backends, acts);
    var s := Exec(backends, acts).value;
    hide Exec;
    var i, j := SucceededHasDelivery(s.log, n);
    delivery := s.log[j].delivery;
    GivenOut(s.log, i, delivery);
    assert Delivered(backends, s.calls, delivery.claimToken);
    assert ReplyAt(s.log, i) == Ok(GotDelivery(Some(delivery)));
  }

  lemma {:induction false} GivenOut(log: Log, i: nat, delivery: Delivery)
    requires i < |log| && ReplyAt(log, i) == Ok(GotDelivery(Some(delivery)))
    ensures delivery in Deliveries(log)
  {
    var front := log[..|log| - 1];
    if i < |front| {
      assert front[..i] == log[..i];
      GivenOut(front, i, delivery);
    }
  }
}
