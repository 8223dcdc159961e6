/** What each request of internal/application/service.go is answered, error by error, from the
    fields of the stick it names. */
module Replies {
  import opened Core
  import opened Database
  import opened Protocol
  import opened Consistency

  /** A missing stick is reported before a stale version, and that before any rule of the
      change.  Then the errors come in the order of the domain's checks, the exhausted
      version last, and an accepted change returns the stick with exactly its own fields
      replaced. */
  lemma TransitionReplies(db: Tables, id: string, expected: int, change: Change, grant: Grant)
    requires Consistent(db)
    ensures var reply := Step(db, OpTransition(id, expected, change, grant)).reply;
            if id !in db.sticks then reply == Err(NotFound) else
            var s := db.sticks[id];
            if s.version != expected then reply == Err(VersionConflict) else
            var last := s.version == MAX_INT64;
            match change
            case Rename(name) =>
              reply == (if !ValidStickName(name) then Err(InvalidStickName) else
                        if last then Err(VersionExhausted) else
                        Ok(GotStick(Stick(id, name, expected + 1, s.archivedAt, s.holder))))
            case Archive(at) =>
              reply == (if s.archivedAt.Some? then Err(AlreadyArchived) else
                        if s.holder.Some? then Err(Held) else
                        if last then Err(VersionExhausted) else
                        Ok(GotStick(Stick(id, s.name, expected + 1, Some(at), None))))
            case Unarchive =>
              reply == (if s.archivedAt.None? then Err(NotArchived) else
                        if last then Err(VersionExhausted) else
                        Ok(GotStick(Stick(id, s.name, expected + 1, None, None))))
            case Claim(who, reason, at) =>
              reply == (if !ValidClaimReason(reason) then Err(InvalidClaimReason) else
                        if s.archivedAt.Some? then Err(AlreadyArchived) else
                        if s.holder.Some? then Err(AlreadyHeld) else
                        if last then Err(VersionExhausted) else
                        Ok(GotStick(Stick(id, s.name, expected + 1, None,
                                          Some(Holder(who.sub, who.name, who.email, at, reason))))))
            case Release(subject, _) =>
              reply == (if s.holder.None? || s.holder.value.sub != subject then Err(NotHolder) else
                        if last then Err(VersionExhausted) else
                        Ok(GotStick(Stick(id, s.name, expected + 1, None, None))))
  {
    TransitionStep(db, OpTransition(id, expected, change, grant));
    if id in db.sticks {
      WellFormedAt(db, id);
    }
    hide Consistent, SaveStick, Work, Written, ValidStickName, ValidClaimReason;
  }

  lemma WellFormedAt(db: Tables, id: string)
    requires Consistent(db) && id in db.sticks
    ensures db.sticks[id].id == id && WellFormedStick(db.sticks[id])
  {
  }

  /** The sessions an accepted change leaves, and the stick it stores. */
  lemma TransitionSessions(db: Tables, id: string, expected: int, change: Change, grant: Grant)
    requires Consistent(db) && Step(db, OpTransition(id, expected, change, grant)).reply.Ok?
    ensures var step := Step(db, OpTransition(id, expected, change, grant));
            var after := step.db;
            && after.subscriptions == db.subscriptions
            && step.reply.value.GotStick? && after.sticks == db.sticks[id := step.reply.value.stick]
            && match change
               case Claim(who, reason, at) =>
                 var more := Session(id, who.sub, who.name, who.email, reason, at, None);
                 after.sessions == db.sessions[grant.session := more]
               case Release(subject, at) =>
                 exists k ::
                   && k in db.sessions && db.sessions[k].stickId == id && db.sessions[k].holderSub == subject
                   && db.sessions[k].releasedAt == None
                   && after.sessions == db.sessions[k := db.sessions[k].(releasedAt := Some(at))]
               case _ => after.sessions == db.sessions
  {
    TransitionStep(db, OpTransition(id, expected, change, grant));
    hide Consistent, Step, NewRows;
    if change.Release? {
      var k := OpenSession(db, id);
      assert k in db.sessions && db.sessions[k].stickId == id && db.sessions[k].holderSub == change.subject;
    }
  }

  /** In a valid run subscribing and unsubscribing are refused for the same two reasons and for
      no other; what is accepted changes the one subscription of that user and stick. */
  lemma SubscriptionReplies(log: Log, op: Op)
    requires ValidRun(log + [op]) && (op.OpSubscribe? || op.OpUnsubscribe?)
    ensures var db, after := Run(log), Step(Run(log), op);
            if op.id !in db.sticks then after == Outcome(db, Err(NotFound)) else
            if db.sticks[op.id].version != op.expected then after == Outcome(db, Err(VersionConflict)) else
            && after.reply == Ok(Done)
            && after.db.sticks == db.sticks && after.db.sessions == db.sessions && after.db.outbox == db.outbox
            && after.db.subscriptions
               == match op
                  case OpSubscribe(_, who, _, token) =>
                    db.subscriptions[Key(op.id, who.sub) := Subscription(who.name, who.email, token)]
                  case OpUnsubscribe(_, subject, _) => db.subscriptions - {Key(op.id, subject)}
  {
    Snoc(log, op);
    ReachableTokens(log);
  }
}
