/** The domain: sticks, their holders and sessions, and the pure transitions of
    internal/core/stick.go.  Time is an instant in nanoseconds. */
module Core {

  type Time = int

  /** Largest value of a Go `int64`. */
  const MAX_INT64: int := 0x7fff_ffff_ffff_ffff

  const MAX_STICK_NAME_LENGTH := 100
  const MAX_CLAIM_REASON_LENGTH := 500

  function Min(a: int, b: int): int {
    if a < b then a else b
  }

  function Max(a: int, b: int): int {
    if a < b then b else a
  }

  datatype Option<+T> = None | Some(value: T)

  datatype Result<+T> = Ok(value: T) | Err(error: Error) {
    predicate IsFailure() {
      Err?
    }

    function PropagateFailure<U>(): Result<U>
      requires Err?
    {
      Err(error)
    }

    function Extract(): T
      requires Ok?
    {
      value
    }
  }

  /** The sentinel errors of internal/core/errors.go, internal/application/errors.go and
      internal/outbox/store.go, then the anonymous errors the adapters can return. */
  datatype Error =
    | AlreadyHeld | NotHolder | AlreadyArchived | NotArchived | Held
    | InvalidStickName | InvalidClaimReason | VersionExhausted
    | Forbidden | NotFound | AlreadyExists | VersionConflict
    | ClaimLost
    | NotMonotonic | ActiveSessionExists | ActiveSessionMissing | NoHolderSnapshot | DuplicateGeneration | NegativePage

  datatype Identity = Identity(sub: string, name: string, email: string, isAdmin: bool)

  datatype Holder = Holder(sub: string, name: string, email: string, claimedAt: Time, reason: string)

  datatype Stick = Stick(id: string, name: string, version: int, archivedAt: Option<Time>, holder: Option<Holder>) {
    predicate Available() {
      holder.None?
    }

    predicate Archived() {
      archivedAt.Some?
    }
  }

  datatype Session = Session(
    stickId: string, holderSub: string, holderName: string, holderEmail: string,
    reason: string, claimedAt: Time, releasedAt: Option<Time>)
  {
    predicate Open() {
      releasedAt.None?
    }
  }

  /** What a request asks of a stick, with the timestamps the service took for it. */
  datatype Change =
    | Rename(newName: string)
    | Archive(archivedAt: Time)
    | Unarchive
    | Claim(identity: Identity, reason: string, claimedAt: Time)
    | Release(subject: string, releasedAt: Time)

  predicate IsSpace(ch: char) {
    ch == ' ' || '\t' <= ch <= '\r' || ch == '\U{85}' || ch == '\U{A0}'
  }

  predicate IsLetterOrDigit(ch: char) {
    'a' <= ch <= 'z' || 'A' <= ch <= 'Z' || '0' <= ch <= '9'
  }

  predicate ValidBoundedText(value: string, maxLength: nat) {
    (exists ch | ch in value :: !IsSpace(ch)) && |value| <= maxLength
  }

  predicate ValidStickName(name: string) {
    && ValidBoundedText(name, MAX_STICK_NAME_LENGTH)
    && forall ch | ch in name :: IsLetterOrDigit(ch) || ch == '-' || ch == ' '
  }

  predicate ValidClaimReason(reason: string) {
    ValidBoundedText(reason, MAX_CLAIM_REASON_LENGTH)
  }

  /** The characters a name may have, and how long it and a reason may be; neither is blank. */
  lemma ValidTexts(name: string, reason: string)
    ensures ValidStickName(name) <==>
            && |name| <= 100 && (exists i :: 0 <= i < |name| && name[i] != ' ')
            && forall i | 0 <= i < |name| ::
                 'a' <= name[i] <= 'z' || 'A' <= name[i] <= 'Z' || '0' <= name[i] <= '9' || name[i] in "- "
    ensures ValidClaimReason(reason) <==>
            |reason| <= 500 && exists i :: 0 <= i < |reason| && reason[i] !in " \t\n\U{0B}\U{0C}\r\U{85}\U{A0}"
  {
    assert forall i | 0 <= i < |name| :: name[i] in name;
    assert forall i | 0 <= i < |reason| :: reason[i] in reason;
  }

  function NewStick(id: string, name: string): Result<Stick> {
    if ValidStickName(name) then Ok(Stick(id, name, 1, None, None)) else Err(InvalidStickName)
  }

  function IncrementVersion(stick: Stick): Result<Stick> {
    if stick.version < 1 || stick.version == MAX_INT64 then
      Err(VersionExhausted)
    else
      Ok(stick.(version := stick.version + 1))
  }

  /** The transition a change makes on the stick it is applied to. */
  function Next(stick: Stick, change: Change): Result<Stick> {
    match change
    case Rename(name) =>
      if !ValidStickName(name) then Err(InvalidStickName) else
      var bumped :- IncrementVersion(stick);
      Ok(bumped.(name := name))
    case Archive(at) =>
      if stick.Archived() then Err(AlreadyArchived) else
      if !stick.Available() then Err(Held) else
      var bumped :- IncrementVersion(stick);
      Ok(bumped.(archivedAt := Some(at)))
    case Unarchive =>
      if !stick.Archived() then Err(NotArchived) else
      var bumped :- IncrementVersion(stick);
      Ok(bumped.(archivedAt := None))
    case Claim(identity, reason, at) =>
      if !ValidClaimReason(reason) then Err(InvalidClaimReason) else
      if stick.Archived() then Err(AlreadyArchived) else
      if !stick.Available() then Err(AlreadyHeld) else
      var bumped :- IncrementVersion(stick);
      Ok(bumped.(holder := Some(Holder(identity.sub, identity.name, identity.email, at, reason))))
    case Release(subject, _) =>
      if stick.Available() || stick.holder.value.sub != subject then Err(NotHolder) else
      var bumped :- IncrementVersion(stick);
      Ok(bumped.(holder := None))
  }

  /** A stick the service may have stored: the CHECK constraints on a `sticks` row. */
  predicate WellFormedStick(stick: Stick) {
    && 1 <= stick.version <= MAX_INT64
    && (stick.Archived() ==> stick.Available())
  }

  /** A release undoes a claim and nobody but the claimant can do it; unarchiving undoes
      archiving. */
  lemma Undone(stick: Stick, change: Change, inverse: Change)
    requires (change.Claim? && inverse.Release?) || (change.Archive? && inverse.Unarchive?)
    requires Next(stick, change).Ok? && Next(Next(stick, change).value, inverse).Ok?
    ensures Next(Next(stick, change).value, inverse).value == stick.(version := stick.version + 2)
    ensures change.Claim? ==> inverse.subject == change.identity.sub
  {
    assert change.Claim? ==> stick.holder == None;
    assert change.Archive? ==> stick.archivedAt == None;
  }

  /** Which changes a well-formed stick accepts, and what becomes of each of its fields: the
      constraints are kept, the version grows by exactly one, and only the fields the
      change is about move. */
  lemma TransitionContract(stick: Stick, change: Change)
    requires WellFormedStick(stick)
    ensures Next(stick, change).Ok? <==>
            && stick.version != MAX_INT64
            && match change {
                 case Rename(name) => ValidStickName(name)
                 case Archive(_) => !stick.Archived() && stick.Available()
                 case Unarchive => stick.Archived()
                 case Claim(_, reason, _) => ValidClaimReason(reason) && !stick.Archived() && stick.Available()
                 case Release(subject, _) => stick.holder.Some? && stick.holder.value.sub == subject
               }
    ensures Next(stick, change).Ok? ==>
              var after := Next(stick, change).value;
              && WellFormedStick(after)
              && after.id == stick.id
              && after.version == stick.version + 1
              && after.name == (if change.Rename? then change.newName else stick.name)
              && after.archivedAt
                 == (if change.Archive? then Some(change.archivedAt) else if change.Unarchive? then None
                     else stick.archivedAt)
              && (if change.Release? then after.holder.None?
                  else if change.Claim? then
                    && after.holder.Some?
                    && var h := after.holder.value;
                    && h.sub == change.identity.sub && h.name == change.identity.name
                    && h.email == change.identity.email
                    && h.claimedAt == change.claimedAt && h.reason == change.reason
                  else after.holder == stick.holder)
  {
  }
}
