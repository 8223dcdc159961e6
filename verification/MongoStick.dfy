/** Sticks as MongoDB documents (internal/adapters/persistence/mongodb/transaction.go and
    model.go): saving merges fields into the stored document, where the SQL adapters
    replace a row. */
module MongoStick {
  import opened Core
  import opened Database

  datatype Value = Text(text: string) | Number(number: int) | Date(date: Time) | Null

  /** The fields of the schema, and any other a document may carry. */
  datatype Field =
    | Id | Name | Version | HolderSub | HolderName | HolderEmail | ClaimedAt | Reason | ArchivedAt
    | Extra(name: string)

  type Document = map<Field, Value>

  const HOLDER_FIELDS: seq<Field> := [HolderSub, HolderName, HolderEmail, ClaimedAt, Reason]

  datatype StickDocument = StickDocument(
    id: string, name: string, version: int,
    holderSub: Option<string>, holderName: Option<string>, holderEmail: Option<string>,
    claimedAt: Option<Time>, reason: Option<string>, archivedAt: Option<Time>)

  function StickToDocument(stick: Stick): StickDocument {
    match stick.holder
    case None => StickDocument(stick.id, stick.name, stick.version, None, None, None, None, None, stick.archivedAt)
    case Some(h) =>
      StickDocument(stick.id, stick.name, stick.version,
                    Some(h.sub), Some(h.name), Some(h.email), Some(h.claimedAt), Some(h.reason), stick.archivedAt)
  }

  function OrElse<T>(o: Option<T>, default: T): T {
    if o.Some? then o.value else default
  }

  function StickFromDocument(doc: StickDocument): Stick {
    Stick(doc.id, doc.name, doc.version, doc.archivedAt,
          if doc.holderSub.None? then None else
          Some(Holder(doc.holderSub.value, OrElse(doc.holderName, ""), OrElse(doc.holderEmail, ""),
                      OrElse(doc.claimedAt, 0), OrElse(doc.reason, ""))))
  }

  const SCHEMA: set<Field> := {Id, Name, Version, HolderSub, HolderName, HolderEmail, ClaimedAt, Reason, ArchivedAt}

  lemma SchemaIsNotExtra(field: Field)
    ensures field in SCHEMA <==> !field.Extra?
  {
  }

  function TextValue(o: Option<string>): Option<Value> {
    if o.Some? then Some(Text(o.value)) else None
  }

  function DateValue(o: Option<Time>): Option<Value> {
    if o.Some? then Some(Date(o.value)) else None
  }

  /** What a document stores in a field; nil pointers are left out. */
  function Stored(doc: StickDocument, field: Field): Option<Value> {
    match field
    case Id => Some(Text(doc.id))
    case Name => Some(Text(doc.name))
    case Version => Some(Number(doc.version))
    case HolderSub => TextValue(doc.holderSub)
    case HolderName => TextValue(doc.holderName)
    case HolderEmail => TextValue(doc.holderEmail)
    case ClaimedAt => DateValue(doc.claimedAt)
    case Reason => TextValue(doc.reason)
    case ArchivedAt => DateValue(doc.archivedAt)
    case Extra(_) => None
  }

  function Marshal(doc: StickDocument): Document {
    map field | field in SCHEMA && Stored(doc, field).Some? :: Stored(doc, field).value
  }

  predicate TextOrNothing(doc: Document, field: Field) {
    field in doc ==> doc[field].Text? || doc[field].Null?
  }

  predicate DateOrNothing(doc: Document, field: Field) {
    field in doc ==> doc[field].Date? || doc[field].Null?
  }

  function TextAt(doc: Document, field: Field): Option<string> {
    if field in doc && doc[field].Text? then Some(doc[field].text) else None
  }

  function DateAt(doc: Document, field: Field): Option<Time> {
    if field in doc && doc[field].Date? then Some(doc[field].date) else None
  }

  /** Decoding fails on a field of another type, reads null or nothing as nil or zero, and
      ignores fields it does not know. */
  function Decode(doc: Document): Option<StickDocument> {
    if TextOrNothing(doc, Id) && TextOrNothing(doc, Name)
       && (Version in doc ==> doc[Version].Number? || doc[Version].Null?)
       && TextOrNothing(doc, HolderSub) && TextOrNothing(doc, HolderName) && TextOrNothing(doc, HolderEmail)
       && DateOrNothing(doc, ClaimedAt) && TextOrNothing(doc, Reason) && DateOrNothing(doc, ArchivedAt)
    then
      Some(StickDocument(OrElse(TextAt(doc, Id), ""), OrElse(TextAt(doc, Name), ""),
                         if Version in doc && doc[Version].Number? then doc[Version].number else 0,
                         TextAt(doc, HolderSub), TextAt(doc, HolderName), TextAt(doc, HolderEmail),
                         DateAt(doc, ClaimedAt), TextAt(doc, Reason), DateAt(doc, ArchivedAt)))
    else None
  }

  function Extras(doc: Document): Document {
    map field | field in doc && field.Extra? :: doc[field]
  }

  /** The document that stands for a stick and keeps what else was in the old one. */
  function Merged(before: Document, stick: Stick): Document {
    Marshal(StickToDocument(stick)) + Extras(before)
  }

  lemma MergedAt(before: Document, stick: Stick, field: Field)
    requires !field.Extra?
    ensures field in Merged(before, stick) <==> Stored(StickToDocument(stick), field).Some?
    ensures field in Merged(before, stick) ==>
              Merged(before, stick)[field] == Stored(StickToDocument(stick), field).value
  {
    SchemaIsNotExtra(field);
  }

  /** What is stored for a stick, field by field; a free stick has no holder fields and one that
      is not archived no date, and what is foreign to the schema stays. */
  lemma StoredFields(before: Document, stick: Stick)
    ensures var doc := Merged(before, stick);
            && Id in doc && doc[Id] == Text(stick.id)
            && Name in doc && doc[Name] == Text(stick.name)
            && Version in doc && doc[Version] == Number(stick.version)
            && (match stick.archivedAt
                case None => ArchivedAt !in doc
                case Some(at) => ArchivedAt in doc && doc[ArchivedAt] == Date(at))
            && (match stick.holder
                case None =>
                  HolderSub !in doc && HolderName !in doc && HolderEmail !in doc && ClaimedAt !in doc && Reason !in doc
                case Some(h) =>
                  && HolderSub in doc && doc[HolderSub] == Text(h.sub)
                  && HolderName in doc && doc[HolderName] == Text(h.name)
                  && HolderEmail in doc && doc[HolderEmail] == Text(h.email)
                  && ClaimedAt in doc && doc[ClaimedAt] == Date(h.claimedAt)
                  && Reason in doc && doc[Reason] == Text(h.reason))
            && forall field: Field | field.Extra? ::
                 (field in doc <==> field in before) && (field in doc ==> doc[field] == before[field])
  {
    MergedAt(before, stick, Id);
    MergedAt(before, stick, Name);
    MergedAt(before, stick, Version);
    MergedAt(before, stick, HolderSub);
    MergedAt(before, stick, HolderName);
    MergedAt(before, stick, HolderEmail);
    MergedAt(before, stick, ClaimedAt);
    MergedAt(before, stick, Reason);
    MergedAt(before, stick, ArchivedAt);
    forall field: Field | field.Extra?
      ensures field !in SCHEMA
    {
      SchemaIsNotExtra(field);
    }
  }

  lemma DecodeMerged(before: Document, stick: Stick)
    ensures Decode(Merged(before, stick)) == Some(StickToDocument(stick))
  {
    StoredFields(before, stick);
    hide Merged, Marshal, StickFromDocument;
  }

  /** Reading a stick back from its own document gives the stick, whatever else is in it. */
  lemma ReadBack(before: Document, stick: Stick)
    ensures Decode(Merged(before, stick)) == Some(StickToDocument(stick))
    ensures StickFromDocument(StickToDocument(stick)) == stick
  {
    DecodeMerged(before, stick);
  }

  /** The partial update amounts to replacing the document by the stick's own if and only if
      the old one had no field outside the schema. */
  lemma UpdateIsReplacement(before: Document, stick: Stick)
    ensures Merged(before, stick) == Marshal(StickToDocument(stick))
       <==> forall field | field in before :: !field.Extra?
  {
    if field :| field in before && field.Extra? {
      assert field in Merged(before, stick);
      SchemaIsNotExtra(field);
      assert field !in Marshal(StickToDocument(stick));
    } else {
      assert Extras(before) == map[];
    }
  }

  /** The two halves of the update: what the stick's document stores, but for its key, and
      what it leaves out. */
  function Sets(doc: StickDocument): Document {
    map field | field in SCHEMA - {Id} && Stored(doc, field).Some? :: Stored(doc, field).value
  }

  function Unsets(doc: StickDocument): set<Field> {
    set field | field in SCHEMA && Stored(doc, field).None?
  }

  lemma UpdateMerges(before: Document, stick: Stick)
    requires Id in before && before[Id] == Text(stick.id)
    ensures (before + Sets(StickToDocument(stick))) - Unsets(StickToDocument(stick)) == Merged(before, stick)
  {
    var doc := StickToDocument(stick);
    forall field
      ensures field in before && field !in SCHEMA ==> field.Extra?
    {
      SchemaIsNotExtra(field);
    }
    hide Stored, StickToDocument;
    assert Stored(doc, Id) == Some(Text(stick.id)) by {
      StoredId(stick);
    }
  }

  lemma StoredId(stick: Stick)
    ensures Stored(StickToDocument(stick), Id) == Some(Text(stick.id))
  {
  }

  /** The sticks collection inside a transaction. */
  class Transaction {
    var sticks: map<string, Document>

    /** The no-op increment that locks the document writes nothing to one with a version. */
    method GetStick(id: string) returns (r: Result<Stick>)
      requires id in sticks ==> Version in sticks[id] && sticks[id][Version].Number? && Decode(sticks[id]).Some?
      modifies this
      ensures sticks == old(sticks)
      ensures r == if id in sticks then Ok(StickFromDocument(Decode(sticks[id]).value)) else Err(NotFound)
    {
      if id !in sticks {
        return Err(NotFound);
      }
      var doc := sticks[id];
      assert doc[Version := Number(doc[Version].number + 0)] == doc;
      sticks := sticks[id := doc[Version := Number(doc[Version].number + 0)]];
      r := Ok(StickFromDocument(Decode(sticks[id]).value));
    }

    method CreateStick(stick: Stick) returns (r: Result<()>)
      modifies this
      ensures r == if stick.version != 1 then Err(NotMonotonic)
                   else if stick.id in old(sticks) then Err(AlreadyExists) else Ok(())
      ensures sticks == if r.Ok? then old(sticks)[stick.id := Merged(map[], stick)] else old(sticks)
    {
      if stick.version != 1 {
        return Err(NotMonotonic);
      }
      if stick.id in sticks {
        return Err(AlreadyExists);
      }
      assert Merged(map[], stick) == Marshal(StickToDocument(stick));
      sticks := sticks[stick.id := Marshal(StickToDocument(stick))];
      r := Ok(());
    }

    /** Builds the `$set` and `$unset` halves of the update and applies them to the document
        that has the id and the expected version.  Whatever that document held, the result
        is the stick's own document plus what was foreign to the schema. */
    method SaveStick(stick: Stick, expected: int) returns (r: Result<()>)
      modifies this
      ensures r == if expected < 1 || expected == MAX_INT64 || stick.version != expected + 1 then Err(NotMonotonic)
                   else if Matches(old(sticks), stick.id, expected) then Ok(()) else Err(VersionConflict)
      ensures sticks == if r.Ok? then old(sticks)[stick.id := Merged(old(sticks)[stick.id], stick)] else old(sticks)
    {
      if expected < 1 || expected == MAX_INT64 || stick.version != expected + 1 {
        return Err(NotMonotonic);
      }
      var doc := StickToDocument(stick);
      var sets: Document := map[Name := Text(doc.name), Version := Number(doc.version)];
      var unsets: set<Field> := {};
      if doc.holderSub.None? {
        var k := 0;
        while k < |HOLDER_FIELDS|
          invariant k <= |HOLDER_FIELDS|
          invariant forall field :: field in unsets <==> field in HOLDER_FIELDS[..k]
        {
          unsets := unsets + {HOLDER_FIELDS[k]};
          k := k + 1;
        }
      } else {
        sets := sets[HolderSub := Text(doc.holderSub.value)];
        sets := sets[HolderName := Text(doc.holderName.value)];
        sets := sets[HolderEmail := Text(doc.holderEmail.value)];
        sets := sets[ClaimedAt := Date(doc.claimedAt.value)];
        sets := sets[Reason := Text(doc.reason.value)];
      }
      if doc.archivedAt.None? {
        unsets := unsets + {ArchivedAt};
      } else {
        sets := sets[ArchivedAt := Date(doc.archivedAt.value)];
      }
      HalvesAre(stick, sets, unsets);
      if !Matches(sticks, stick.id, expected) {
        return Err(VersionConflict);
      }
      UpdateMerges(sticks[stick.id], stick);
      sticks := sticks[stick.id := (sticks[stick.id] + sets) - unsets];
      r := Ok(());
    }
  }

  lemma HalvesAre(stick: Stick, sets: Document, unsets: set<Field>)
    requires forall field :: field in unsets <==>
                             || (stick.holder.None? && field in HOLDER_FIELDS)
                             || (stick.archivedAt.None? && field == ArchivedAt)
    requires forall field :: field in sets <==>
                             || field == Name || field == Version
                             || (stick.holder.Some? && field in HOLDER_FIELDS)
                             || (stick.archivedAt.Some? && field == ArchivedAt)
    requires forall field | field in sets :: Stored(StickToDocument(stick), field) == Some(sets[field])
    ensures sets == Sets(StickToDocument(stick)) && unsets == Unsets(StickToDocument(stick))
  {
  }

  /** The filter of the update. */
  predicate Matches(sticks: map<string, Document>, id: string, expected: int) {
    && id in sticks
    && Id in sticks[id] && sticks[id][Id] == Text(id)
    && Version in sticks[id] && sticks[id][Version] == Number(expected)
  }

  /** The collection holds the sticks of a table, each under its own id. */
  ghost predicate Represents(sticks: map<string, Document>, db: Tables) {
    && sticks.Keys == db.sticks.Keys
    && forall id | id in sticks ::
         && db.sticks[id].id == id
         && Id in sticks[id] && sticks[id][Id] == Text(id) && Version in sticks[id] && sticks[id][Version].Number?
         && Decode(sticks[id]).Some?
         && StickFromDocument(Decode(sticks[id]).value) == db.sticks[id]
  }

  /** Through these documents the adapter is the table: saving accepts and refuses the same
      sticks as the SQL statement, and goes on representing its result. */
  lemma SaveRefines(sticks: map<string, Document>, db: Tables, stick: Stick, expected: int)
    requires Represents(sticks, db)
    requires 1 <= expected < MAX_INT64 && stick.version == expected + 1
    ensures Matches(sticks, stick.id, expected) <==> Database.SaveStick(db, stick, expected).Ok?
    ensures Matches(sticks, stick.id, expected) ==>
              Represents(sticks[stick.id := Merged(sticks[stick.id], stick)],
                         Database.SaveStick(db, stick, expected).value)
  {
    if stick.id in sticks {
      assert Decode(sticks[stick.id]).value.version == db.sticks[stick.id].version;
      StandsFor(sticks[stick.id], stick);
    }
    hide Decode, Merged, StickFromDocument;
  }

  /** A merged document meets what Represents asks of it. */
  lemma StandsFor(before: Document, stick: Stick)
    ensures var doc := Merged(before, stick);
            && Id in doc && doc[Id] == Text(stick.id) && Version in doc && doc[Version].Number?
            && Decode(doc).Some? && StickFromDocument(Decode(doc).value) == stick
  {
    ReadBack(before, stick);
    MergedAt(before, stick, Id);
    MergedAt(before, stick, Version);
    hide Decode, Merged, StickFromDocument;
  }

  lemma CreateRefines(sticks: map<string, Document>, db: Tables, stick: Stick)
    requires Represents(sticks, db) && stick.version == 1
    ensures stick.id !in sticks <==> Database.CreateStick(db, stick).Ok?
    ensures stick.id !in sticks ==>
              Represents(sticks[stick.id := Merged(map[], stick)], Database.CreateStick(db, stick).value)
  {
    StandsFor(map[], stick);
    hide Decode, Merged, StickFromDocument;
  }
}
