/** Which requests the CTI workspace accepts, and what it takes from them: the exact condition, field by field,
    record by record and for a whole save. */
module CtiAcceptance {
  import opened Prelude
  import opened Values
  import opened CtiFields
  import opened CtiRecords
  import opened CtiProgram
  import opened CtiForms
  import opened CtiAudit
  import opened CtiStore

  // ----- fields -----

  /** The text is acceptable once the blanks around it are gone. */
  predicate Acceptable(env: Env, kind: FieldKind, newId: string, v: Value) {
    match kind
    case BoolField => v.Bool?
    case CountField => v.Int? && v.n > 0
    case IdField(generate) => v.Str? && (IsName(Strip(v.s)) || (generate && Strip(v.s) == "" && IsName(newId)))
    case TimeField(required) =>
      v.Str? && PlainString(Strip(v.s), 40, required) && (Strip(v.s) != "" ==> env.stamp(Strip(v.s)).Some?)
    case ListField(maximum, entry, nonEmpty) =>
      && v.Arr? && |v.items| <= maximum && (nonEmpty ==> v.items != [])
      && forall i :: 0 <= i < |v.items| ==> AcceptableEntry(entry, v.items[i])
    case _ => v.Str? && StoredField(env, kind, Str(Strip(v.s)))
  }

  predicate AcceptableEntry(entry: Entry, v: Value) {
    v.Str? && StoredEntry(entry, Str(Strip(v.s)))
  }

  /** What is taken: the text without the blanks around it, the list of such texts without those that repeat an
      earlier one but for case, the same instant as the clock prints it, the generated identifier for an empty
      one, or the value itself. */
  function Taken(env: Env, kind: FieldKind, newId: string, v: Value): Value {
    match kind
    case ListField(_, _, _) => if v.Arr? then Arr(Strs(Deduped(env, Stripped(v.items)))) else v
    case TimeField(_) =>
      if v.Str? && env.stamp(Strip(v.s)).Some? && Strip(v.s) != "" then Str(env.format(env.stamp(Strip(v.s)).value))
      else Str("")
    case IdField(_) => if v.Str? && Strip(v.s) != "" then Str(Strip(v.s)) else Str(newId)
    case _ => if v.Str? then Str(Strip(v.s)) else v
  }

  function Stripped(items: seq<Value>): seq<string> {
    seq(|items|, i requires 0 <= i < |items| => if items[i].Str? then Strip(items[i].s) else "")
  }

  lemma TextsAreTaken(v: Value, limit: nat, required: bool)
    ensures Text(v, limit, required)
            == if v.Str? && PlainString(Strip(v.s), limit, required) then Some(Strip(v.s)) else None
  {
    if v.Str? { TextsAreStored(Str(Strip(v.s)), limit, required); }
    hide Strip, Clean;
  }

  lemma EntryIsTaken(entry: Entry, v: Value)
    ensures EntryText(entry, v) == if AcceptableEntry(entry, v) then Some(Strip(v.s)) else None
  {
    hide Text, IsIdentifier, IsName, PlainString, Strip;
    match entry
    case TextEntry(limit) => TextsAreTaken(v, limit, true);
    case IdEntry =>
      TextsAreTaken(v, 64, false);
      if v.Str? {
        NamesAreIdentifiers(Strip(v.s));
        NamesAreText(Strip(v.s));
        RequiredOrNot(Strip(v.s), 64);
      }
  }

  lemma {:induction false} EntriesAreTaken(entry: Entry, items: seq<Value>)
    ensures EntryTexts(entry, items)
            == if forall i :: 0 <= i < |items| ==> AcceptableEntry(entry, items[i]) then Some(Stripped(items)) else None
  {
    hide EntryText, AcceptableEntry, Strip;
    if items == [] {
      assert Stripped(items) == [];
    } else {
      var n := |items| - 1;
      EntriesAreTaken(entry, items[..n]);
      EntryIsTaken(entry, items[n]);
      assert forall i :: 0 <= i < n ==> items[..n][i] == items[i];
      LastIsStripped(items);
      if AcceptableEntry(entry, items[n]) { EntriesAreText(entry, items[n]); }
    }
  }

  lemma EntriesAreText(entry: Entry, v: Value)
    requires AcceptableEntry(entry, v)
    ensures v.Str?
  {
  }

  lemma LastIsStripped(items: seq<Value>)
    requires items != []
    ensures var n := |items| - 1;
      Stripped(items) == Stripped(items[..n]) + [if items[n].Str? then Strip(items[n].s) else ""]
  {
    hide Strip;
  }

  lemma SomethingIsKept(env: Env, texts: seq<string>)
    ensures Deduped(env, texts) == [] <==> texts == []
  {
    hide Env.CaseFold, Deduped;
    DedupedIsDistinct(env, texts);
    if texts != [] { assert env.CaseFold(texts[0]) in FoldKeys(env, texts); } else { NothingListed(env, IdEntry); }
  }

  lemma ListsAreTaken(env: Env, maximum: nat, entry: Entry, nonEmpty: bool, newId: string, v: Value)
    ensures var kind := ListField(maximum, entry, nonEmpty);
      Field(env, kind, newId, v) == if Acceptable(env, kind, newId, v) then Some(Taken(env, kind, newId, v)) else None
  {
    hide EntryTexts, Deduped, AcceptableEntry, Strip, Strs;
    if v.Arr? {
      EntriesAreTaken(entry, v.items);
      assert |Stripped(v.items)| == |v.items|;
      hide Stripped;
      SomethingIsKept(env, Stripped(v.items));
    }
  }

  /** A field is accepted exactly when it is acceptable, and then stores what is taken. */
  lemma FieldsAreTaken(env: Env, kind: FieldKind, newId: string, v: Value)
    ensures Field(env, kind, newId, v)
            == if Acceptable(env, kind, newId, v) then Some(Taken(env, kind, newId, v)) else None
  {
    hide Text, PlainString, IsIdentifier, IsSecretReference, IsName, IsVariableName, IsSha256, TextList, Strip, Strs,
      Stripped, Deduped, AcceptableEntry;
    var s := if v.Str? then Strip(v.s) else "";
    NamesAreIdentifiers(s);
    NamesAreIdentifiers(newId);
    NamesAreText(s);
    NamesAreText("");
    EmptyIsNoIdentifier();
    NamesAreIdentifiers("");
    match kind
    case TextField(limit, required) => TextsAreTaken(v, limit, required);
    case EnumField(_, _) => TextsAreTaken(v, 64, true);
    case IdField(_) => TextsAreTaken(v, 64, false); RequiredOrNot(s, 64); LongerText("", 64, 64); NothingIsPlain();
    case DateField => TextsAreTaken(v, 10, false);
    case EndpointField => TextsAreTaken(v, 500, false);
    case SecretField => TextsAreTaken(v, 80, false); RequiredOrNot(s, 80); NothingIsPlain();
    case FailureField => TextsAreTaken(v, 120, false); LongerText(s, 64, 120); NothingIsPlain();
    case TimeField(required) => TextsAreTaken(v, 40, required);
    case ReferenceField => TextsAreTaken(v, 500, true);
    case DigestField => TextsAreTaken(v, 64, true);
    case ListField(maximum, entry, nonEmpty) => ListsAreTaken(env, maximum, entry, nonEmpty, newId, v);
    case _ =>
  }

  lemma NothingIsPlain()
    ensures PlainString("", 64, false) && PlainString("", 80, false) && PlainString("", 120, false)
  {
  }

  // ----- records -----

  /** Every member of the table is acceptable; a missing one counts as its fallback. */
  predicate AcceptableMembers(env: Env, table: map<Key, FieldKind>, newId: string, f: Fields) {
    forall k :: k in table ==> Acceptable(env, table[k], newId, Get(f, k, Fallback(table[k])))
  }

  function TakenMembers(env: Env, table: map<Key, FieldKind>, newId: string, f: Fields): Fields {
    map k | k in table :: Taken(env, table[k], newId, Get(f, k, Fallback(table[k])))
  }

  predicate AcceptableRecord(env: Env, table: map<Key, FieldKind>, newId: string, v: Value) {
    v.Obj? && v.fields.Keys <= table.Keys && AcceptableMembers(env, table, newId, v.fields)
  }

  function TakenRecord(env: Env, table: map<Key, FieldKind>, newId: string, v: Value): Fields {
    if v.Obj? then TakenMembers(env, table, newId, v.fields) else map[]
  }

  lemma MembersAreTaken(env: Env, table: map<Key, FieldKind>, newId: string, f: Fields)
    ensures Filled(env, table, newId, f)
            == if AcceptableMembers(env, table, newId, f) then Some(TakenMembers(env, table, newId, f)) else None
  {
    hide Field, Fallback, Acceptable, Taken;
    forall k | k in table
      ensures var v := Get(f, k, Fallback(table[k]));
        Field(env, table[k], newId, v)
        == if Acceptable(env, table[k], newId, v) then Some(Taken(env, table[k], newId, v)) else None
    {
      FieldsAreTaken(env, table[k], newId, Get(f, k, Fallback(table[k])));
    }
    if AcceptableMembers(env, table, newId, f) {
      assert TakenMembers(env, table, newId, f)
          == map k | k in table :: Field(env, table[k], newId, Get(f, k, Fallback(table[k]))).value;
    }
  }

  /** A record is accepted exactly when it has no other member than its table's and all are acceptable. */
  lemma RecordsAreTaken(env: Env, table: map<Key, FieldKind>, newId: string, v: Value)
    ensures Record(env, table, newId, v)
            == if AcceptableRecord(env, table, newId, v) then Some(TakenRecord(env, table, newId, v)) else None
  {
    hide Filled, AcceptableMembers, TakenMembers;
    if v.Obj? { MembersAreTaken(env, table, newId, v.fields); }
  }

  predicate AcceptableRecords(env: Env, table: map<Key, FieldKind>, items: seq<Value>) {
    forall i :: 0 <= i < |items| ==> AcceptableRecord(env, table, "", items[i])
  }

  function TakenRecords(env: Env, table: map<Key, FieldKind>, items: seq<Value>): seq<Fields> {
    seq(|items|, i requires 0 <= i < |items| => TakenRecord(env, table, "", items[i]))
  }

  lemma {:induction false} SubRecordsAreTaken(env: Env, table: map<Key, FieldKind>, items: seq<Value>)
    ensures PlainRecords(env, table, items)
            == if AcceptableRecords(env, table, items) then Some(TakenRecords(env, table, items)) else None
  {
    hide Record, AcceptableRecord, TakenRecord;
    if items == [] {
      assert TakenRecords(env, table, items) == [];
    } else {
      SubRecordsAreTaken(env, table, items[1..]);
      RecordsAreTaken(env, table, "", items[0]);
      assert forall i :: 1 <= i < |items| ==> items[1..][i - 1] == items[i];
      FirstIsTaken(env, table, items);
      if AcceptableRecord(env, table, "", items[0]) && AcceptableRecords(env, table, items[1..]) {
        assert AcceptableRecords(env, table, items);
      }
    }
  }

  lemma FirstIsTaken(env: Env, table: map<Key, FieldKind>, items: seq<Value>)
    requires items != []
    ensures TakenRecords(env, table, items)
            == [TakenRecord(env, table, "", items[0])] + TakenRecords(env, table, items[1..])
  {
    hide TakenRecord;
  }

  function NestedItems(f: Fields, key: Key): Value {
    if key in f then f[key] else Arr([])
  }

  predicate AcceptableNested(env: Env, table: map<Key, FieldKind>, maximum: nat, v: Value) {
    v.Arr? && |v.items| <= maximum && AcceptableRecords(env, table, v.items)
  }

  /** An intelligence record: its own members, at most fifty pieces of evidence and a hundred entities. */
  predicate AcceptableIntelligence(env: Env, newId: string, v: Value) {
    && v.Obj? && v.fields.Keys <= INTELLIGENCE.Keys + {Evidence, Entities}
    && AcceptableMembers(env, INTELLIGENCE, newId, v.fields)
    && AcceptableNested(env, EVIDENCE, 50, NestedItems(v.fields, Evidence))
    && AcceptableNested(env, ENTITY, 100, NestedItems(v.fields, Entities))
  }

  function TakenIntelligence(env: Env, newId: string, v: Value): Fields
    requires AcceptableIntelligence(env, newId, v)
  {
    TakenMembers(env, INTELLIGENCE, newId, v.fields)
      [Evidence := Arr(Objs(TakenRecords(env, EVIDENCE, NestedItems(v.fields, Evidence).items)))]
      [Entities := Arr(Objs(TakenRecords(env, ENTITY, NestedItems(v.fields, Entities).items)))]
  }

  lemma IntelligenceIsTaken(env: Env, newId: string, v: Value)
    ensures IntelligenceRecord(env, newId, v)
            == if AcceptableIntelligence(env, newId, v) then Some(TakenIntelligence(env, newId, v)) else None
  {
    hide Filled, PlainRecords, AcceptableMembers, TakenMembers, AcceptableRecords, TakenRecords, Objs, INTELLIGENCE,
      EVIDENCE, ENTITY;
    if v.Obj? {
      MembersAreTaken(env, INTELLIGENCE, newId, v.fields);
      var evidence, entities := NestedItems(v.fields, Evidence), NestedItems(v.fields, Entities);
      if evidence.Arr? { SubRecordsAreTaken(env, EVIDENCE, evidence.items); }
      if entities.Arr? { SubRecordsAreTaken(env, ENTITY, entities.items); }
    }
  }

  // ----- items and collections -----

  /** The record is what is taken from the item, which is acceptable. */
  ghost predicate ItemGives(env: Env, c: Collection, newId: string, v: Value, r: Fields) {
    match c
    case SourceCollection => AcceptableRecord(env, SOURCE, newId, v) && r == TakenRecord(env, SOURCE, newId, v)
    case TechnologyCollection =>
      AcceptableRecord(env, TECHNOLOGY, newId, v) && r == TakenRecord(env, TECHNOLOGY, newId, v)
    case RequirementCollection =>
      AcceptableRecord(env, REQUIREMENT, newId, v) && r == TakenRecord(env, REQUIREMENT, newId, v)
    case IntelligenceCollection =>
      AcceptableIntelligence(env, newId, v) && r == TakenIntelligence(env, newId, v)
  }

  lemma ItemsAreTaken(env: Env, c: Collection, newId: string, v: Value, r: Fields)
    requires env.Lawful()
    ensures Item(env, c, newId, v) == Some(r) <==> ItemGives(env, c, newId, v, r) && StoredItem(env, c, r)
  {
    hide Record, IntelligenceRecord, CollectionStateOk, IntelligenceOk, StoredRecord, StoredIntelligence,
      AcceptableRecord, TakenRecord, AcceptableIntelligence, TakenIntelligence,
      SourceConsistent, IntelligenceConsistent, Env.Lawful, SOURCE, TECHNOLOGY, REQUIREMENT;
    ItemIsFixed(env, c, newId, newId, v);
    ItemsAreStored(env, c, newId, r);
    match c
    case SourceCollection =>
      RecordsAreTaken(env, SOURCE, newId, v);
      if StoredRecord(env, SOURCE, r) { SourcesAreChecked(env, r); }
    case TechnologyCollection => RecordsAreTaken(env, TECHNOLOGY, newId, v);
    case RequirementCollection => RecordsAreTaken(env, REQUIREMENT, newId, v);
    case IntelligenceCollection =>
      IntelligenceIsTaken(env, newId, v);
      if StoredIntelligence(env, r) { IntelligenceIsChecked(env, r); }
  }

  /** The records are what is taken from the list, item by item. */
  ghost predicate ListGives(env: Env, c: Collection, ids: IdSource, v: Value, records: seq<Fields>) {
    && v.Arr? && |records| == |v.items|
    && forall i :: 0 <= i < |records| ==> ItemGives(env, c, ids(c, i), v.items[i], records[i])
  }

  lemma {:induction false} ItemListsAreTaken(env: Env, c: Collection, ids: IdSource, items: seq<Value>,
                                             records: seq<Fields>)
    requires env.Lawful()
    ensures ItemList(env, c, ids, items) == Some(records)
            <==> && ListGives(env, c, ids, Arr(items), records)
                 && forall i :: 0 <= i < |records| ==> StoredItem(env, c, records[i])
  {
    hide Item, ItemGives, StoredItem, Env.Lawful;
    if items == [] || records == [] {
    } else {
      var n, m := |items| - 1, |records| - 1;
      ItemListsAreTaken(env, c, ids, items[..n], records[..m]);
      ItemsAreTaken(env, c, ids(c, n), items[n], records[m]);
      assert records == records[..m] + [records[m]];
      assert forall i :: 0 <= i < n ==> items[..n][i] == items[i];
      assert forall i :: 0 <= i < m ==> records[..m][i] == records[i];
      if ItemList(env, c, ids, items) == Some(records) {
        LastApart(ItemList(env, c, ids, items[..n]).value, Item(env, c, ids(c, n), items[n]).value, records);
      }
    }
  }

  /** A collection is accepted as these records exactly when they are taken from it and are a collection in
      stored form. */
  lemma CollectionsAreTaken(env: Env, c: Collection, ids: IdSource, v: Value, records: seq<Fields>)
    requires env.Lawful()
    ensures CollectionOf(env, c, ids, v) == Some(records)
            <==> ListGives(env, c, ids, v, records) && StoredCollection(env, c, records)
  {
    hide ItemList, StoredItem, ItemGives, Distinct, NoIdTwice, NameKey, Env.Lawful;
    if v.Arr? {
      ItemListsAreTaken(env, c, ids, v.items, records);
      assert v == Arr(v.items);
    }
    DistinctIds(records);
    DistinctNames(env, c, records);
  }

  // ----- a save -----

  /** The four collections are taken from the request: no sources and no technologies where it does not mention
      them, the current requirements and intelligence where it does not mention those. */
  ghost predicate RequestGives(env: Env, ids: IdSource, f: Fields, current: Program, q: Program) {
    && ListGives(env, SourceCollection, ids, Get(f, Sources, Arr([])), q.sources)
    && ListGives(env, TechnologyCollection, ids, Get(f, Technologies, Arr([])), q.technologies)
    && ListGives(env, RequirementCollection, ids, Get(f, Requirements, Arr(Objs(current.requirements))), q.requirements)
    && ListGives(env, IntelligenceCollection, ids, Get(f, Intelligence, Arr(Objs(current.intelligence))),
                 q.intelligence)
  }

  lemma ContentsAreTaken(env: Env, ids: IdSource, g: Fields, q: Program)
    requires env.Lawful()
    ensures Contents(env, ids, g) == Some(Bare(q)) <==>
      && ListGives(env, SourceCollection, ids, Get(g, Sources, Arr([])), q.sources)
      && ListGives(env, TechnologyCollection, ids, Get(g, Technologies, Arr([])), q.technologies)
      && ListGives(env, RequirementCollection, ids, Get(g, Requirements, Arr([])), q.requirements)
      && ListGives(env, IntelligenceCollection, ids, Get(g, Intelligence, Arr([])), q.intelligence)
      && WellFormed(env, q)
  {
    hide CollectionOf, LinksOk, ListGives, StoredCollection, Linked, Env.Lawful;
    CollectionsAreTaken(env, SourceCollection, ids, Get(g, Sources, Arr([])), q.sources);
    CollectionsAreTaken(env, TechnologyCollection, ids, Get(g, Technologies, Arr([])), q.technologies);
    CollectionsAreTaken(env, RequirementCollection, ids, Get(g, Requirements, Arr([])), q.requirements);
    CollectionsAreTaken(env, IntelligenceCollection, ids, Get(g, Intelligence, Arr([])), q.intelligence);
    LinksAreAllMet(q);
    FourCollections(env, q);
  }

  lemma SubmittedCollections(f: Fields, current: Program, expected: nat)
    ensures var g := Submitted(f, current, expected).fields;
      && Get(g, Sources, Arr([])) == Get(f, Sources, Arr([]))
      && Get(g, Technologies, Arr([])) == Get(f, Technologies, Arr([]))
      && Get(g, Requirements, Arr([])) == Get(f, Requirements, Arr(Objs(current.requirements)))
      && Get(g, Intelligence, Arr([])) == Get(f, Intelligence, Arr(Objs(current.intelligence)))
  {
  }

  /** A request gets a candidate with these contents exactly when they are taken from it and well formed, so it
      is rejected exactly when what it gives is not acceptable or not well formed. */
  lemma CandidatesAreTaken(w: World, ids: IdSource, f: Fields, current: Program, expected: nat, now: string,
                           q: Program)
    requires w.env.Lawful() && LoadsAsItself(w.env, current)
    ensures var r := SaveCandidate(w, ids, f, current, expected, now);
      (r.Some? && Bare(r.value) == Bare(q)) <==> RequestGives(w.env, ids, f, current, q) && WellFormed(w.env, q)
  {
    hide Contents, HistoryOf, Text, ContentsFixed, Submitted, LoadsAsItself, Env.Lawful, CarriesIdentifiers,
      AppendAuditEvent, ListGives, WellFormed;
    LoadedParts(w.env, current);
    SubmittedParts(f, current, expected);
    SubmittedCollections(f, current, expected);
    ContentsAreTaken(w.env, ids, Submitted(f, current, expected).fields, q);
    NoTextIsText(40);
  }

  /** The request, made on this workspace, gives this well-formed one. */
  ghost predicate StepGives(w: World, step: Step, current: Program, q: Program) {
    step.payload.Obj? && RequestGives(w.env, step.ids, step.payload.fields, current, q) && WellFormed(w.env, q)
  }

  lemma SaveOfRequest(w: World, file: File, step: Step, current: Program)
    requires Load(w, step.loadIds, file) == Some(current)
    requires ExpectedRevisionOf(step.payload) == Some(current.revision)
    ensures step.payload.Obj?
    ensures var r := SaveCandidate(w, step.ids, step.payload.fields, current, current.revision, step.now);
      var outcome := Save(w, file, step);
      && (outcome.Rejected? <==> r.None?)
      && (r.Some? ==> outcome == Saved(r.value) || outcome.TooLarge? || outcome.WriteFailed?)
  {
    hide SaveCandidate, Load, Program.ToJson, ExpectedRevisionOf;
    RequestIsAnObject(step.payload);
  }

  lemma RequestIsAnObject(payload: Value)
    ensures ExpectedRevisionOf(payload).Some? ==> payload.Obj?
  {
  }

  lemma RequestDecides(w: World, file: File, step: Step, current: Program, q: Program)
    requires w.Lawful() && Load(w, step.loadIds, file) == Some(current) && step.payload.Obj?
    ensures var r := SaveCandidate(w, step.ids, step.payload.fields, current, current.revision, step.now);
      r.Some? && Bare(r.value) == Bare(q) <==> StepGives(w, step, current, q)
  {
    hide SaveCandidate, Load, LoadsAsItself, WellFormed, RequestGives, World.Lawful, Bare;
    LoadsInStoredForm(w, step.loadIds, file);
    LawsOf(w);
    CandidatesAreTaken(w, step.ids, step.payload.fields, current, current.revision, step.now, q);
  }

  /** A request for the revision in force is rejected exactly when there is no well-formed workspace it gives; the
      one it gives is saved if it fits and can be written. */
  lemma RejectedExactly(w: World, file: File, step: Step, current: Program)
    requires w.Lawful() && Load(w, step.loadIds, file) == Some(current)
    requires ExpectedRevisionOf(step.payload) == Some(current.revision)
    ensures Save(w, file, step).Rejected? <==> forall q :: !StepGives(w, step, current, q)
    ensures forall q :: StepGives(w, step, current, q) ==>
              match Save(w, file, step)
              case Saved(p) => Bare(p) == Bare(q)
              case outcome => outcome.TooLarge? || outcome.WriteFailed?
  {
    hide Save, SaveCandidate, Load, StepGives, World.Lawful, ExpectedRevisionOf, Bare;
    SaveOfRequest(w, file, step, current);
    var r := SaveCandidate(w, step.ids, step.payload.fields, current, current.revision, step.now);
    forall q { RequestDecides(w, file, step, current, q); }
    if r.Some? { assert StepGives(w, step, current, r.value); }
  }
}
