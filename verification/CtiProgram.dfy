/** The CTI workspace document: uniqueness, references between collections, and normalisation. */
module CtiProgram {
  import opened Prelude
  import opened Values
  import opened CtiFields
  import opened CtiRecords

  datatype Program = Program(revision: nat, updatedAt: string, sources: seq<Fields>, technologies: seq<Fields>,
                             requirements: seq<Fields>, intelligence: seq<Fields>, history: seq<Fields>)
  {
    function Items(c: Collection): seq<Fields> {
      match c
      case SourceCollection => sources
      case TechnologyCollection => technologies
      case RequirementCollection => requirements
      case IntelligenceCollection => intelligence
    }

    /** The stored JSON document. */
    function ToJson(): (v: Value)
      ensures v.Obj?
    {
      Obj(map[
        SchemaVersion := Int(1), Revision := Int(revision), UpdatedAt := Str(updatedAt),
        Sources := Arr(Objs(sources)), Technologies := Arr(Objs(technologies)),
        Requirements := Arr(Objs(requirements)), Intelligence := Arr(Objs(intelligence)),
        AuditHistory := Arr(Objs(history))])
    }
  }

  const MAX_AUDIT_HISTORY := 100

  // ----- one collection -----

  /** Identifiers generated for records without one, by collection and position. */
  type IdSource = (Collection, nat) -> string

  function ItemList(env: Env, c: Collection, ids: IdSource, items: seq<Value>): Option<seq<Fields>> {
    if items == [] then Some([])
    else
      var n := |items| - 1;
      var front := ItemList(env, c, ids, items[..n]);
      var last := Item(env, c, ids(c, n), items[n]);
      if front.Some? && last.Some? then Some(front.value + [last.value]) else None
  }

  lemma {:induction false} ItemListIsFixed(env: Env, c: Collection, ids: IdSource, otherIds: IdSource,
      items: seq<Value>)
    requires env.Lawful()
    ensures var r := ItemList(env, c, ids, items);
      r.Some? ==> |r.value| == |items| && ItemList(env, c, otherIds, Objs(r.value)) == r
  {
    hide Item, Env.Lawful;
    var r := ItemList(env, c, ids, items);
    if items == [] {
      assert Objs([]) == [];
    } else if r.Some? {
      var n := |items| - 1;
      ItemListIsFixed(env, c, ids, otherIds, items[..n]);
      ItemIsFixed(env, c, ids(c, n), otherIds(c, n), items[n]);
      assert Objs(r.value)[..n] == Objs(r.value[..n]);
      assert r.value[..n] + [r.value[n]] == r.value;
    }
  }

  /** The second key that must not repeat: names and titles compared without case. */
  function NameKey(env: Env, c: Collection, r: Fields): seq<string> {
    match c
    case SourceCollection => [env.CaseFold(TextAt(r, Name))]
    case TechnologyCollection => [env.CaseFold(TextAt(r, Vendor)), env.CaseFold(TextAt(r, Product))]
    case RequirementCollection => []
    case IntelligenceCollection => [env.CaseFold(TextAt(r, DeduplicationKey))]
  }

  function NameKeys(env: Env, c: Collection, records: seq<Fields>): seq<seq<string>> {
    seq(|records|, i requires 0 <= i < |records| => NameKey(env, c, records[i]))
  }

  predicate Unique(env: Env, c: Collection, records: seq<Fields>) {
    Distinct(Ids(records)) && (c.RequirementCollection? || Distinct(NameKeys(env, c, records)))
  }

  lemma DistinctPrefix<T>(s: seq<T>, n: nat)
    requires n < |s|
    ensures Distinct(s[..n + 1]) <==> Distinct(s[..n]) && s[n] !in s[..n]
  {
    var a, b := s[..n], s[..n + 1];
    assert forall i :: 0 <= i < n ==> b[i] == a[i];
    assert b[n] == s[n];
    assert s[n] in a <==> exists i :: 0 <= i < n && b[i] == b[n];
  }

  lemma NotDistinctStays<T>(s: seq<T>, n: nat)
    requires n <= |s| && !Distinct(s[..n])
    ensures !Distinct(s)
  {
    var i, j :| 0 <= i < j < n && s[..n][i] == s[..n][j];
    assert s[i] == s[j];
  }

  /** The uniqueness loop: stops at the first record whose id or name was seen. */
  method RequireUnique(env: Env, c: Collection, records: seq<Fields>) returns (ok: bool)
    ensures ok <==> Unique(env, c, records)
  {
    hide Distinct, NameKey, TextAt;
    ghost var ids, names := Ids(records), NameKeys(env, c, records);
    var seenIds: set<string>, seenNames: set<seq<string>> := {}, {};
    assert Distinct(ids[..0]) && Distinct(names[..0]) by { NothingRepeats(ids[..0]); NothingRepeats(names[..0]); }
    for n := 0 to |records|
      invariant Distinct(ids[..n]) && (c.RequirementCollection? || Distinct(names[..n]))
      invariant forall s :: s in seenIds <==> s in ids[..n]
      invariant forall s :: s in seenNames <==> s in names[..n]
    {
      var id, name := TextAt(records[n], Id), NameKey(env, c, records[n]);
      assert id == ids[n] && name == names[n];
      DistinctPrefix(ids, n);
      DistinctPrefix(names, n);
      if id in seenIds || (!c.RequirementCollection? && name in seenNames) {
        if id in seenIds { NotDistinctStays(ids, n + 1); } else { NotDistinctStays(names, n + 1); }
        return false;
      }
      seenIds, seenNames := seenIds + {id}, seenNames + {name};
      assert ids[..n + 1] == ids[..n] + [id] && names[..n + 1] == names[..n] + [name];
    }
    assert ids[..|records|] == ids && names[..|records|] == names;
    ok := true;
  }

  lemma NothingRepeats<T>(s: seq<T>)
    requires s == []
    ensures Distinct(s)
  {
  }

  /** A collection member: a bounded list of valid, unique records. */
  function CollectionOf(env: Env, c: Collection, ids: IdSource, v: Value): Option<seq<Fields>> {
    if !v.Arr? || |v.items| > Limit(c) then None
    else
      var r := ItemList(env, c, ids, v.items);
      if r.Some? && Unique(env, c, r.value) then r else None
  }

  lemma CollectionIsFixed(env: Env, c: Collection, ids: IdSource, otherIds: IdSource, v: Value)
    requires env.Lawful()
    ensures var r := CollectionOf(env, c, ids, v);
      r.Some? ==> CollectionOf(env, c, otherIds, Arr(Objs(r.value))) == r
  {
    hide ItemList, Unique, Env.Lawful;
    if CollectionOf(env, c, ids, v).Some? {
      ItemListIsFixed(env, c, ids, otherIds, v.items);
    }
  }

  // ----- references between collections -----

  function IdSet(records: seq<Fields>): set<string> {
    set r | r in records :: TextAt(r, Id)
  }

  /** Everything one intelligence record refers to is admitted, and linked by the record itself. */
  predicate LinksOf(r: Fields, sourceIds: set<string>, requirementIds: set<string>, technologyIds: set<string>) {
    && TextsAt(r, SourceIds) <= sourceIds
    && TextsAt(r, RequirementIds) <= requirementIds
    && TextsAt(r, AffectedTechnologyIds) <= technologyIds
    && (forall e <- RecordsAt(r, Evidence) :: TextAt(e, SourceId) in TextsAt(r, SourceIds))
    && (forall e <- RecordsAt(r, Entities) ::
          && TextsAt(e, EvidenceIds) <= IdSet(RecordsAt(r, Evidence))
          && TextsAt(e, AffectedTechnologyIds) <= TextsAt(r, AffectedTechnologyIds))
  }

  predicate LinksOk(intelligence: seq<Fields>, sources: seq<Fields>, requirements: seq<Fields>,
      technologies: seq<Fields>) {
    forall r <- intelligence :: LinksOf(r, IdSet(sources), IdSet(requirements), IdSet(technologies))
  }

  // ----- audit history -----

  function HistoryOf(env: Env, v: Value): Option<seq<Fields>> {
    SubRecords(env, AUDIT_ENTRY, MAX_AUDIT_HISTORY, v)
  }

  // ----- the document -----

  /** `schema_version != 1`: Python also takes true and 1.0 for 1. */
  predicate IsSchemaOne(v: Value) {
    v == Int(1) || v == Bool(true) || v == Float(1.0)
  }

  const PROGRAM_KEYS: set<Key> :=
    {SchemaVersion, Revision, UpdatedAt, Sources, Technologies, Requirements, Intelligence, AuditHistory}

  /** normalize_program; None wherever the source raises. */
  function NormalizeProgram(env: Env, ids: IdSource, v: Value, stored: bool): Option<Program> {
    if !v.Obj? || !(v.fields.Keys <= PROGRAM_KEYS) then None
    else
      var f := v.fields;
      var revision := Get(f, Revision, Int(0));
      var updatedAt := Text(Get(f, UpdatedAt, Str("")), 40, false);
      var history := HistoryOf(env, Get(f, AuditHistory, Arr([])));
      if !IsSchemaOne(Get(f, SchemaVersion, Int(1))) || !revision.Int? || revision.n < 0 || updatedAt.None?
        || history.None? then None
      else
        var contents: Option<Program> := Contents(env, ids, f);
        if contents.None? then None
        else Some(contents.value.(
          revision := revision.n, updatedAt := if stored then updatedAt.value else "", history := history.value))
  }

  /** The four collections and their references. */
  function Contents(env: Env, ids: IdSource, f: Fields): (r: Option<Program>)
    ensures r.Some? ==> Bare(r.value) == r.value
  {
    var sources := CollectionOf(env, SourceCollection, ids, Get(f, Sources, Arr([])));
    var technologies := CollectionOf(env, TechnologyCollection, ids, Get(f, Technologies, Arr([])));
    var requirements := CollectionOf(env, RequirementCollection, ids, Get(f, Requirements, Arr([])));
    var intelligence := CollectionOf(env, IntelligenceCollection, ids, Get(f, Intelligence, Arr([])));
    if sources.None? || technologies.None? || requirements.None? || intelligence.None?
      || !LinksOk(intelligence.value, sources.value, requirements.value, technologies.value) then None
    else Some(Program(0, "", sources.value, technologies.value, requirements.value, intelligence.value, []))
  }

  /** What the four collections contain, apart from revision, time and history. */
  function Bare(p: Program): Program {
    p.(revision := 0, updatedAt := "", history := [])
  }

  /** The collections are stored in the form normalisation gives them. */
  ghost predicate ContentsFixed(env: Env, p: Program) {
    forall ids :: Contents(env, ids, p.ToJson().fields) == Some(Bare(p))
  }

  lemma ContentsAreFixed(env: Env, ids: IdSource, f: Fields, p: Program)
    requires env.Lawful()
    requires Contents(env, ids, f).Some? && Contents(env, ids, f).value == Bare(p)
    ensures ContentsFixed(env, p)
  {
    hide CollectionOf, LinksOk, Env.Lawful;
    var g := p.ToJson().fields;
    assert g[Sources] == Arr(Objs(p.sources)) && g[Technologies] == Arr(Objs(p.technologies));
    assert g[Requirements] == Arr(Objs(p.requirements)) && g[Intelligence] == Arr(Objs(p.intelligence));
    forall otherIds
      ensures Contents(env, otherIds, g) == Some(Bare(p))
    {
      CollectionIsFixed(env, SourceCollection, ids, otherIds, Get(f, Sources, Arr([])));
      CollectionIsFixed(env, TechnologyCollection, ids, otherIds, Get(f, Technologies, Arr([])));
      CollectionIsFixed(env, RequirementCollection, ids, otherIds, Get(f, Requirements, Arr([])));
      CollectionIsFixed(env, IntelligenceCollection, ids, otherIds, Get(f, Intelligence, Arr([])));
    }
  }

  /** A document that loads as itself, whatever identifiers are generated meanwhile. */
  ghost predicate LoadsAsItself(env: Env, p: Program) {
    forall ids :: NormalizeProgram(env, ids, p.ToJson(), true) == Some(p)
  }

  lemma DocumentParts(p: Program)
    ensures p.ToJson().fields.Keys <= PROGRAM_KEYS
    ensures {Revision, SchemaVersion, UpdatedAt, AuditHistory} <= p.ToJson().fields.Keys
    ensures p.ToJson().fields[Revision] == Int(p.revision) && p.ToJson().fields[SchemaVersion] == Int(1)
    ensures p.ToJson().fields[UpdatedAt] == Str(p.updatedAt) && p.ToJson().fields[AuditHistory] == Arr(Objs(p.history))
  {
  }

  /** Collections in normal form: the document loads as itself exactly when its time and history do. */
  lemma LoadsAsItselfWhen(env: Env, p: Program)
    requires ContentsFixed(env, p)
    ensures LoadsAsItself(env, p) <==>
      Text(Str(p.updatedAt), 40, false) == Some(p.updatedAt) && HistoryOf(env, Arr(Objs(p.history))) == Some(p.history)
  {
    hide Contents, HistoryOf, Text, Program.ToJson;
    DocumentParts(p);
    if LoadsAsItself(env, p) {
      var ids: IdSource := (c, n) => "";
      assert NormalizeProgram(env, ids, p.ToJson(), true) == Some(p);
    } else if Text(Str(p.updatedAt), 40, false) == Some(p.updatedAt)
      && HistoryOf(env, Arr(Objs(p.history))) == Some(p.history) {
      forall ids ensures NormalizeProgram(env, ids, p.ToJson(), true) == Some(p) {
        assert Contents(env, ids, p.ToJson().fields) == Some(Bare(p));
      }
    }
  }

  lemma HistoryIsFixed(env: Env, v: Value)
    requires env.Lawful()
    ensures var r := HistoryOf(env, v);
      r.Some? ==> HistoryOf(env, Arr(Objs(r.value))) == r
  {
    hide PlainRecords, Env.Lawful;
    if HistoryOf(env, v).Some? { PlainRecordsAreFixed(env, AUDIT_ENTRY, v.items); }
  }

  /** Normalisation is a fixed point on its own output: whatever it returns loads as itself. */
  lemma NormalizationIsFixed(env: Env, ids: IdSource, v: Value, stored: bool)
    requires env.Lawful()
    ensures var r := NormalizeProgram(env, ids, v, stored);
      r.Some? ==> ContentsFixed(env, r.value) && LoadsAsItself(env, r.value)
  {
    hide Contents, HistoryOf, Text, Env.Lawful, ContentsFixed, LoadsAsItself;
    var r := NormalizeProgram(env, ids, v, stored);
    if r.Some? {
      ContentsAreFixed(env, ids, v.fields, r.value);
      HistoryIsFixed(env, Get(v.fields, AuditHistory, Arr([])));
      TextIsFixed(Get(v.fields, UpdatedAt, Str("")), 40, false);
      NoTextIsText(40);
      LoadsAsItselfWhen(env, r.value);
    }
  }

  lemma NoTextIsText(limit: nat)
    ensures Text(Str(""), limit, false) == Some("")
  {
  }
}
