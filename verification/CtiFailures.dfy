/** Concrete worlds: one in which every law holds, and two in which a saved workspace does not load. */
module CtiFailures {
  import opened Prelude
  import opened Values
  import opened CtiFields
  import opened CtiRecords
  import opened CtiProgram
  import opened CtiAudit
  import opened CtiStore

  // ----- a world with the laws -----

  function Zeros(): (s: string)
    ensures IsSha256(s)
  {
    seq(64, i => '0')
  }

  /** The one time of this world. */
  const NOW := "now"

  const PLAIN_ENV := Env(
    c => [c], s => true, s => true, s => true, s => if s == NOW then Some(0) else None, t => NOW)

  const EMPTY := Program(0, "", [], [], [], [], [])

  const PLAIN_WORLD := World(PLAIN_ENV, Digests(r => Zeros(), p => Zeros()), v => 0, EMPTY)

  lemma NowIsStored()
    ensures PLAIN_ENV.Lawful() && StoredTime(PLAIN_ENV, NOW)
  {
    hide Strip;
    var now := NOW;
    assert Tight(now) && Clean(now) && |now| == 3;
    assert Text(Str(now), 40, true) == Some(now);
  }

  lemma EmptyCollection(env: Env, c: Collection, ids: IdSource)
    ensures CollectionOf(env, c, ids, Arr([])) == Some([])
  {
    NothingRepeats(Ids([]));
    NothingRepeats(NameKeys(env, c, []));
  }

  /** A workspace that holds nothing but technologies loads as itself when they read back. */
  lemma TechnologiesLoad(p: Program)
    requires p == EMPTY.(technologies := p.technologies)
    requires forall ids ::
      CollectionOf(PLAIN_ENV, TechnologyCollection, ids, Arr(Objs(p.technologies))) == Some(p.technologies)
    ensures LoadsAsItself(PLAIN_ENV, p)
  {
    hide CollectionOf, Contents, LoadsAsItself;
    forall ids ensures Contents(PLAIN_ENV, ids, p.ToJson().fields) == Some(Bare(p)) {
      TechnologyContents(p, ids);
    }
    NoTextIsText(40);
    NoHistory(PLAIN_ENV);
    LoadsAsItselfWhen(PLAIN_ENV, p);
  }

  lemma TechnologyContents(p: Program, ids: IdSource)
    requires p == EMPTY.(technologies := p.technologies)
    requires CollectionOf(PLAIN_ENV, TechnologyCollection, ids, Arr(Objs(p.technologies))) == Some(p.technologies)
    ensures Contents(PLAIN_ENV, ids, p.ToJson().fields) == Some(Bare(p))
  {
    hide CollectionOf;
    assert Objs([]) == [];
    EmptyCollection(PLAIN_ENV, SourceCollection, ids);
    EmptyCollection(PLAIN_ENV, RequirementCollection, ids);
    EmptyCollection(PLAIN_ENV, IntelligenceCollection, ids);
  }

  lemma NoHistory(env: Env)
    ensures HistoryOf(env, Arr(Objs([]))) == Some([])
  {
  }

  lemma EmptyLoads()
    ensures LoadsAsItself(PLAIN_ENV, EMPTY)
  {
    hide CollectionOf, LoadsAsItself;
    assert Objs(EMPTY.technologies) == [];
    forall ids
      ensures CollectionOf(PLAIN_ENV, TechnologyCollection, ids, Arr(Objs(EMPTY.technologies)))
              == Some(EMPTY.technologies)
    {
      EmptyCollection(PLAIN_ENV, TechnologyCollection, ids);
    }
    TechnologiesLoad(EMPTY);
  }

  /** The laws the theorems suppose can hold together, and a clock can give a stored time. */
  lemma LawfulWorldExists()
    ensures PLAIN_WORLD.Lawful() && StoredTime(PLAIN_WORLD.env, NOW)
  {
    hide LoadsAsItself, Zeros, Env.Lawful, StoredTime;
    NowIsStored();
    EmptyLoads();
  }

  // ----- a request that only names the revision -----

  function RevisionOnly(revision: nat): Fields {
    map[ExpectedRevision := Int(revision)]
  }

  /** It is accepted on any workspace without intelligence. */
  lemma RevisionOnlyIsAccepted(w: World, ids: IdSource, current: Program, now: string)
    requires w.env.Lawful() && LoadsAsItself(w.env, current) && current.intelligence == []
    ensures SaveCandidate(w, ids, RevisionOnly(current.revision), current, current.revision, now).Some?
  {
    hide CollectionOf, HistoryOf, LoadsAsItself, ContentsFixed, CarriesIdentifiers, Text, Env.Lawful, AppendAuditEvent;
    var v := Submitted(RevisionOnly(current.revision), current, current.revision);
    LoadedParts(w.env, current);
    StoredLifecycle(w.env, current, ids);
    EmptyCollection(w.env, SourceCollection, ids);
    EmptyCollection(w.env, TechnologyCollection, ids);
    NoTextIsText(40);
    SubmittedMembers(RevisionOnly(current.revision), current, current.revision);
    assert Contents(w.env, ids, v.fields).Some?;
  }

  lemma SubmittedMembers(f: Fields, current: Program, expected: nat)
    requires f.Keys <= {ExpectedRevision}
    ensures var v := Submitted(f, current, expected);
      && v.fields.Keys <= PROGRAM_KEYS && v.fields.Keys == PROGRAM_KEYS
      && v.fields[SchemaVersion] == Int(1) && v.fields[Revision] == Int(expected) && v.fields[UpdatedAt] == Str("")
      && v.fields[Sources] == Arr([]) && v.fields[Technologies] == Arr([])
      && v.fields[Requirements] == Arr(Objs(current.requirements))
      && v.fields[Intelligence] == Arr(Objs(current.intelligence))
      && v.fields[AuditHistory] == Arr(Objs(current.history))
  {
  }

  function RevisionOnlyStep(ids: IdSource): Step {
    Step(Obj(RevisionOnly(0)), ids, ids, NOW, false)
  }

  lemma RevisionOnlyIsSaved(w: World, ids: IdSource)
    requires w.Lawful() && w.defaults.intelligence == []
    requires forall v :: w.size(v) <= MAX_FILE_BYTES
    ensures Save(w, None, RevisionOnlyStep(ids)).Saved?
    ensures SaveCandidate(w, ids, RevisionOnly(0), w.defaults, 0, NOW)
            == Some(Save(w, None, RevisionOnlyStep(ids)).program)
  {
    hide SaveCandidate, LoadsAsItself, Program.ToJson, Env.Lawful, Digests.Lawful;
    RevisionOnlyIsAccepted(w, ids, w.defaults, NOW);
    assert RevisionOnly(0).Keys <= REQUEST_KEYS;
  }

  // ----- exactly at the limit -----

  /** Giving every document the size of the limit, it stands for a stored document of exactly that size. */
  const LIMIT_WORLD := PLAIN_WORLD.(size := v => MAX_FILE_BYTES)

  /** Every text is exactly at the limit: the first save succeeds, and its file never loads. */
  lemma LimitSizedSave(ids: IdSource, loadIds: IdSource)
    ensures var outcome := Save(LIMIT_WORLD, None, RevisionOnlyStep(ids));
      outcome.Saved? && Load(LIMIT_WORLD, loadIds, FileAfter(None, outcome)).None?
  {
    hide Save, World.Lawful, Load;
    LawfulWorldExists();
    assert LIMIT_WORLD.Lawful() by { SizeIsFree(PLAIN_WORLD, LIMIT_WORLD); }
    RevisionOnlyIsSaved(LIMIT_WORLD, ids);
    LimitSizedDocumentDoesNotLoadBack(LIMIT_WORLD, None, RevisionOnlyStep(ids), loadIds);
  }

  lemma SizeIsFree(a: World, b: World)
    requires a.Lawful() && a.env == b.env && a.d == b.d && a.defaults == b.defaults
    ensures b.Lawful()
  {
    hide LoadsAsItself, Env.Lawful, Digests.Lawful;
  }

  // ----- more than a hundred changes -----

  function Repeated(c: char, n: nat): (s: string)
    ensures |s| == n && forall i :: 0 <= i < n ==> s[i] == c
  {
    seq(n, i => c)
  }

  const MANY: nat := 101

  /** Identifiers of three to sixty-two letters, in two alphabets of one letter. */
  function TechnologyId(n: nat): (s: string)
    requires n < MANY
    ensures 3 <= |s| <= 62
  {
    if n < 60 then Repeated('a', 3 + n) else Repeated('b', n - 57)
  }

  function TechnologyMember(n: nat, key: Key): Value
    requires n < MANY
  {
    match key
    case Id => Str(TechnologyId(n))
    case Enabled => Bool(true)
    case Vendor => Str("v")
    case Product => Str(Repeated('p', n + 1))
    case Category => Str("other")
    case Criticality => Str("low")
    case Priority => Str("low")
    case Exposure => Str("unknown")
    case Owner => Str("o")
    case MonitorFor => Arr([])
    case Requirements => Arr([])
    case _ => Str("")
  }

  function Technology(n: nat): Fields
    requires n < MANY
  {
    map key | key in TECHNOLOGY :: TechnologyMember(n, key)
  }

  function TechnologyList(n: nat): (r: seq<Fields>)
    requires n <= MANY
    ensures |r| == n
  {
    seq(n, i requires 0 <= i < n => Technology(i))
  }

  lemma PlainText(s: string, limit: nat, required: bool)
    requires |s| <= limit && (required ==> s != "") && IsLowerText(s)
    requires forall i :: 0 <= i < |s| ==> IsLowerLetter(s[i])
    ensures Text(Str(s), limit, required) == Some(s)
  {
    hide Strip;
    assert Tight(s) && Clean(s);
  }

  lemma TechnologyIdIsIdentifier(n: nat)
    requires n < MANY
    ensures IsIdentifier(TechnologyId(n)) && Text(Str(TechnologyId(n)), 64, false) == Some(TechnologyId(n))
  {
    hide Text;
    var id := TechnologyId(n);
    assert forall i :: 0 <= i < |id| ==> IsLowerLetter(id[i]);
    IdentifierIsText(id);
  }

  lemma NothingInList(env: Env, maximum: nat, entry: Entry)
    ensures TextList(env, Arr([]), maximum, entry) == Some([]) && Strs<Key>([]) == []
  {
  }

  /** The kinds of the technology fields that are not choices, key by key. */
  function TechnologyKind(key: Key): FieldKind {
    match key
    case Id => IdField(true)
    case Enabled => BoolField
    case Vendor | Owner => TextField(100, true)
    case Product => TextField(120, true)
    case Versions => TextField(180, false)
    case DeploymentScope => TextField(240, false)
    case MonitorFor => TextsOf(24, 120)
    case Requirements => TextsOf(16, 120)
    case ReviewDate => DateField
    case _ => TextField(1200, false)
  }

  const EARLIER_KEYS := {Id, Enabled, Vendor, Product, Versions}
  const CHOICE_KEYS := {Category, Criticality, Priority, Exposure}
  const LATER_KEYS := {DeploymentScope, Owner, MonitorFor, Requirements, ReviewDate, Notes}

  lemma TechnologyKeys()
    ensures TECHNOLOGY.Keys == EARLIER_KEYS + CHOICE_KEYS + LATER_KEYS
  {
    hide OneOf, PRIORITIES, CATEGORIES, EXPOSURES;
  }

  lemma EarlierKinds(key: Key)
    requires key in EARLIER_KEYS
    ensures key in TECHNOLOGY && TECHNOLOGY[key] == TechnologyKind(key)
  {
    hide OneOf, PRIORITIES, CATEGORIES, EXPOSURES;
  }

  lemma LaterKinds(key: Key)
    requires key in LATER_KEYS
    ensures key in TECHNOLOGY && TECHNOLOGY[key] == TechnologyKind(key)
  {
    hide OneOf, PRIORITIES, CATEGORIES, EXPOSURES;
  }

  lemma TechnologyField(n: nat, newId: string, key: Key)
    requires n < MANY && key in TECHNOLOGY
    ensures Field(PLAIN_ENV, TECHNOLOGY[key], newId, TechnologyMember(n, key)) == Some(TechnologyMember(n, key))
  {
    hide Field, TechnologyMember, TechnologyKind;
    TechnologyKeys();
    hide TECHNOLOGY;
    if key in CHOICE_KEYS {
      TechnologyChoice(n, newId, key);
    } else {
      if key in EARLIER_KEYS { EarlierKinds(key); } else { LaterKinds(key); }
      TechnologyPlainField(n, newId, key);
    }
  }

  lemma ReadsText(limit: nat, required: bool, newId: string, s: string)
    requires Text(Str(s), limit, required) == Some(s)
    ensures Field(PLAIN_ENV, TextField(limit, required), newId, Str(s)) == Some(Str(s))
  {
    hide Text;
  }

  lemma ReadsNoTexts(maximum: nat, newId: string)
    ensures Field(PLAIN_ENV, TextsOf(maximum, 120), newId, Arr([])) == Some(Arr([]))
  {
    hide TextList;
    NothingInList(PLAIN_ENV, maximum, TextEntry(120));
  }

  lemma ReadsOwnId(n: nat, newId: string)
    requires n < MANY
    ensures Field(PLAIN_ENV, IdField(true), newId, Str(TechnologyId(n))) == Some(Str(TechnologyId(n)))
  {
    hide Text, TechnologyId, IsIdentifier;
    TechnologyIdIsIdentifier(n);
  }

  lemma ReadsFlagsAndDates(newId: string)
    requires Text(Str(""), 10, false) == Some("")
    ensures Field(PLAIN_ENV, BoolField, newId, Bool(true)) == Some(Bool(true))
    ensures Field(PLAIN_ENV, DateField, newId, Str("")) == Some(Str(""))
  {
    hide Text, PLAIN_ENV;
  }

  lemma TechnologyTextField(n: nat, newId: string, key: Key)
    requires n < MANY && key !in CHOICE_KEYS && TechnologyKind(key).TextField?
    ensures Field(PLAIN_ENV, TechnologyKind(key), newId, TechnologyMember(n, key)) == Some(TechnologyMember(n, key))
  {
    hide Field, TECHNOLOGY, PLAIN_ENV;
    TechnologyTextReads(n, key);
    hide TechnologyMember, TechnologyKind, Text;
    var kind := TechnologyKind(key);
    ReadsText(kind.limit, kind.required, newId, TechnologyMember(n, key).s);
  }

  lemma TechnologyTextReads(n: nat, key: Key)
    requires n < MANY && key !in CHOICE_KEYS && TechnologyKind(key).TextField?
    ensures var member, kind := TechnologyMember(n, key), TechnologyKind(key);
      member.Str? && Text(member, kind.limit, kind.required) == Some(member.s)
  {
    hide Text, TechnologyId, Repeated, TECHNOLOGY, PLAIN_ENV;
    TechnologyTexts(n);
  }

  lemma TechnologyPlainField(n: nat, newId: string, key: Key)
    requires n < MANY && key !in CHOICE_KEYS
    ensures Field(PLAIN_ENV, TechnologyKind(key), newId, TechnologyMember(n, key)) == Some(TechnologyMember(n, key))
  {
    hide Text, TechnologyId, Repeated, Field, TECHNOLOGY, PLAIN_ENV;
    if TechnologyKind(key).TextField? {
      TechnologyTextField(n, newId, key);
    } else {
      ReadsOwnId(n, newId);
      NoTextIsText(10);
      ReadsFlagsAndDates(newId);
      ReadsNoTexts(24, newId);
      ReadsNoTexts(16, newId);
    }
  }

  lemma TechnologyChoice(n: nat, newId: string, key: Key)
    requires n < MANY && key in CHOICE_KEYS
    ensures Field(PLAIN_ENV, TECHNOLOGY[key], newId, TechnologyMember(n, key)) == Some(TechnologyMember(n, key))
  {
    hide Text, TechnologyId;
    TechnologyTexts(n);
  }

  lemma TechnologyTexts(n: nat)
    requires n < MANY
    ensures Text(Str(Repeated('p', n + 1)), 120, true) == Some(Repeated('p', n + 1))
    ensures Text(Str("v"), 100, true) == Some("v") && Text(Str("o"), 100, true) == Some("o")
    ensures Text(Str("other"), 64, true) == Some("other") && Text(Str("low"), 64, true) == Some("low")
    ensures Text(Str("unknown"), 64, true) == Some("unknown")
    ensures Text(Str(""), 180, false) == Some("") && Text(Str(""), 240, false) == Some("")
    ensures Text(Str(""), 10, false) == Some("") && Text(Str(""), 1200, false) == Some("")
  {
    hide Text, Repeated;
    PlainText(Repeated('p', n + 1), 120, true);
    PlainText("v", 100, true);
    PlainText("o", 100, true);
    PlainText("other", 64, true);
    PlainText("low", 64, true);
    PlainText("unknown", 64, true);
    PlainText("", 180, false);
    PlainText("", 240, false);
    PlainText("", 10, false);
    PlainText("", 1200, false);
  }

  lemma TechnologyIsRecord(n: nat, newId: string)
    requires n < MANY
    ensures Item(PLAIN_ENV, TechnologyCollection, newId, Obj(Technology(n))) == Some(Technology(n))
  {
    hide Field, TechnologyMember, TECHNOLOGY, PLAIN_ENV;
    var r := Technology(n);
    forall k | k in TECHNOLOGY
      ensures Field(PLAIN_ENV, TECHNOLOGY[k], newId, Get(r, k, Fallback(TECHNOLOGY[k]))) == Some(r[k])
    {
      TechnologyField(n, newId, k);
    }
    assert r == map k | k in TECHNOLOGY ::
      Field(PLAIN_ENV, TECHNOLOGY[k], newId, Get(r, k, Fallback(TECHNOLOGY[k]))).value;
  }

  lemma {:induction false} TechnologiesAreRecords(n: nat, ids: IdSource)
    requires n <= MANY
    ensures ItemList(PLAIN_ENV, TechnologyCollection, ids, Objs(TechnologyList(n))) == Some(TechnologyList(n))
  {
    hide Item, Technology;
    var items := Objs(TechnologyList(n));
    if n == 0 {
      assert items == [];
    } else {
      TechnologiesAreRecords(n - 1, ids);
      TechnologyIsRecord(n - 1, ids(TechnologyCollection, n - 1));
      assert items[..n - 1] == Objs(TechnologyList(n - 1)) && items[n - 1] == Obj(Technology(n - 1));
      assert TechnologyList(n) == TechnologyList(n - 1) + [Technology(n - 1)];
    }
  }

  lemma TechnologyNames(n: nat)
    requires n < MANY
    ensures TextAt(Technology(n), Id) == TechnologyId(n)
    ensures NameKey(PLAIN_ENV, TechnologyCollection, Technology(n)) == ["v", Repeated('p', n + 1)]
  {
    TechnologyTextsAt(n);
    hide Technology, TechnologyId, Repeated, TextAt, Lower, PLAIN_ENV;
    var v, p := "v", Repeated('p', n + 1);
    assert IsLowerText(v) && IsLowerText(p);
    LowerFixesLowerText(PLAIN_ENV.foldOther, v);
    LowerFixesLowerText(PLAIN_ENV.foldOther, p);
  }

  lemma TechnologyTextsAt(n: nat)
    requires n < MANY
    ensures TextAt(Technology(n), Id) == TechnologyId(n)
    ensures TextAt(Technology(n), Vendor) == "v" && TextAt(Technology(n), Product) == Repeated('p', n + 1)
  {
    TechnologyKeys();
    hide Technology, TechnologyId, Repeated, TECHNOLOGY, PLAIN_ENV;
    TechnologyAt(n, Id);
    TechnologyAt(n, Vendor);
    TechnologyAt(n, Product);
  }

  lemma TechnologyAt(n: nat, key: Key)
    requires n < MANY && key in TECHNOLOGY
    ensures key in Technology(n) && Technology(n)[key] == TechnologyMember(n, key)
  {
    hide TechnologyMember, TECHNOLOGY;
  }

  lemma TechnologyIdsDiffer(i: nat, j: nat)
    requires i < j < MANY
    ensures TechnologyId(i) != TechnologyId(j)
  {
    assert TechnologyId(i)[0] == if i < 60 then 'a' else 'b';
    assert TechnologyId(j)[0] == if j < 60 then 'a' else 'b';
  }

  lemma TechnologiesAreUnique()
    ensures Unique(PLAIN_ENV, TechnologyCollection, TechnologyList(MANY))
  {
    hide Technology, TechnologyId, NameKey, TextAt;
    var records := TechnologyList(MANY);
    forall i, j | 0 <= i < j < MANY
      ensures Ids(records)[i] != Ids(records)[j]
      ensures NameKeys(PLAIN_ENV, TechnologyCollection, records)[i]
              != NameKeys(PLAIN_ENV, TechnologyCollection, records)[j]
    {
      TechnologyNames(i);
      TechnologyNames(j);
      TechnologyIdsDiffer(i, j);
      assert ["v", Repeated('p', i + 1)][1] != ["v", Repeated('p', j + 1)][1] by {
        assert |Repeated('p', i + 1)| != |Repeated('p', j + 1)|;
      }
    }
  }

  const MANY_TECHNOLOGIES := EMPTY.(technologies := TechnologyList(MANY))

  /** Starting from 101 technologies, it stands for a stored workspace that holds as many. */
  const MANY_WORLD := PLAIN_WORLD.(defaults := MANY_TECHNOLOGIES)

  lemma ManyTechnologiesLoad()
    ensures LoadsAsItself(PLAIN_ENV, MANY_TECHNOLOGIES)
  {
    hide TechnologyList, CollectionOf, LoadsAsItself;
    forall ids
      ensures CollectionOf(PLAIN_ENV, TechnologyCollection, ids, Arr(Objs(TechnologyList(MANY))))
           == Some(TechnologyList(MANY))
    {
      ManyTechnologiesCollection(ids);
    }
    TechnologiesLoad(MANY_TECHNOLOGIES);
  }

  lemma ManyTechnologiesCollection(ids: IdSource)
    ensures CollectionOf(PLAIN_ENV, TechnologyCollection, ids, Arr(Objs(TechnologyList(MANY))))
            == Some(TechnologyList(MANY))
  {
    hide ItemList, Unique;
    TechnologiesAreRecords(MANY, ids);
    TechnologiesAreUnique();
  }

  /** A workspace of 101 technologies: a request that only names the revision is saved, and the file it leaves
      never loads. */
  lemma ManyChangesSave(ids: IdSource, loadIds: IdSource)
    ensures MANY_WORLD.Lawful() && StoredTime(MANY_WORLD.env, NOW)
    ensures var outcome := Save(MANY_WORLD, None, RevisionOnlyStep(ids));
      outcome.Saved? && Load(MANY_WORLD, loadIds, FileAfter(None, outcome)).None?
  {
    hide Save, Load, SaveCandidate, LoadsAsItself, StoredTime, Env.Lawful, Digests.Lawful, TechnologyList,
      RevisionOnlyStep;
    LawfulWorldExists();
    ManyTechnologiesLoad();
    RevisionOnlyIsSaved(MANY_WORLD, ids);
    OmittingManyTechnologiesDoesNotLoadBack(MANY_WORLD, ids, RevisionOnly(0), MANY_TECHNOLOGIES, 0, NOW, loadIds);
  }
}
