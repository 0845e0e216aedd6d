/** The CTI workspace store: revisioned saves of one document, and what any run of them leaves. */
module CtiStore {
  import opened Prelude
  import opened Values
  import opened CtiFields
  import opened CtiRecords
  import opened CtiProgram
  import opened CtiForms
  import opened CtiAudit

  const MAX_FILE_BYTES := 262_144

  /** The library functions, the byte length of the indented JSON text, and the default workspace. */
  datatype World = World(env: Env, d: Digests, size: Value -> nat, defaults: Program)
  {
    /** The default workspace is in stored form, at revision 0, with no history. */
    ghost predicate Lawful() {
      && env.Lawful() && d.Lawful()
      && LoadsAsItself(env, defaults)
      && defaults.revision == 0 && defaults.history == []
    }
  }

  /** The document on disk, if the file exists. */
  type File = Option<Value>

  /** load_program: the text on disk ends in a line feed, which counts against the limit. */
  function Load(w: World, ids: IdSource, file: File): Option<Program> {
    match file
    case None => Some(w.defaults)
    case Some(v) => if w.size(v) + 1 > MAX_FILE_BYTES then None else NormalizeProgram(w.env, ids, v, true)
  }

  // ----- saving -----

  const REQUEST_KEYS: set<Key> := {ExpectedRevision, Sources, Technologies, Requirements, Intelligence}

  /** _expected_revision */
  function ExpectedRevisionOf(payload: Value): Option<nat> {
    if !payload.Obj? || !(payload.fields.Keys <= REQUEST_KEYS) then None
    else
      var expected := Get(payload.fields, ExpectedRevision, Null);
      if expected.Int? && expected.n >= 0 then Some(expected.n) else None
  }

  /** Omitted sources and technologies are emptied; omitted requirements and intelligence are kept. */
  function Submitted(f: Fields, current: Program, expected: nat): Value {
    Obj(map[
      SchemaVersion := Int(1), Revision := Int(expected), UpdatedAt := Str(""),
      Sources := Get(f, Sources, Arr([])), Technologies := Get(f, Technologies, Arr([])),
      Requirements := Get(f, Requirements, Arr(Objs(current.requirements))),
      Intelligence := Get(f, Intelligence, Arr(Objs(current.intelligence))),
      AuditHistory := Arr(Objs(current.history))])
  }

  /** append_audit_event */
  function AppendAuditEvent(d: Digests, before: Program, after: Program, revision: nat, now: string): seq<Fields> {
    Last(before.history + [AuditEvent(d, before, after, revision, now)], MAX_AUDIT_HISTORY)
  }

  function SaveCandidate(w: World, ids: IdSource, f: Fields, current: Program, expected: nat,
      now: string): Option<Program> {
    match NormalizeProgram(w.env, ids, Submitted(f, current, expected), false)
    case None => None
    case Some(normalized) =>
      var candidate := normalized.(revision := expected + 1, updatedAt := now);
      Some(candidate.(history := AppendAuditEvent(w.d, current, candidate, expected + 1, now)))
  }

  datatype Outcome =
    | BadRequest | Unreadable | RevisionConflict | Rejected | TooLarge | WriteFailed
    | Saved(program: Program)

  /** One call of save_program: its request, the identifiers it generates, its clock, and whether the
      write fails before the file is replaced. */
  datatype Step = Step(payload: Value, loadIds: IdSource, ids: IdSource, now: string, writeFails: bool)

  function Save(w: World, file: File, step: Step): Outcome {
    match ExpectedRevisionOf(step.payload)
    case None => BadRequest
    case Some(expected) =>
      match Load(w, step.loadIds, file) {
        case None => Unreadable
        case Some(current) =>
          if current.revision != expected then RevisionConflict
          else match SaveCandidate(w, step.ids, step.payload.fields, current, expected, step.now) {
            case None => Rejected
            case Some(candidate) =>
              if w.size(candidate.ToJson()) > MAX_FILE_BYTES then TooLarge
              else if step.writeFails then WriteFailed
              else Saved(candidate)
          }
      }
  }

  function FileAfter(file: File, outcome: Outcome): File {
    if outcome.Saved? then Some(outcome.program.ToJson()) else file
  }

  /** The store while its lock is held. */
  class ProgramStore {
    var file: File

    constructor ()
      ensures file == None
    {
      file := None;
    }

    method LoadProgram(w: World, ids: IdSource) returns (p: Option<Program>)
      ensures p == Load(w, ids, file)
    {
      if file.None? { return Some(w.defaults); }
      if w.size(file.value) + 1 > MAX_FILE_BYTES { return None; }
      p := NormalizeProgram(w.env, ids, file.value, true);
    }

    /** The candidate is filled in field by field, its history last. */
    method BuildCandidate(w: World, ids: IdSource, f: Fields, current: Program, expected: nat, now: string)
      returns (r: Option<Program>)
      ensures r == SaveCandidate(w, ids, f, current, expected, now)
    {
      var normalized := NormalizeProgram(w.env, ids, Submitted(f, current, expected), false);
      if normalized.None? { return None; }
      var candidate := normalized.value;
      candidate := candidate.(revision := expected + 1);
      candidate := candidate.(updatedAt := now);
      var changes := ChangeSummary(w.d, current, candidate);
      var event := map[
        Revision := Int(expected + 1), Event := Str("workspace-updated"), ChangedAt := Str(now),
        Changes := Arr(Strs(changes)),
        BeforeDigest := Str(w.d.content(current)), AfterDigest := Str(w.d.content(candidate))];
      candidate := candidate.(history := Last(current.history + [event], MAX_AUDIT_HISTORY));
      r := Some(candidate);
    }

    method SaveProgram(w: World, step: Step) returns (outcome: Outcome)
      modifies this
      ensures outcome == Save(w, old(file), step)
      ensures file == FileAfter(old(file), outcome)
    {
      var expected := ExpectedRevisionOf(step.payload);
      if expected.None? { return BadRequest; }
      var current := LoadProgram(w, step.loadIds);
      if current.None? { return Unreadable; }
      if current.value.revision != expected.value { return RevisionConflict; }
      var candidate := BuildCandidate(w, step.ids, step.payload.fields, current.value, expected.value, step.now);
      if candidate.None? { return Rejected; }
      if w.size(candidate.value.ToJson()) > MAX_FILE_BYTES { return TooLarge; }
      if step.writeFails { return WriteFailed; }
      file := Some(candidate.value.ToJson());
      outcome := Saved(candidate.value);
    }
  }

  // ----- normalised documents carry identifiers -----

  lemma TablesHaveIds()
    ensures Id in SOURCE && SOURCE[Id].IdField? && Id in TECHNOLOGY && TECHNOLOGY[Id].IdField?
    ensures Id in REQUIREMENT && REQUIREMENT[Id].IdField? && Id in INTELLIGENCE && INTELLIGENCE[Id].IdField?
  {
  }

  lemma StoredItemsHaveIds(env: Env, c: Collection, r: Fields)
    requires StoredItem(env, c, r)
    ensures IsIdentifier(TextAt(r, Id))
  {
    TablesHaveIds();
    NamesAreIdentifiers(TextAt(r, Id));
    hide IsIdentifier, IsName, StoredRecords, SourceConsistent, IntelligenceConsistent, SOURCE, TECHNOLOGY, REQUIREMENT,
      INTELLIGENCE, EVIDENCE, ENTITY;
    var table := match c
      case SourceCollection => SOURCE
      case TechnologyCollection => TECHNOLOGY
      case RequirementCollection => REQUIREMENT
      case IntelligenceCollection => INTELLIGENCE;
    assert StoredField(env, table[Id], r[Id]);
  }

  lemma FixedContentsCarryIdentifiers(env: Env, p: Program)
    requires env.Lawful() && ContentsFixed(env, p)
    ensures CarriesIdentifiers(p)
  {
    hide ContentsFixed, StoredItem, IsIdentifier, TextAt, NoIdTwice, NameKey, Linked, Env.Lawful;
    FixedExactlyWhenWellFormed(env, p);
    forall c: Collection, i | 0 <= i < |p.Items(c)| ensures IsIdentifier(TextAt(p.Items(c)[i], Id)) {
      assert StoredCollection(env, c, p.Items(c));
      StoredItemsHaveIds(env, c, p.Items(c)[i]);
    }
  }

  /** What loading itself says of a document's parts. */
  lemma LoadedParts(env: Env, p: Program)
    requires env.Lawful() && LoadsAsItself(env, p)
    ensures ContentsFixed(env, p) && CarriesIdentifiers(p)
    ensures HistoryOf(env, Arr(Objs(p.history))) == Some(p.history)
  {
    hide NormalizeProgram, Program.ToJson, HistoryOf, ContentsFixed, CarriesIdentifiers, Env.Lawful;
    var ids: IdSource := (c, n) => "";
    var json := p.ToJson();
    assert NormalizeProgram(env, ids, json, true) == Some(p);
    NormalizationIsFixed(env, ids, json, true);
    FixedContentsCarryIdentifiers(env, p);
    LoadsAsItselfWhen(env, p);
  }

  // ----- what a save leaves on disk -----

  lemma StoredTimeIsText(env: Env, now: string)
    requires env.Lawful() && StoredTime(env, now)
    ensures Text(Str(now), 40, false) == Some(now)
  {
    hide Clean, Strip;
    var s := Text(Str(now), 40, true);
    assert s.Some? && s.value != "";
    var t := env.stamp(s.value).value;
    assert env.format(t) == now;
  }

  /** A stored history with one more event reads back exactly when the event does. */
  lemma AppendedHistoryReadsBack(env: Env, history: seq<Fields>, event: Fields)
    requires HistoryOf(env, Arr(Objs(history))) == Some(history)
    requires Record(env, AUDIT_ENTRY, "", Obj(event)) in {Some(event), None}
    ensures var longer := Last(history + [event], MAX_AUDIT_HISTORY);
      HistoryOf(env, Arr(Objs(longer))) == if Record(env, AUDIT_ENTRY, "", Obj(event)).Some? then Some(longer) else None
  {
    hide Record, PlainRecords;
    var longer := Last(history + [event], MAX_AUDIT_HISTORY);
    RecordsReadBack(env, AUDIT_ENTRY, history);
    RecordsReadBack(env, AUDIT_ENTRY, longer);
    assert longer[|longer| - 1] == event;
    assert forall r :: r in longer ==> r in history || r == event;
  }

  lemma CollectionChangesDependOnContents(d: Digests, c: Collection, before: Program, after: Program)
    ensures CollectionChanges(d, c, before, after) == CollectionChanges(d, c, before, Bare(after))
  {
    hide DigestIndex, Tagged;
    assert after.Items(c) == Bare(after).Items(c);
  }

  lemma {:induction false} ChangesDependOnContents(d: Digests, before: Program, after: Program, n: nat)
    requires n <= |COLLECTIONS|
    ensures ChangesUpTo(d, before, after, n) == ChangesUpTo(d, before, Bare(after), n)
  {
    hide CollectionChanges, Bare;
    if n > 0 {
      ChangesDependOnContents(d, before, after, n - 1);
      CollectionChangesDependOnContents(d, COLLECTIONS[n - 1], before, after);
    }
  }

  lemma EventDependsOnContents(d: Digests, before: Program, a: Program, b: Program, revision: nat, now: string)
    requires d.Lawful() && Bare(a) == Bare(b)
    ensures AuditEvent(d, before, a, revision, now) == AuditEvent(d, before, b, revision, now)
    ensures ChangesOf(d, before, a) == ChangesOf(d, before, b)
  {
    hide ChangesUpTo, RenderAll, Strs;
    ChangesDependOnContents(d, before, a, |COLLECTIONS|);
    ChangesDependOnContents(d, before, b, |COLLECTIONS|);
    assert d.content(a) == d.content(Bare(a)) && d.content(b) == d.content(Bare(b));
  }

  /** The candidate carries the next revision, normal contents, and the history with its own event. */
  lemma CandidateShape(w: World, ids: IdSource, f: Fields, current: Program, expected: nat, now: string)
    requires w.Lawful() && LoadsAsItself(w.env, current)
    ensures var r := SaveCandidate(w, ids, f, current, expected, now);
      r.Some? ==>
        && ContentsFixed(w.env, r.value)
        && r.value.revision == expected + 1 && r.value.updatedAt == now
        && r.value.history
           == Last(current.history + [AuditEvent(w.d, current, r.value, expected + 1, now)], MAX_AUDIT_HISTORY)
  {
    hide Contents, HistoryOf, ContentsFixed, AuditEvent, Submitted, LoadsAsItself, Env.Lawful, Digests.Lawful,
        NormalizeProgram;
    var r := SaveCandidate(w, ids, f, current, expected, now);
    if r.Some? {
      var v := Submitted(f, current, expected);
      var normalized := NormalizeProgram(w.env, ids, v, false).value;
      NormalizationIsFixed(w.env, ids, v, false);
      SameContentsFixed(w.env, normalized, r.value);
      var candidate := normalized.(revision := expected + 1, updatedAt := now);
      EventDependsOnContents(w.d, current, candidate, r.value, expected + 1, now);
    }
  }

  lemma SameContentsFixed(env: Env, a: Program, b: Program)
    requires ContentsFixed(env, a) && Bare(a) == Bare(b)
    ensures ContentsFixed(env, b)
  {
    hide CollectionOf, LinksOk;
    var f, g := a.ToJson().fields, b.ToJson().fields;
    assert f[Sources] == g[Sources] && f[Technologies] == g[Technologies];
    assert f[Requirements] == g[Requirements] && f[Intelligence] == g[Intelligence];
    forall ids ensures Contents(env, ids, g) == Some(Bare(b)) {
      assert Contents(env, ids, f) == Some(Bare(a));
    }
  }

  /** A saved workspace loads back equal exactly when its newest event lists at most a hundred changes
      and its text, line feed included, fits the limit; otherwise it does not load at all. */
  lemma SavedLoadsBack(w: World, ids: IdSource, f: Fields, current: Program, expected: nat, now: string,
      loadIds: IdSource)
    requires w.Lawful() && LoadsAsItself(w.env, current) && StoredTime(w.env, now)
    requires SaveCandidate(w, ids, f, current, expected, now).Some?
    ensures var p := SaveCandidate(w, ids, f, current, expected, now).value;
      Load(w, loadIds, Some(p.ToJson())) ==
        if |ChangesOf(w.d, current, p)| <= 100 && w.size(p.ToJson()) + 1 <= MAX_FILE_BYTES then Some(p) else None
  {
    hide SaveCandidate, NormalizeProgram, Program.ToJson, HistoryOf, Text, AuditEvent, ChangesOf, Record, ContentsFixed,
      CarriesIdentifiers, LoadsAsItself, StoredTime, Env.Lawful, Digests.Lawful;
    var p := SaveCandidate(w, ids, f, current, expected, now).value;
    CandidateShape(w, ids, f, current, expected, now);
    LoadedParts(w.env, current);
    FixedContentsCarryIdentifiers(w.env, p);
    EventReadsBack(w.env, w.d, current, p, expected + 1, now);
    AppendedHistoryReadsBack(w.env, current.history, AuditEvent(w.d, current, p, expected + 1, now));
    StoredTimeIsText(w.env, now);
    LoadOfDocument(w, p, loadIds);
  }

  lemma LoadOfDocument(w: World, p: Program, loadIds: IdSource)
    requires ContentsFixed(w.env, p) && Text(Str(p.updatedAt), 40, false) == Some(p.updatedAt)
    requires HistoryOf(w.env, Arr(Objs(p.history))) in {Some(p.history), None}
    ensures Load(w, loadIds, Some(p.ToJson())) ==
      if HistoryOf(w.env, Arr(Objs(p.history))).Some? && w.size(p.ToJson()) + 1 <= MAX_FILE_BYTES then Some(p) else None
    ensures HistoryOf(w.env, Arr(Objs(p.history))).Some? ==> LoadsAsItself(w.env, p)
  {
    hide Contents, HistoryOf, Text, Program.ToJson;
    DocumentParts(p);
    LoadsAsItselfWhen(w.env, p);
    assert Contents(w.env, loadIds, p.ToJson().fields) == Some(Bare(p));
  }

  // ----- saves that do not load back -----

  lemma {:induction false} IndexSize(d: Digests, records: seq<Fields>)
    requires Distinct(Ids(records))
    ensures |DigestIndex(d, records)| == |records|
  {
    hide TextAt;
    if records != [] {
      var n := |records| - 1;
      forall i, j | 0 <= i < j < n ensures Ids(records[..n])[i] != Ids(records[..n])[j] {
        assert Ids(records)[i] != Ids(records)[j];
      }
      IndexSize(d, records[..n]);
      var id := TextAt(records[n], Id);
      IndexedIds(d, records[..n], id);
      forall i | 0 <= i < n ensures TextAt(records[..n][i], Id) != id {
        assert Ids(records)[i] != Ids(records)[n];
      }
      assert DigestIndex(d, records).Keys == DigestIndex(d, records[..n]).Keys + {id};
    }
  }

  lemma RemovedAreListed(d: Digests, before: Program, after: Program)
    requires after.technologies == []
    ensures |ChangesOf(d, before, after)| >= |DigestIndex(d, before.technologies)|
  {
    hide DigestIndex;
    var c := TechnologyCollection;
    assert COLLECTIONS[1] == c;
    var removed := DigestIndex(d, before.Items(c)).Keys - DigestIndex(d, after.Items(c)).Keys;
    assert DigestIndex(d, []) == map[] by { NothingIndexed(d); }
    assert removed == DigestIndex(d, before.technologies).Keys;
    assert |CollectionChanges(d, c, before, after)| >= |removed|;
    assert |ChangesUpTo(d, before, after, 2)| >= |CollectionChanges(d, COLLECTIONS[1], before, after)|;
    assert |ChangesUpTo(d, before, after, 4)| >= |ChangesUpTo(d, before, after, 3)|
        >= |ChangesUpTo(d, before, after, 2)|;
  }

  lemma NothingIndexed(d: Digests)
    ensures DigestIndex(d, []) == map[]
  {
  }

  lemma StoredIdsAreDistinct(env: Env, p: Program)
    requires ContentsFixed(env, p)
    ensures Distinct(Ids(p.technologies))
  {
    hide ItemList, LinksOk, Distinct;
    var ids: IdSource := (c, n) => "";
    assert Contents(env, ids, p.ToJson().fields) == Some(Bare(p));
  }

  /** Every collection of a candidate is what the request gives for it, normalised: omitted sources and
      technologies count as empty, omitted requirements and intelligence as the stored ones. */
  lemma CandidateCollections(w: World, ids: IdSource, f: Fields, current: Program, expected: nat, now: string)
    ensures var r := SaveCandidate(w, ids, f, current, expected, now);
      r.Some? ==>
        && CollectionOf(w.env, SourceCollection, ids, Get(f, Sources, Arr([]))) == Some(r.value.sources)
        && CollectionOf(w.env, TechnologyCollection, ids, Get(f, Technologies, Arr([]))) == Some(r.value.technologies)
        && CollectionOf(w.env, RequirementCollection, ids, Get(f, Requirements, Arr(Objs(current.requirements))))
           == Some(r.value.requirements)
        && CollectionOf(w.env, IntelligenceCollection, ids, Get(f, Intelligence, Arr(Objs(current.intelligence))))
           == Some(r.value.intelligence)
  {
    hide CollectionOf, LinksOk, HistoryOf, Text, AppendAuditEvent;
  }

  /** A request that does not mention the technologies, or the sources, empties them. */
  lemma OmittedTechnologiesAreEmptied(w: World, ids: IdSource, f: Fields, current: Program, expected: nat, now: string)
    ensures var r := SaveCandidate(w, ids, f, current, expected, now);
      r.Some? ==>
        (Technologies !in f ==> r.value.technologies == []) && (Sources !in f ==> r.value.sources == [])
  {
    hide SaveCandidate, Unique;
    CandidateCollections(w, ids, f, current, expected, now);
  }

  /** With more than a hundred technologies stored, a request omitting them can be saved but leaves a
      file that no longer loads. */
  lemma OmittingManyTechnologiesDoesNotLoadBack(w: World, ids: IdSource, f: Fields, current: Program, expected: nat,
                                                now: string, loadIds: IdSource)
    requires w.Lawful() && LoadsAsItself(w.env, current) && StoredTime(w.env, now)
    requires Technologies !in f && |current.technologies| > 100
    requires SaveCandidate(w, ids, f, current, expected, now).Some?
    ensures Load(w, loadIds, Some(SaveCandidate(w, ids, f, current, expected, now).value.ToJson())).None?
  {
    hide SaveCandidate, LoadsAsItself, StoredTime, Load, Program.ToJson, ChangesOf, DigestIndex, ContentsFixed,
      CarriesIdentifiers, Env.Lawful, Digests.Lawful, HistoryOf;
    var p := SaveCandidate(w, ids, f, current, expected, now).value;
    OmittedTechnologiesAreEmptied(w, ids, f, current, expected, now);
    LoadedParts(w.env, current);
    StoredIdsAreDistinct(w.env, current);
    IndexSize(w.d, current.technologies);
    RemovedAreListed(w.d, current, p);
    SavedLoadsBack(w, ids, f, current, expected, now, loadIds);
  }

  /** A document whose text is exactly at the limit is written, and then refused. */
  lemma LimitSizedDocumentDoesNotLoadBack(w: World, file: File, step: Step, ids: IdSource)
    requires Save(w, file, step).Saved? && w.size(Save(w, file, step).program.ToJson()) == MAX_FILE_BYTES
    ensures Load(w, ids, FileAfter(file, Save(w, file, step))).None?
  {
    hide NormalizeProgram, SaveCandidate, Program.ToJson;
  }

  // ----- what a request leaves out -----

  lemma StoredLifecycle(env: Env, p: Program, ids: IdSource)
    requires ContentsFixed(env, p)
    ensures CollectionOf(env, RequirementCollection, ids, Arr(Objs(p.requirements))) == Some(p.requirements)
    ensures CollectionOf(env, IntelligenceCollection, ids, Arr(Objs(p.intelligence))) == Some(p.intelligence)
  {
    hide CollectionOf, LinksOk;
    assert Contents(env, ids, p.ToJson().fields) == Some(Bare(p));
  }

  /** Requirements and intelligence that a request does not mention stay exactly as they are. */
  lemma OmittedLifecycleIsKept(w: World, ids: IdSource, f: Fields, current: Program, expected: nat, now: string)
    requires w.Lawful() && LoadsAsItself(w.env, current)
    requires SaveCandidate(w, ids, f, current, expected, now).Some?
    ensures var p := SaveCandidate(w, ids, f, current, expected, now).value;
      && (Requirements !in f ==> p.requirements == current.requirements)
      && (Intelligence !in f ==> p.intelligence == current.intelligence)
  {
    hide SaveCandidate, CollectionOf, LoadsAsItself, ContentsFixed, HistoryOf, CarriesIdentifiers, Env.Lawful,
        Digests.Lawful;
    LoadedParts(w.env, current);
    StoredLifecycle(w.env, current, ids);
    CandidateCollections(w, ids, f, current, expected, now);
  }

  // ----- what a request submits -----

  /** The request holds the four collections of `q` and the revision it expects. */
  predicate Submits(payload: Value, q: Program, expected: nat) {
    && payload.Obj?
    && payload.fields == map[
         ExpectedRevision := Int(expected), Sources := Arr(Objs(q.sources)),
         Technologies := Arr(Objs(q.technologies)), Requirements := Arr(Objs(q.requirements)),
         Intelligence := Arr(Objs(q.intelligence))]
  }

  lemma SubmittedContents(w: World, ids: IdSource, f: Fields, current: Program, q: Program, expected: nat)
    requires ContentsFixed(w.env, q) && Submits(Obj(f), q, expected)
    ensures Contents(w.env, ids, Submitted(f, current, expected).fields) == Some(Bare(q))
  {
    hide CollectionOf, LinksOk;
    assert Contents(w.env, ids, q.ToJson().fields) == Some(Bare(q));
  }

  lemma SubmittedParts(f: Fields, current: Program, expected: nat)
    ensures Submitted(f, current, expected).Obj?
    ensures var g := Submitted(f, current, expected).fields;
      && g.Keys <= PROGRAM_KEYS && {SchemaVersion, Revision, UpdatedAt, AuditHistory} <= g.Keys
      && g[SchemaVersion] == Int(1) && g[Revision] == Int(expected) && g[UpdatedAt] == Str("")
      && g[AuditHistory] == Arr(Objs(current.history))
  {
  }

  /** Records in stored form are accepted, and the candidate holds exactly them. */
  lemma SubmittedIsTheCandidate(w: World, ids: IdSource, f: Fields, current: Program, q: Program, expected: nat,
                                now: string)
    requires w.env.Lawful() && LoadsAsItself(w.env, current)
    requires ContentsFixed(w.env, q) && Submits(Obj(f), q, expected)
    ensures var r := SaveCandidate(w, ids, f, current, expected, now);
      r.Some? && Bare(r.value) == Bare(q)
  {
    hide Contents, HistoryOf, Text, ContentsFixed, Submitted, Submits, LoadsAsItself, Env.Lawful, CarriesIdentifiers,
      AppendAuditEvent;
    LoadedParts(w.env, current);
    SubmittedContents(w, ids, f, current, q, expected);
    SubmittedParts(f, current, expected);
    NoTextIsText(40);
  }

  /** A request for the revision in force whose collections form a well-formed workspace: it is saved if its
      text fits and can be written, and the file then holds exactly those records at the next revision. */
  lemma SubmittedIsSaved(w: World, file: File, step: Step, q: Program) returns (p: Program)
    requires w.Lawful() && WellFormed(w.env, q)
    requires Load(w, step.loadIds, file).Some?
    requires Submits(step.payload, q, Load(w, step.loadIds, file).value.revision)
    ensures Bare(p) == Bare(q) && p.revision == Load(w, step.loadIds, file).value.revision + 1
    ensures Save(w, file, step) ==
      if w.size(p.ToJson()) > MAX_FILE_BYTES then TooLarge else if step.writeFails then WriteFailed else Saved(p)
    ensures Save(w, file, step).Saved? ==> FileAfter(file, Save(w, file, step)) == Some(p.ToJson())
  {
    hide SaveCandidate, Load, LoadsAsItself, ContentsFixed, WellFormed, Program.ToJson, World.Lawful, Submits,
      ExpectedRevisionOf;
    var current := Load(w, step.loadIds, file).value;
    LoadsInStoredForm(w, step.loadIds, file);
    SubmittedIsARequest(step.payload, q, current.revision);
    assert w.env.Lawful() by { LawsOf(w); }
    FixedExactlyWhenWellFormed(w.env, q);
    SubmittedIsTheCandidate(w, step.ids, step.payload.fields, current, q, current.revision, step.now);
    CandidateShape(w, step.ids, step.payload.fields, current, current.revision, step.now);
    p := SaveCandidate(w, step.ids, step.payload.fields, current, current.revision, step.now).value;
  }

  lemma LawsOf(w: World)
    requires w.Lawful()
    ensures w.env.Lawful() && LoadsAsItself(w.env, w.defaults)
  {
    hide LoadsAsItself, Env.Lawful, Digests.Lawful;
  }

  lemma LoadsInStoredForm(w: World, ids: IdSource, file: File)
    requires w.Lawful()
    ensures Load(w, ids, file).Some? ==> LoadsAsItself(w.env, Load(w, ids, file).value)
  {
    hide LoadsAsItself, NormalizeProgram, World.Lawful, Env.Lawful, ContentsFixed;
    LawsOf(w);
    if file.Some? { NormalizationIsFixed(w.env, ids, file.value, true); }
  }

  lemma SubmittedIsARequest(payload: Value, q: Program, expected: nat)
    requires Submits(payload, q, expected)
    ensures payload.Obj? && payload == Obj(payload.fields) && ExpectedRevisionOf(payload) == Some(expected)
  {
  }
}
