/** The change summary between two CTI documents, and the digest-linked history kept with them. */
module CtiAudit {
  import opened Prelude
  import opened Values
  import opened Ordering
  import opened CtiFields
  import opened CtiRecords
  import opened CtiProgram

  /** SHA-256 of the canonical JSON of a record, and of the four collections. */
  datatype Digests = Digests(item: Fields -> string, content: Program -> string)
  {
    /** The content digest is a SHA-256 value and depends on the collections alone. */
    ghost predicate Lawful() {
      forall p :: IsSha256(content(p)) && content(p) == content(Bare(p))
    }
  }

  // ----- change summary -----

  datatype Verb = Removed | Added | Updated

  datatype Change = Change(collection: Collection, id: string, verb: Verb)

  const COLLECTIONS: seq<Collection> :=
    [SourceCollection, TechnologyCollection, RequirementCollection, IntelligenceCollection]

  function CollectionName(c: Collection): string {
    match c
    case SourceCollection => "sources"
    case TechnologyCollection => "technologies"
    case RequirementCollection => "requirements"
    case IntelligenceCollection => "intelligence"
  }

  function VerbName(v: Verb): string {
    match v case Removed => "removed" case Added => "added" case Updated => "updated"
  }

  /** `f"{collection}:{identifier}:{verb}"` */
  function Rendered(change: Change): string {
    CollectionName(change.collection) + ":" + (change.id + ":" + VerbName(change.verb))
  }

  /** Identifier to item digest; a repeated identifier keeps the last. */
  function DigestIndex(d: Digests, records: seq<Fields>): map<string, string> {
    if records == [] then map[]
    else
      var last := records[|records| - 1];
      DigestIndex(d, records[..|records| - 1])[TextAt(last, Id) := d.item(last)]
  }

  function Differing(previous: map<string, string>, current: map<string, string>): set<string> {
    set id | id in previous && id in current && previous[id] != current[id]
  }

  function Tagged(c: Collection, verb: Verb, ids: seq<string>): seq<Change> {
    seq(|ids|, i requires 0 <= i < |ids| => Change(c, ids[i], verb))
  }

  function CollectionChanges(d: Digests, c: Collection, before: Program, after: Program): seq<Change> {
    var previous, current := DigestIndex(d, before.Items(c)), DigestIndex(d, after.Items(c));
    Tagged(c, Removed, SortedSet(previous.Keys - current.Keys))
    + Tagged(c, Added, SortedSet(current.Keys - previous.Keys))
    + Tagged(c, Updated, SortedSet(Differing(previous, current)))
  }

  function ChangesUpTo(d: Digests, before: Program, after: Program, n: nat): seq<Change>
    requires n <= |COLLECTIONS|
  {
    if n == 0 then []
    else ChangesUpTo(d, before, after, n - 1) + CollectionChanges(d, COLLECTIONS[n - 1], before, after)
  }

  function ChangesOf(d: Digests, before: Program, after: Program): seq<Change> {
    ChangesUpTo(d, before, after, |COLLECTIONS|)
  }

  function RenderAll(changes: seq<Change>): seq<string> {
    seq(|changes|, i requires 0 <= i < |changes| => Rendered(changes[i]))
  }

  /** What a change says of the two documents. */
  predicate Happened(d: Digests, before: Program, after: Program, change: Change) {
    var previous := DigestIndex(d, before.Items(change.collection));
    var current := DigestIndex(d, after.Items(change.collection));
    match change.verb
    case Removed => change.id in previous && change.id !in current
    case Added => change.id !in previous && change.id in current
    case Updated => change.id in previous && change.id in current && previous[change.id] != current[change.id]
  }

  lemma CollectionChangesMean(d: Digests, c: Collection, before: Program, after: Program, change: Change)
    ensures change in CollectionChanges(d, c, before, after)
            <==> change.collection == c && Happened(d, before, after, change)
  {
    hide DigestIndex, SortedSet;
    var previous, current := DigestIndex(d, before.Items(c)), DigestIndex(d, after.Items(c));
    TaggedMembers(c, Removed, SortedSet(previous.Keys - current.Keys), change);
    TaggedMembers(c, Added, SortedSet(current.Keys - previous.Keys), change);
    TaggedMembers(c, Updated, SortedSet(Differing(previous, current)), change);
  }

  lemma TaggedMembers(c: Collection, verb: Verb, ids: seq<string>, change: Change)
    ensures change in Tagged(c, verb, ids) <==> change.collection == c && change.verb == verb && change.id in ids
  {
    if change.collection == c && change.verb == verb && change.id in ids {
      var i :| 0 <= i < |ids| && ids[i] == change.id;
      assert Tagged(c, verb, ids)[i] == change;
    }
  }

  /** The summary lists exactly what happened in the four collections. */
  lemma {:induction false} SummaryListsWhatHappened(d: Digests, before: Program, after: Program, n: nat, change: Change)
    requires n <= |COLLECTIONS|
    ensures change in ChangesUpTo(d, before, after, n) <==>
      change.collection in COLLECTIONS[..n] && Happened(d, before, after, change)
  {
    hide CollectionChanges, Happened;
    if n > 0 {
      SummaryListsWhatHappened(d, before, after, n - 1, change);
      CollectionChangesMean(d, COLLECTIONS[n - 1], before, after, change);
      assert COLLECTIONS[..n] == COLLECTIONS[..n - 1] + [COLLECTIONS[n - 1]];
    }
  }

  lemma ChangesMean(d: Digests, before: Program, after: Program, change: Change)
    ensures change in ChangesOf(d, before, after) <==> Happened(d, before, after, change)
  {
    hide Happened;
    SummaryListsWhatHappened(d, before, after, |COLLECTIONS|, change);
    match change.collection
    case SourceCollection => assert COLLECTIONS[0] == change.collection;
    case TechnologyCollection => assert COLLECTIONS[1] == change.collection;
    case RequirementCollection => assert COLLECTIONS[2] == change.collection;
    case IntelligenceCollection => assert COLLECTIONS[3] == change.collection;
  }

  lemma DistinctAppend<T>(a: seq<T>, b: seq<T>)
    requires Distinct(a) && Distinct(b) && forall x :: x in a ==> x !in b
    ensures Distinct(a + b)
  {
    var s := a + b;
    forall i, j | 0 <= i < j < |s| ensures s[i] != s[j] {
      if i < |a| <= j {
        assert s[i] in a && s[j] == b[j - |a|];
      }
    }
  }

  lemma TaggedDistinct(c: Collection, verb: Verb, ids: set<string>)
    ensures Distinct(Tagged(c, verb, SortedSet(ids)))
    ensures forall change :: change in Tagged(c, verb, SortedSet(ids)) ==> change.collection == c && change.verb == verb
  {
    hide StringLe;
    SortedSetAscends(ids);
  }

  lemma CollectionChangesDistinct(d: Digests, c: Collection, before: Program, after: Program)
    ensures Distinct(CollectionChanges(d, c, before, after))
  {
    hide Distinct, Tagged, SortedSet, DigestIndex;
    var previous, current := DigestIndex(d, before.Items(c)), DigestIndex(d, after.Items(c));
    TaggedDistinct(c, Removed, previous.Keys - current.Keys);
    TaggedDistinct(c, Added, current.Keys - previous.Keys);
    TaggedDistinct(c, Updated, Differing(previous, current));
    var removed := Tagged(c, Removed, SortedSet(previous.Keys - current.Keys));
    var added := Tagged(c, Added, SortedSet(current.Keys - previous.Keys));
    DistinctAppend(removed, added);
    DistinctAppend(removed + added, Tagged(c, Updated, SortedSet(Differing(previous, current))));
  }

  /** No change is listed twice. */
  lemma {:induction false} SummaryIsDistinct(d: Digests, before: Program, after: Program, n: nat)
    requires n <= |COLLECTIONS|
    ensures Distinct(ChangesUpTo(d, before, after, n))
  {
    hide CollectionChanges, Distinct, Happened;
    if n == 0 {
      NothingRepeats<Change>([]);
    } else {
      SummaryIsDistinct(d, before, after, n - 1);
      CollectionChangesDistinct(d, COLLECTIONS[n - 1], before, after);
      var earlier, latest :=
        ChangesUpTo(d, before, after, n - 1), CollectionChanges(d, COLLECTIONS[n - 1], before, after);
      forall change | change in earlier
        ensures change !in latest
      {
        SummaryListsWhatHappened(d, before, after, n - 1, change);
        CollectionChangesMean(d, COLLECTIONS[n - 1], before, after, change);
        EarlierCollectionDiffers(change.collection, n);
      }
      DistinctAppend(earlier, latest);
    }
  }

  lemma EarlierCollectionDiffers(c: Collection, n: nat)
    requires 0 < n <= |COLLECTIONS| && c in COLLECTIONS[..n - 1]
    ensures c != COLLECTIONS[n - 1]
  {
    var i :| 0 <= i < n - 1 && COLLECTIONS[..n - 1][i] == c;
    assert COLLECTIONS[i] == c;
  }

  // ----- the rendered summary -----

  /** The text before the first colon and the rest are determined by the joined text. */
  lemma ColonSplits(a: string, b: string, x: string, y: string)
    requires ':' !in a && ':' !in b && a + ":" + x == b + ":" + y
    ensures a == b && x == y
  {
    var s, t := a + ":" + x, b + ":" + y;
    assert s[|a|] == ':' && forall i :: 0 <= i < |a| ==> s[i] == a[i] && a[i] in a;
    assert t[|b|] == ':' && forall i :: 0 <= i < |b| ==> t[i] == b[i] && b[i] in b;
    assert |a| == |b|;
    assert a == s[..|a|] && b == t[..|b|];
    assert x == s[|a| + 1..] && y == t[|b| + 1..];
  }

  lemma NamesHaveNoColon(c: Collection, id: string)
    ensures ':' !in CollectionName(c)
    ensures IsIdentifier(id) ==> ':' !in id
  {
    if IsIdentifier(id) {
      assert IdStart()(id[0]) && forall i :: 1 <= i < |id| ==> IdRest()(id[i]);
    }
  }

  lemma NamesAreDistinct(a: Change, b: Change)
    ensures CollectionName(a.collection) == CollectionName(b.collection) ==> a.collection == b.collection
    ensures VerbName(a.verb) == VerbName(b.verb) ==> a.verb == b.verb
  {
    assert |CollectionName(a.collection)| == |CollectionName(b.collection)|
      && CollectionName(a.collection)[0] == CollectionName(b.collection)[0]
      ==> a.collection == b.collection;
    assert VerbName(a.verb)[0] == VerbName(b.verb)[0] ==> a.verb == b.verb;
  }

  lemma RenderedIsInjective(a: Change, b: Change)
    requires IsIdentifier(a.id) && IsIdentifier(b.id) && Rendered(a) == Rendered(b)
    ensures a == b
  {
    hide IsIdentifier, CollectionName, VerbName;
    NamesHaveNoColon(a.collection, a.id);
    NamesHaveNoColon(b.collection, b.id);
    var restA, restB := a.id + ":" + VerbName(a.verb), b.id + ":" + VerbName(b.verb);
    assert Rendered(a) == CollectionName(a.collection) + ":" + restA;
    assert Rendered(b) == CollectionName(b.collection) + ":" + restB;
    ColonSplits(CollectionName(a.collection), CollectionName(b.collection), restA, restB);
    ColonSplits(a.id, b.id, VerbName(a.verb), VerbName(b.verb));
    NamesAreDistinct(a, b);
  }

  // ----- change_summary -----

  /** `[f"..." for identifier in ids]` appended to the changes. */
  method AppendChanges(changes: seq<string>, c: Collection, verb: Verb, ids: seq<string>) returns (r: seq<string>)
    ensures r == changes + RenderAll(Tagged(c, verb, ids))
  {
    hide Rendered;
    r := changes;
    for n := 0 to |ids|
      invariant r == changes + RenderAll(Tagged(c, verb, ids[..n]))
    {
      r := r + [Rendered(Change(c, ids[n], verb))];
      assert RenderAll(Tagged(c, verb, ids[..n + 1]))
        == RenderAll(Tagged(c, verb, ids[..n])) + [Rendered(Change(c, ids[n], verb))];
    }
    assert ids[..|ids|] == ids;
  }

  lemma RenderAllAppend(a: seq<Change>, b: seq<Change>)
    ensures RenderAll(a + b) == RenderAll(a) + RenderAll(b)
  {
    hide Rendered;
  }

  /** The loop over the collections. */
  method ChangeSummary(d: Digests, before: Program, after: Program) returns (changes: seq<string>)
    ensures changes == RenderAll(ChangesOf(d, before, after))
  {
    hide RenderAll, CollectionChanges, DigestIndex, SortedSet;
    changes := [];
    assert RenderAll(ChangesUpTo(d, before, after, 0)) == [] by { RenderNothing(); }
    for n := 0 to |COLLECTIONS|
      invariant changes == RenderAll(ChangesUpTo(d, before, after, n))
    {
      var c := COLLECTIONS[n];
      var previous, current := DigestIndex(d, before.Items(c)), DigestIndex(d, after.Items(c));
      changes := AppendChanges(changes, c, Removed, SortedSet(previous.Keys - current.Keys));
      changes := AppendChanges(changes, c, Added, SortedSet(current.Keys - previous.Keys));
      changes := AppendChanges(changes, c, Updated, SortedSet(Differing(previous, current)));
      CollectionRendered(d, c, before, after);
      RenderAllAppend(ChangesUpTo(d, before, after, n), CollectionChanges(d, c, before, after));
    }
  }

  /** The three loops over one collection, one after the other. */
  lemma CollectionRendered(d: Digests, c: Collection, before: Program, after: Program)
    ensures var previous, current := DigestIndex(d, before.Items(c)), DigestIndex(d, after.Items(c));
      RenderAll(CollectionChanges(d, c, before, after))
      == RenderAll(Tagged(c, Removed, SortedSet(previous.Keys - current.Keys)))
         + RenderAll(Tagged(c, Added, SortedSet(current.Keys - previous.Keys)))
         + RenderAll(Tagged(c, Updated, SortedSet(Differing(previous, current))))
  {
    hide RenderAll, Tagged, DigestIndex, SortedSet, Differing;
    var previous, current := DigestIndex(d, before.Items(c)), DigestIndex(d, after.Items(c));
    var removed := Tagged(c, Removed, SortedSet(previous.Keys - current.Keys));
    var added := Tagged(c, Added, SortedSet(current.Keys - previous.Keys));
    RenderAllAppend(removed, added);
    RenderAllAppend(removed + added, Tagged(c, Updated, SortedSet(Differing(previous, current))));
  }

  lemma RenderNothing()
    ensures RenderAll([]) == []
  {
  }

  // ----- a summary read back as a list of texts -----

  /** Every record carries a valid identifier. */
  ghost predicate CarriesIdentifiers(p: Program) {
    forall c: Collection, i :: 0 <= i < |p.Items(c)| ==> IsIdentifier(TextAt(p.Items(c)[i], Id))
  }

  lemma {:induction false} IndexedIds(d: Digests, records: seq<Fields>, id: string)
    ensures id in DigestIndex(d, records) <==> exists i :: 0 <= i < |records| && TextAt(records[i], Id) == id
  {
    hide TextAt;
    if records != [] {
      var n := |records| - 1;
      IndexedIds(d, records[..n], id);
      assert forall i :: 0 <= i < n ==> records[..n][i] == records[i];
    }
  }

  lemma ChangedIdIsIdentifier(d: Digests, before: Program, after: Program, change: Change)
    requires CarriesIdentifiers(before) && CarriesIdentifiers(after)
    requires change in ChangesOf(d, before, after)
    ensures IsIdentifier(change.id)
  {
    hide DigestIndex, IsIdentifier, TextAt;
    ChangesMean(d, before, after, change);
    IndexedIds(d, before.Items(change.collection), change.id);
    IndexedIds(d, after.Items(change.collection), change.id);
  }

  lemma LowerTextAppend(a: string, b: string)
    requires IsLowerText(a) && IsLowerText(b)
    ensures IsLowerText(a + b)
  {
  }

  lemma NamesAreLowerText(change: Change)
    ensures IsLowerText(CollectionName(change.collection)) && IsLowerText(VerbName(change.verb)) && IsLowerText(":")
    ensures 1 <= |CollectionName(change.collection)| <= 12 && |VerbName(change.verb)| == |VerbName(change.verb)| <= 7
    ensures !IsSpace(CollectionName(change.collection)[0])
  {
  }

  lemma IdentifierIsClean(id: string)
    requires IsIdentifier(id)
    ensures Clean(id) && |id| <= 64
  {
    assert IdStart()(id[0]) && forall i :: 1 <= i < |id| ==> IdRest()(id[i]);
  }

  lemma RenderedIsText(change: Change)
    requires IsIdentifier(change.id)
    ensures IsLowerText(Rendered(change))
    ensures EntryText(TextEntry(160), Str(Rendered(change))) == Some(Rendered(change))
  {
    hide IsIdentifier, IsLowerText, Strip;
    var name, verb := CollectionName(change.collection), VerbName(change.verb);
    IdentifierIsText(change.id);
    IdentifierIsClean(change.id);
    NamesAreLowerText(change);
    LowerTextAppend(":", verb);
    LowerTextAppend(change.id, ":" + verb);
    LowerTextAppend(":", change.id + (":" + verb));
    LowerTextAppend(name, ":" + (change.id + (":" + verb)));
    assert Rendered(change) == name + (":" + (change.id + (":" + verb)));
    RenderedEnds(change);
  }

  lemma RenderedEnds(change: Change)
    requires Clean(change.id) && |change.id| <= 64
    ensures Tight(Rendered(change)) && Clean(Rendered(change)) && 0 < |Rendered(change)| <= 160
  {
    var s := Rendered(change);
    var name, verb := CollectionName(change.collection), VerbName(change.verb);
    assert s[0] == name[0] && s[|s| - 1] == verb[|verb| - 1] == 'd';
    assert Clean(name) && Clean(verb);
    assert Clean(":" + verb) && Clean(change.id + ":" + verb);
  }

  /** The stored change list is read back whole exactly when it has at most a hundred entries. */
  lemma ChangesReadBack(env: Env, d: Digests, before: Program, after: Program)
    requires CarriesIdentifiers(before) && CarriesIdentifiers(after)
    ensures var texts := RenderAll(ChangesOf(d, before, after));
      TextList(env, Arr(Strs(texts)), 100, TextEntry(160)) == if |texts| <= 100 then Some(texts) else None
  {
    hide EntryText, Rendered, IsIdentifier, ChangesOf, CarriesIdentifiers;
    var changes := ChangesOf(d, before, after);
    var texts := RenderAll(changes);
    forall i | 0 <= i < |texts|
      ensures EntryText(TextEntry(160), Str(texts[i])) == Some(texts[i]) && env.CaseFold(texts[i]) == texts[i]
      ensures IsIdentifier(changes[i].id)
    {
      ChangedIdIsIdentifier(d, before, after, changes[i]);
      RenderedIsText(changes[i]);
      LowerFixesLowerText(env.foldOther, texts[i]);
    }
    SummaryHasNoRepeats(d, before, after);
    forall i, j | 0 <= i < j < |texts|
      ensures env.CaseFold(texts[i]) != env.CaseFold(texts[j])
    {
      if texts[i] == texts[j] { RenderedIsInjective(changes[i], changes[j]); }
    }
    EntryTextsOfOutput(TextEntry(160), texts);
    DistinctStaysWhole(env, texts);
  }

  lemma SummaryHasNoRepeats(d: Digests, before: Program, after: Program)
    ensures Distinct(ChangesOf(d, before, after))
  {
    SummaryIsDistinct(d, before, after, |COLLECTIONS|);
  }

  // ----- the audit event -----

  function AuditEvent(d: Digests, before: Program, after: Program, revision: nat, changedAt: string): Fields {
    map[
      Revision := Int(revision),
      Event := Str("workspace-updated"),
      ChangedAt := Str(changedAt),
      Changes := Arr(Strs(RenderAll(ChangesOf(d, before, after)))),
      BeforeDigest := Str(d.content(before)),
      AfterDigest := Str(d.content(after))]
  }

  /** The clock gives a time in the stored form. */
  ghost predicate StoredTime(env: Env, now: string) {
    Field(env, TimeField(true), "", Str(now)) == Some(Str(now))
  }

  lemma DigestIsText(s: string)
    requires IsSha256(s)
    ensures Text(Str(s), 64, true) == Some(s)
  {
    assert !IsSpace(s[0]) && !IsSpace(s[63]);
  }

  lemma EventNameIsText()
    ensures Text(Str("workspace-updated"), 64, true) == Some("workspace-updated")
  {
    hide Strip;
    var name := "workspace-updated";
    assert Tight(name) && Clean(name);
  }

  /** The event is read back as itself exactly when it lists at most a hundred changes. */
  lemma EventReadsBack(env: Env, d: Digests, before: Program, after: Program, revision: nat, now: string)
    requires d.Lawful() && StoredTime(env, now) && revision >= 1
    requires CarriesIdentifiers(before) && CarriesIdentifiers(after)
    ensures var event := AuditEvent(d, before, after, revision, now);
      && Record(env, AUDIT_ENTRY, "", Obj(event)) ==
           if |ChangesOf(d, before, after)| <= 100 then Some(event) else None
  {
    hide TextList, ChangesOf, IsSha256, Text, TimeValue, CarriesIdentifiers, Digests.Lawful, Strs;
    var event := AuditEvent(d, before, after, revision, now);
    ChangesReadBack(env, d, before, after);
    LawfulDigests(d, before);
    LawfulDigests(d, after);
    DigestIsText(d.content(before));
    DigestIsText(d.content(after));
    EventNameIsText();
    assert event.Keys == AUDIT_ENTRY.Keys;
    var changes := Field(env, AUDIT_ENTRY[Changes], "", event[Changes]);
    assert changes.Some? <==> |ChangesOf(d, before, after)| <= 100;
    if changes.Some? {
      forall k | k in AUDIT_ENTRY
        ensures Field(env, AUDIT_ENTRY[k], "", Get(event, k, Fallback(AUDIT_ENTRY[k]))) == Some(event[k])
      {
        assert k in {Revision, Event, ChangedAt, Changes, BeforeDigest, AfterDigest};
      }
      FilledOfOutput(env, AUDIT_ENTRY, event);
    }
  }

  lemma FilledOfOutput(env: Env, table: map<Key, FieldKind>, r: Fields)
    requires r.Keys == table.Keys
    requires forall k :: k in table ==> Field(env, table[k], "", Get(r, k, Fallback(table[k]))) == Some(r[k])
    ensures Filled(env, table, "", r) == Some(r)
  {
    hide Field, Fallback;
    assert r == map k | k in table :: Field(env, table[k], "", Get(r, k, Fallback(table[k]))).value;
  }

  lemma LawfulDigests(d: Digests, p: Program)
    requires d.Lawful()
    ensures IsSha256(d.content(p))
  {
  }

  // ----- an empty summary -----

  lemma {:induction false} IndexedDigest(d: Digests, records: seq<Fields>, i: nat)
    requires Distinct(Ids(records)) && i < |records|
    ensures TextAt(records[i], Id) in DigestIndex(d, records)
    ensures DigestIndex(d, records)[TextAt(records[i], Id)] == d.item(records[i])
  {
    hide TextAt;
    var n := |records| - 1;
    if i < n {
      assert Ids(records)[i] != Ids(records)[n];
      forall j, k | 0 <= j < k < n ensures Ids(records[..n])[j] != Ids(records[..n])[k] {
        assert Ids(records)[j] != Ids(records)[k];
      }
      IndexedDigest(d, records[..n], i);
    }
  }

  /** A record with the same identifier and the same digest is there. */
  ghost predicate Matched(d: Digests, r: Fields, records: seq<Fields>) {
    exists i :: 0 <= i < |records| && TextAt(records[i], Id) == TextAt(r, Id) && d.item(records[i]) == d.item(r)
  }

  lemma NoChangeMatches(d: Digests, before: Program, after: Program, c: Collection, i: nat)
    requires Distinct(Ids(before.Items(c))) && Distinct(Ids(after.Items(c))) && i < |before.Items(c)|
    requires ChangesOf(d, before, after) == []
    ensures Matched(d, before.Items(c)[i], after.Items(c))
  {
    hide TextAt, DigestIndex, ChangesOf, Distinct;
    var id := TextAt(before.Items(c)[i], Id);
    IndexedDigest(d, before.Items(c), i);
    ChangesMean(d, before, after, Change(c, id, Removed));
    ChangesMean(d, before, after, Change(c, id, Updated));
    IndexedIds(d, after.Items(c), id);
    var j :| 0 <= j < |after.Items(c)| && TextAt(after.Items(c)[j], Id) == id;
    IndexedDigest(d, after.Items(c), j);
  }

  /** With no change listed, every record of the old document is in the new one, unless two records of
      one identifier have one digest. */
  lemma EmptySummaryMeansSameRecords(d: Digests, before: Program, after: Program, c: Collection, i: nat)
    requires Distinct(Ids(before.Items(c))) && Distinct(Ids(after.Items(c))) && i < |before.Items(c)|
    requires ChangesOf(d, before, after) == []
    ensures before.Items(c)[i] in after.Items(c)
      || exists r :: r in after.Items(c) && r != before.Items(c)[i] && d.item(r) == d.item(before.Items(c)[i])
  {
    hide TextAt, ChangesOf, Distinct;
    NoChangeMatches(d, before, after, c, i);
    var r := before.Items(c)[i];
    var j :| 0 <= j < |after.Items(c)| && TextAt(after.Items(c)[j], Id) == TextAt(r, Id)
      && d.item(after.Items(c)[j]) == d.item(r);
    assert after.Items(c)[j] in after.Items(c);
  }
}
