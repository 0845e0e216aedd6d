/** Field normalisers of the CTI workspace: each accepts a JSON value and yields the value stored. */
module CtiFields {
  import opened Prelude
  import opened Values

  datatype Key =
    | SchemaVersion | Revision | UpdatedAt | Sources | Technologies | Requirements | Intelligence | AuditHistory
    | ExpectedRevision
    | Id | Enabled | Name | SourceType | Acquisition | Endpoint | CredentialReference | Owner | Cadence | Reliability
    | Handling | ReviewDate | Disposition | CollectionStatus | LastAttemptAt | LastSuccessAt | FailureCode | Notes
    | Vendor | Product | Category | Versions | DeploymentScope | Criticality | Priority | Exposure | MonitorFor
    | Active | Title | Decision | Sponsor | Consumers | Horizon | CollectionGaps | Deliverable | SuccessCriteria
    | Status
    | DeduplicationKey | LifecycleState | RequirementIds | SourceIds | AffectedTechnologyIds | SourceReliability
    | InformationCredibility | Confidence | CollectedAt | AnalyzedAt | PublishedAt | ExpiresAt | Summary
    | AnalyticJudgment | Assumptions | Alternatives | Evidence | Entities | InvestigationUse
    | EvidenceKind | Reference | Description | ObservedAt | SourceId | EntityType | EntityValue | EvidenceIds
    | Event | ChangedAt | Changes | BeforeDigest | AfterDigest
    | Other(name: string)

  type Value = Json<Key>
  type Fields = map<Key, Value>

  /** Date, URL, time and case handling of the Python library. */
  datatype Env = Env(
    foldOther: char -> string,
    dateOk: string -> bool,
    endpointOk: string -> bool,
    referenceOk: string -> bool,
    stamp: string -> Option<int>,
    format: int -> string)
  {
    /** A formatted instant is plain text that parses back to the instant. */
    ghost predicate Lawful() {
      forall s :: stamp(s).Some? ==>
        var t := stamp(s).value;
        stamp(format(t)) == Some(t) && format(t) != "" && Tight(format(t)) && |format(t)| <= 40 && Clean(format(t))
    }

    /** `str.casefold()`, which acts on each character and lower-cases ASCII. */
    function CaseFold(s: string): string {
      Lower(foldOther, s)
    }
  }

  // ----- text -----

  /** No control character besides line feed and tab. */
  predicate Clean(s: string) {
    forall i :: 0 <= i < |s| ==> s[i] as int >= 32 || s[i] == '\n' || s[i] == '\t'
  }

  function Text(v: Value, limit: nat, required: bool): Option<string> {
    if !v.Str? then None
    else
      var s := Strip(v.s);
      if (required && s == "") || |s| > limit || !Clean(s) then None else Some(s)
  }

  lemma TextIsFixed(v: Value, limit: nat, required: bool)
    ensures Text(v, limit, required).Some? ==>
      Text(Str(Text(v, limit, required).value), limit, required) == Text(v, limit, required)
  {
    hide Strip, Clean;
  }

  function IdStart(): char -> bool { (c: char) => IsLowerLetter(c) || IsDigit(c) }

  function IdRest(): char -> bool { (c: char) => IsLowerLetter(c) || IsDigit(c) || c == '_' || c == '-' }

  predicate IsIdentifier(s: string) {
    Matches(s, IdStart(), IdRest(), 3, 64)
  }

  predicate IsSecretReference(s: string) {
    Matches(s, IsUpperLetter, (c: char) => IsUpperLetter(c) || IsDigit(c) || c == '_', 3, 80)
  }

  // ----- lists -----

  function FoldKeys(env: Env, texts: seq<string>): set<string> {
    set t | t in texts :: env.CaseFold(t)
  }

  /** Keeps the first of the texts that differ only in case. */
  function Deduped(env: Env, texts: seq<string>): seq<string> {
    if texts == [] then []
    else
      var kept := Deduped(env, texts[..|texts| - 1]);
      var t := texts[|texts| - 1];
      if env.CaseFold(t) in FoldKeys(env, kept) then kept else kept + [t]
  }

  predicate DistinctFolds(env: Env, texts: seq<string>) {
    forall i, j :: 0 <= i < j < |texts| ==> env.CaseFold(texts[i]) != env.CaseFold(texts[j])
  }

  lemma {:induction false} DedupedIsDistinct(env: Env, texts: seq<string>)
    ensures DistinctFolds(env, Deduped(env, texts))
    ensures |Deduped(env, texts)| <= |texts|
    ensures forall t :: t in Deduped(env, texts) ==> t in texts
    ensures FoldKeys(env, Deduped(env, texts)) == FoldKeys(env, texts)
  {
    hide Env.CaseFold;
    if texts != [] {
      var front, t := texts[..|texts| - 1], texts[|texts| - 1];
      DedupedIsDistinct(env, front);
      assert texts == front + [t];
      assert FoldKeys(env, texts) == FoldKeys(env, front) + {env.CaseFold(t)};
      var kept := Deduped(env, front);
      assert FoldKeys(env, kept + [t]) == FoldKeys(env, kept) + {env.CaseFold(t)};
      forall i | 0 <= i < |kept| ensures env.CaseFold(kept[i]) in FoldKeys(env, kept) {}
    }
  }

  lemma {:induction false} DistinctStaysWhole(env: Env, texts: seq<string>)
    requires DistinctFolds(env, texts)
    ensures Deduped(env, texts) == texts
  {
    hide Env.CaseFold;
    if texts != [] {
      var front, t := texts[..|texts| - 1], texts[|texts| - 1];
      DistinctStaysWhole(env, front);
      assert texts == front + [t];
      assert env.CaseFold(t) !in FoldKeys(env, front) by {
        forall u | u in front ensures env.CaseFold(u) != env.CaseFold(t) {
          var i :| 0 <= i < |front| && front[i] == u;
          assert texts[i] == u;
        }
      }
    }
  }

  /** No earlier text differs from this one only in case. */
  predicate IsFirst(env: Env, texts: seq<string>, i: nat) {
    i < |texts| && forall j :: 0 <= j < i ==> env.CaseFold(texts[j]) != env.CaseFold(texts[i])
  }

  /** Of the texts that differ only in case the first is kept. */
  lemma {:induction false} DedupedKeepsTheFirst(env: Env, texts: seq<string>, t: string)
    ensures t in Deduped(env, texts) <==> exists i: nat :: IsFirst(env, texts, i) && texts[i] == t
  {
    if texts != [] {
      hide Deduped, IsFirst, FoldKeys, Env.CaseFold;
      var n := |texts| - 1;
      DedupedKeepsTheFirst(env, texts[..n], t);
      KeptOfOneMore(env, texts, t);
      LastIsFirst(env, texts);
      forall i: nat { FirstOfFront(env, texts, i); }
    }
  }

  lemma KeptOfOneMore(env: Env, texts: seq<string>, t: string)
    requires texts != []
    ensures var front, last := texts[..|texts| - 1], texts[|texts| - 1];
      t in Deduped(env, texts) <==>
        t in Deduped(env, front) || (t == last && env.CaseFold(last) !in FoldKeys(env, front))
  {
    hide FoldKeys, Env.CaseFold;
    DedupedIsDistinct(env, texts[..|texts| - 1]);
  }

  lemma FirstOfFront(env: Env, texts: seq<string>, i: nat)
    requires texts != []
    ensures IsFirst(env, texts[..|texts| - 1], i) <==> IsFirst(env, texts, i) && i != |texts| - 1
    ensures i < |texts| - 1 ==> texts[..|texts| - 1][i] == texts[i]
    ensures IsFirst(env, texts, i) ==> i < |texts|
  {
    hide Env.CaseFold;
  }

  lemma LastIsFirst(env: Env, texts: seq<string>)
    requires texts != []
    ensures var n := |texts| - 1;
      IsFirst(env, texts, n) <==> env.CaseFold(texts[n]) !in FoldKeys(env, texts[..n])
  {
    hide Env.CaseFold;
    var n := |texts| - 1;
    forall j | 0 <= j < n ensures env.CaseFold(texts[j]) in FoldKeys(env, texts[..n]) {
      assert texts[..n][j] == texts[j];
    }
  }

  /** How one entry of a list is read. */
  datatype Entry = TextEntry(limit: nat) | IdEntry

  function EntryText(entry: Entry, v: Value): Option<string> {
    match entry
    case TextEntry(limit) => Text(v, limit, true)
    case IdEntry =>
      var s := Text(v, 64, false);
      if s.Some? && IsIdentifier(s.value) then s else None
  }

  function EntryTexts(entry: Entry, items: seq<Value>): Option<seq<string>> {
    if items == [] then Some([])
    else
      var front := EntryTexts(entry, items[..|items| - 1]);
      var last := EntryText(entry, items[|items| - 1]);
      if front.Some? && last.Some? then Some(front.value + [last.value]) else None
  }

  lemma {:induction false} EntryTextsOfOutput(entry: Entry, texts: seq<string>)
    requires forall t :: t in texts ==> EntryText(entry, Str(t)) == Some(t)
    ensures EntryTexts(entry, Strs(texts)) == Some(texts)
  {
    hide EntryText;
    if texts != [] {
      var front, t := texts[..|texts| - 1], texts[|texts| - 1];
      EntryTextsOfOutput(entry, front);
      assert Strs<Key>(texts)[..|texts| - 1] == Strs<Key>(front);
      assert texts == front + [t];
    } else {
      assert Strs<Key>(texts) == [];
    }
  }

  lemma EntryIsFixed(entry: Entry, v: Value)
    ensures EntryText(entry, v).Some? ==> EntryText(entry, Str(EntryText(entry, v).value)) == EntryText(entry, v)
  {
    hide Text, IsIdentifier;
    match entry
    case TextEntry(limit) => TextIsFixed(v, limit, true);
    case IdEntry => TextIsFixed(v, 64, false);
  }

  lemma {:induction false} EntryTextsAreFixed(entry: Entry, items: seq<Value>)
    requires EntryTexts(entry, items).Some?
    ensures |EntryTexts(entry, items).value| == |items|
    ensures forall t :: t in EntryTexts(entry, items).value ==> EntryText(entry, Str(t)) == Some(t)
  {
    hide EntryText;
    if items != [] {
      EntryTextsAreFixed(entry, items[..|items| - 1]);
      EntryIsFixed(entry, items[|items| - 1]);
    }
  }

  /** _string_list and _life_list */
  function TextList(env: Env, v: Value, maximum: nat, entry: Entry): Option<seq<string>> {
    if !v.Arr? || |v.items| > maximum then None
    else match EntryTexts(entry, v.items)
      case None => None
      case Some(texts) => Some(Deduped(env, texts))
  }

  lemma {:induction false} EntryTextsPrefix(entry: Entry, items: seq<Value>, n: nat)
    requires n <= |items| && EntryTexts(entry, items).Some?
    ensures EntryTexts(entry, items[..n]).Some?
  {
    hide EntryText;
    if n < |items| {
      EntryTextsPrefix(entry, items[..|items| - 1], n);
      assert items[..|items| - 1][..n] == items[..n];
    } else {
      assert items[..n] == items;
    }
  }

  lemma EntryTextsStep(entry: Entry, items: seq<Value>, n: nat)
    requires n < |items|
    ensures EntryTexts(entry, items[..n + 1]) ==
      match EntryTexts(entry, items[..n])
      case None => None
      case Some(texts) =>
        if EntryText(entry, items[n]).None? then None else Some(texts + [EntryText(entry, items[n]).value])
  {
    hide EntryText;
    assert items[..n + 1][..n] == items[..n];
  }

  lemma DedupedStep(env: Env, texts: seq<string>, t: string)
    ensures Deduped(env, texts + [t]) ==
      if env.CaseFold(t) in FoldKeys(env, Deduped(env, texts)) then Deduped(env, texts) else Deduped(env, texts) + [t]
    ensures FoldKeys(env, Deduped(env, texts) + [t]) == FoldKeys(env, Deduped(env, texts)) + {env.CaseFold(t)}
  {
    hide Env.CaseFold;
    assert (texts + [t])[..|texts|] == texts;
    assert forall u :: u in Deduped(env, texts) + [t] <==> u in Deduped(env, texts) || u == t;
  }

  /** The loop: stops at the first bad entry, skips one seen before in another case. */
  method LifeList(env: Env, v: Value, maximum: nat, entry: Entry) returns (r: Option<seq<string>>)
    ensures r == TextList(env, v, maximum, entry)
  {
    hide EntryText, EntryTexts, FoldKeys, Deduped, Env.CaseFold;
    if !v.Arr? || |v.items| > maximum { return None; }
    var result, seen := [], {};
    ghost var texts := [];
    NothingListed(env, entry);
    assert v.items[..0] == [];
    for n := 0 to |v.items|
      invariant EntryTexts(entry, v.items[..n]) == Some(texts)
      invariant result == Deduped(env, texts)
      invariant seen == FoldKeys(env, result)
    {
      EntryTextsStep(entry, v.items, n);
      var normalized := EntryText(entry, v.items[n]);
      if normalized.None? {
        if EntryTexts(entry, v.items).Some? { EntryTextsPrefix(entry, v.items, n + 1); }
        return None;
      }
      DedupedStep(env, texts, normalized.value);
      texts := texts + [normalized.value];
      var key := env.CaseFold(normalized.value);
      if key !in seen {
        seen := seen + {key};
        result := result + [normalized.value];
      }
    }
    assert v.items[..|v.items|] == v.items;
    r := Some(result);
  }

  lemma NothingListed(env: Env, entry: Entry)
    ensures EntryTexts(entry, []) == Some([]) && Deduped(env, []) == [] && FoldKeys(env, []) == {}
  {
  }

  lemma TextListIsFixed(env: Env, v: Value, maximum: nat, entry: Entry)
    ensures var r := TextList(env, v, maximum, entry);
      r.Some? ==> TextList(env, Arr(Strs(r.value)), maximum, entry) == r
  {
    hide EntryText;
    if TextList(env, v, maximum, entry).Some? {
      var texts := EntryTexts(entry, v.items).value;
      var kept := Deduped(env, texts);
      EntryTextsAreFixed(entry, v.items);
      DedupedIsDistinct(env, texts);
      EntryTextsOfOutput(entry, kept);
      DistinctStaysWhole(env, kept);
    }
  }

  // ----- fields -----

  datatype FieldKind =
    | TextField(limit: nat, required: bool)
    | EnumField(allowed: set<string>, fallback: string)
    | IdField(generate: bool)
    | DateField
    | EndpointField
    | SecretField
    | FailureField
    | TimeField(required: bool)
    | ReferenceField
    | BoolField
    | CountField
    | DigestField
    | ListField(maximum: nat, entry: Entry, nonEmpty: bool)

  /** `value.get(key, default)`: what stands for a missing member. */
  function Fallback(kind: FieldKind): Value {
    match kind
    case EnumField(_, fallback) => Str(fallback)
    case BoolField => Null
    case CountField => Null
    case ListField(_, _, _) => Arr([])
    case _ => Str("")
  }

  function Accepted(s: Option<string>, ok: string -> bool): Option<Value> {
    if s.Some? && ok(s.value) then Some(Str(s.value)) else None
  }

  /** One field, or None where the source rejects it; `newId` is the identifier to use for an empty id. */
  function Field(env: Env, kind: FieldKind, newId: string, v: Value): Option<Value> {
    match kind
    case TextField(limit, required) => Accepted(Text(v, limit, required), s => true)
    case EnumField(allowed, _) => Accepted(Text(v, 64, true), s => s in allowed)
    case IdField(generate) =>
      var s := Text(v, 64, false);
      var chosen := if s == Some("") && generate then Some(newId) else s;
      Accepted(chosen, IsIdentifier)
    case DateField => Accepted(Text(v, 10, false), s => s == "" || env.dateOk(s))
    case EndpointField => Accepted(Text(v, 500, false), s => s == "" || env.endpointOk(s))
    case SecretField => Accepted(Text(v, 80, false), s => s == "" || IsSecretReference(s))
    case FailureField => Accepted(Text(v, 120, false), s => s == "" || IsIdentifier(s))
    case TimeField(required) => TimeValue(env, Text(v, 40, required))
    case ReferenceField => Accepted(Text(v, 500, true), env.referenceOk)
    case BoolField => if v.Bool? then Some(v) else None
    case CountField => if v.Int? && v.n >= 1 then Some(v) else None
    case DigestField => Accepted(Text(v, 64, true), IsSha256)
    case ListField(maximum, entry, nonEmpty) =>
      match TextList(env, v, maximum, entry) {
        case None => None
        case Some(texts) => if nonEmpty && texts == [] then None else Some(Arr(Strs(texts)))
      }
  }

  /** A time is stored in UTC to the second; an absent one stays empty. */
  function TimeValue(env: Env, s: Option<string>): Option<Value> {
    if s.None? then None
    else if s.value == "" then Some(Str(""))
    else match env.stamp(s.value)
      case None => None
      case Some(t) => Some(Str(env.format(t)))
  }

  lemma IdentifierIsText(s: string)
    requires IsIdentifier(s)
    ensures Text(Str(s), 64, false) == Some(s)
    ensures IsLowerText(s)
  {
    assert IdStart()(s[0]) && forall i :: 1 <= i < |s| ==> IdRest()(s[i]);
    assert !IsSpace(s[0]) && !IsSpace(s[|s| - 1]);
  }

  /** A stored field is read back as itself. */
  lemma FieldIsFixed(env: Env, kind: FieldKind, newId: string, otherId: string, v: Value)
    requires env.Lawful()
    ensures var r := Field(env, kind, newId, v);
      r.Some? ==> Field(env, kind, otherId, r.value) == r
  {
    hide Strip, Clean, IsIdentifier, IsSecretReference, IsSha256, TextList, Strs;
    var r := Field(env, kind, newId, v);
    if r.Some? {
      match kind
      case TextField(limit, required) => TextIsFixed(v, limit, required);
      case EnumField(allowed, fallback) => TextIsFixed(v, 64, true);
      case IdField(generate) => IdentifierIsText(r.value.s); EmptyIsNoIdentifier();
      case DateField => TextIsFixed(v, 10, false);
      case EndpointField => TextIsFixed(v, 500, false);
      case SecretField => TextIsFixed(v, 80, false);
      case FailureField => TextIsFixed(v, 120, false);
      case TimeField(required) => TimeIsFixed(env, v, required);
      case ReferenceField => TextIsFixed(v, 500, true);
      case BoolField =>
      case CountField =>
      case DigestField => TextIsFixed(v, 64, true);
      case ListField(maximum, entry, nonEmpty) => TextListIsFixed(env, v, maximum, entry);
    }
  }

  lemma EmptyIsNoIdentifier()
    ensures !IsIdentifier("")
  {
  }

  lemma FormattedIsText(env: Env, s: string, required: bool)
    requires env.Lawful() && env.stamp(s).Some?
    ensures var text := env.format(env.stamp(s).value);
      Text(Str(text), 40, required) == Some(text)
  {
    hide Clean;
  }

  lemma TimeIsFixed(env: Env, v: Value, required: bool)
    requires env.Lawful()
    ensures var r := TimeValue(env, Text(v, 40, required));
      r.Some? ==> r.value.Str? && TimeValue(env, Text(r.value, 40, required)) == r
  {
    hide Text;
    var s := Text(v, 40, required);
    if s.Some? && s.value != "" && env.stamp(s.value).Some? {
      FormattedIsText(env, s.value, required);
    } else if s == Some("") {
      TextIsFixed(v, 40, required);
    }
  }
}
