/** The stored form of the CTI workspace, said without the normaliser: which texts, lists, records and
    collections it is made of, and that normalisation leaves exactly those as they are. */
module CtiForms {
  import opened Prelude
  import opened Values
  import opened CtiFields
  import opened CtiRecords
  import opened CtiProgram

  // ----- texts -----

  /** No blank at the ends, no control character but line feed and tab, and not too long. */
  predicate PlainString(s: string, limit: nat, required: bool) {
    && Tight(s) && |s| <= limit && (required ==> s != "")
    && forall i :: 0 <= i < |s| ==> s[i] as int > 31 || s[i] as int == 10 || s[i] as int == 9
  }

  /** Three to sixty-four lower-case letters, digits, underscores and hyphens, the first a letter or digit. */
  predicate IsName(s: string) {
    && 3 <= |s| <= 64 && s[0] != '_' && s[0] != '-'
    && forall i :: 0 <= i < |s| ==> 'a' <= s[i] <= 'z' || '0' <= s[i] <= '9' || s[i] == '_' || s[i] == '-'
  }

  /** Three to eighty capitals, digits and underscores, the first a capital. */
  predicate IsVariableName(s: string) {
    && 3 <= |s| <= 80 && 'A' <= s[0] <= 'Z'
    && forall i :: 0 <= i < |s| ==> 'A' <= s[i] <= 'Z' || '0' <= s[i] <= '9' || s[i] == '_'
  }

  lemma NamesAreIdentifiers(s: string)
    ensures IsIdentifier(s) <==> IsName(s)
    ensures IsSecretReference(s) <==> IsVariableName(s)
  {
    if IsIdentifier(s) { assert IdStart()(s[0]) && forall i :: 1 <= i < |s| ==> IdRest()(s[i]); }
    if IsName(s) { assert IdStart()(s[0]) && forall i :: 1 <= i < |s| ==> IdRest()(s[i]); }
  }

  lemma TextsAreStored(v: Value, limit: nat, required: bool)
    ensures v.Str? && Text(v, limit, required) == Some(v.s) <==> v.Str? && PlainString(v.s, limit, required)
    ensures Text(v, limit, required).Some? ==> PlainString(Text(v, limit, required).value, limit, required)
  {
    hide Tight;
  }

  // ----- fields -----

  predicate StoredEntry(entry: Entry, v: Value) {
    v.Str? && match entry
      case TextEntry(limit) => PlainString(v.s, limit, true)
      case IdEntry => IsName(v.s)
  }

  /** Not too many entries, each in stored form, and no two the same text but for case. */
  predicate StoredList(env: Env, items: seq<Value>, maximum: nat, entry: Entry) {
    && |items| <= maximum
    && (forall i :: 0 <= i < |items| ==> StoredEntry(entry, items[i]))
    && (forall i, j :: 0 <= i < j < |items| ==> env.CaseFold(items[i].s) != env.CaseFold(items[j].s))
  }

  /** A time as the clock prints it. */
  predicate PrintedTime(env: Env, s: string) {
    env.stamp(s).Some? && env.format(env.stamp(s).value) == s
  }

  predicate StoredField(env: Env, kind: FieldKind, v: Value) {
    match kind
    case TextField(limit, required) => v.Str? && PlainString(v.s, limit, required)
    case EnumField(allowed, _) => v.Str? && v.s in allowed && PlainString(v.s, 64, true)
    case IdField(_) => v.Str? && IsName(v.s)
    case DateField => v.Str? && PlainString(v.s, 10, false) && (v.s == "" || env.dateOk(v.s))
    case EndpointField => v.Str? && PlainString(v.s, 500, false) && (v.s == "" || env.endpointOk(v.s))
    case SecretField => v.Str? && (v.s == "" || IsVariableName(v.s))
    case FailureField => v.Str? && (v.s == "" || IsName(v.s))
    case TimeField(required) => v.Str? && if v.s == "" then !required else PrintedTime(env, v.s)
    case ReferenceField => v.Str? && PlainString(v.s, 500, true) && env.referenceOk(v.s)
    case BoolField => v.Bool?
    case CountField => v.Int? && v.n > 0
    case DigestField => v.Str? && IsSha256(v.s)
    case ListField(maximum, entry, nonEmpty) =>
      v.Arr? && StoredList(env, v.items, maximum, entry) && (nonEmpty ==> v.items != [])
  }

  lemma NamesAreText(s: string)
    ensures IsName(s) ==> PlainString(s, 64, true)
    ensures IsVariableName(s) ==> PlainString(s, 80, true)
    ensures IsSha256(s) ==> PlainString(s, 64, true)
    ensures PlainString("", 80, false) && PlainString("", 120, false)
  {
    if IsSha256(s) { assert IsHexDigit(s[0]) && IsHexDigit(s[63]); }
  }

  lemma EntriesAreStored(entry: Entry, v: Value)
    ensures v.Str? && EntryText(entry, v) == Some(v.s) <==> StoredEntry(entry, v)
  {
    hide Text, IsIdentifier, IsName, PlainString;
    if v.Str? {
      NamesAreIdentifiers(v.s);
      NamesAreText(v.s);
      match entry
      case TextEntry(limit) => TextsAreStored(v, limit, true);
      case IdEntry =>
        TextsAreStored(v, 64, false);
        RequiredOrNot(v.s, 64);
    }
  }

  lemma RequiredOrNot(s: string, limit: nat)
    ensures PlainString(s, limit, true) ==> PlainString(s, limit, false)
  {
  }

  lemma StoredListsAreRead(env: Env, items: seq<Value>, maximum: nat, entry: Entry)
    requires StoredList(env, items, maximum, entry)
    ensures TextList(env, Arr(items), maximum, entry).Some?
    ensures Strs(TextList(env, Arr(items), maximum, entry).value) == items
  {
    hide EntryText, StoredEntry, Env.CaseFold;
    forall i | 0 <= i < |items| ensures items[i].Str? && EntryText(entry, items[i]) == Some(items[i].s) {
      EntriesAreStored(entry, items[i]);
    }
    var texts := seq(|items|, i requires 0 <= i < |items| => items[i].s);
    assert Strs(texts) == items;
    forall t | t in texts ensures EntryText(entry, Str(t)) == Some(t) {
      var i :| 0 <= i < |texts| && texts[i] == t;
      assert items[i] == Str(t);
    }
    EntryTextsOfOutput(entry, texts);
    DistinctStaysWhole(env, texts);
  }

  lemma ReadListsAreStored(env: Env, items: seq<Value>, maximum: nat, entry: Entry)
    requires TextList(env, Arr(items), maximum, entry).Some?
    requires Strs(TextList(env, Arr(items), maximum, entry).value) == items
    ensures StoredList(env, items, maximum, entry)
  {
    hide EntryText, StoredEntry, Env.CaseFold, Deduped;
    var texts := EntryTexts(entry, items).value;
    var kept := TextList(env, Arr(items), maximum, entry).value;
    EntryTextsAreFixed(entry, items);
    DedupedIsDistinct(env, texts);
    forall i | 0 <= i < |items| ensures StoredEntry(entry, items[i]) && items[i] == Str(kept[i]) {
      assert items[i] == Strs<Key>(kept)[i];
      assert kept[i] in kept;
      EntriesAreStored(entry, items[i]);
    }
  }

  lemma TimesAreStored(env: Env, v: Value, required: bool)
    requires env.Lawful()
    ensures TimeValue(env, Text(v, 40, required)) == Some(v) <==> StoredField(env, TimeField(required), v)
  {
    hide Clean, Strip, Tight;
    NoTextIsText(40);
    if v.Str? {
      var s := Strip(v.s);
      if env.stamp(s).Some? { FormattedIsText(env, s, required); }
      if env.stamp(v.s).Some? { FormattedIsText(env, v.s, required); }
      assert Strip("") == "" by { assert |Strip("")| <= 0; }
    }
  }

  lemma OtherValuesAreNone(env: Env, v: Value)
    ensures !v.Str? ==> forall limit, required :: Text(v, limit, required).None?
    ensures !v.Arr? ==> forall maximum, entry :: TextList(env, v, maximum, entry).None?
    ensures TimeValue(env, None).None?
  {
  }

  /** A field is normalised to itself exactly when it is in stored form. */
  lemma FieldsAreStored(env: Env, kind: FieldKind, newId: string, v: Value)
    requires env.Lawful()
    ensures Field(env, kind, newId, v) == Some(v) <==> StoredField(env, kind, v)
  {
    hide Text, PlainString, IsIdentifier, IsSecretReference, IsName, IsVariableName, IsSha256, TextList, StoredList,
      TimeValue, PrintedTime;
    OtherValuesAreNone(env, v);
    if v.Str? {
      NamesAreIdentifiers(v.s);
      NamesAreText(v.s);
      NamesAreText("");
      match kind
      case TextField(limit, required) => TextsAreStored(v, limit, required);
      case EnumField(_, _) => TextsAreStored(v, 64, true);
      case IdField(_) => TextsAreStored(v, 64, false); RequiredOrNot(v.s, 64); EmptyIsNoIdentifier();
      case DateField => TextsAreStored(v, 10, false);
      case EndpointField => TextsAreStored(v, 500, false);
      case SecretField => TextsAreStored(v, 80, false); RequiredOrNot(v.s, 80);
      case FailureField => TextsAreStored(v, 120, false); LongerText(v.s, 64, 120);
      case TimeField(required) => TimesAreStored(env, v, required);
      case ReferenceField => TextsAreStored(v, 500, true);
      case DigestField => TextsAreStored(v, 64, true);
      case _ =>
    } else if v.Arr? && kind.ListField? {
      assert v == Arr(v.items);
      if StoredList(env, v.items, kind.maximum, kind.entry) {
        StoredListsAreRead(env, v.items, kind.maximum, kind.entry);
      } else if Field(env, kind, newId, v) == Some(v) {
        ReadListsAreStored(env, v.items, kind.maximum, kind.entry);
      }
    }
  }

  lemma LongerText(s: string, limit: nat, more: nat)
    requires limit <= more
    ensures PlainString(s, limit, true) ==> PlainString(s, more, false)
  {
  }

  // ----- records -----

  /** Exactly the members of the table, each in stored form. */
  predicate StoredRecord(env: Env, table: map<Key, FieldKind>, r: Fields) {
    r.Keys == table.Keys && forall k :: k in table ==> StoredField(env, table[k], r[k])
  }

  /** The members of the table, among others, are in stored form exactly when they are normalised to
      themselves. */
  lemma FillingIsStored(env: Env, table: map<Key, FieldKind>, newId: string, r: Fields)
    requires env.Lawful() && table.Keys <= r.Keys
    ensures Filled(env, table, newId, r) == Some(map k | k in table :: r[k])
            <==> forall k :: k in table ==> StoredField(env, table[k], r[k])
  {
    hide Field, Fallback, StoredField, Env.Lawful;
    forall k | k in table
      ensures Field(env, table[k], newId, Get(r, k, Fallback(table[k]))) == Some(r[k])
              <==> StoredField(env, table[k], r[k])
    {
      FieldsAreStored(env, table[k], newId, r[k]);
    }
    if forall k :: k in table ==> StoredField(env, table[k], r[k]) {
      assert (map k | k in table :: r[k])
          == map k | k in table :: Field(env, table[k], newId, Get(r, k, Fallback(table[k]))).value;
    } else if Filled(env, table, newId, r) == Some(map k | k in table :: r[k]) {
      var filled := Filled(env, table, newId, r).value;
      forall k | k in table ensures StoredField(env, table[k], r[k]) {
        assert filled[k] == r[k];
      }
    }
  }

  lemma RecordsAreStored(env: Env, table: map<Key, FieldKind>, newId: string, r: Fields)
    requires env.Lawful()
    ensures Record(env, table, newId, Obj(r)) == Some(r) <==> StoredRecord(env, table, r)
  {
    hide Filled, StoredField, Env.Lawful;
    if r.Keys == table.Keys {
      FillingIsStored(env, table, newId, r);
      assert r == map k | k in table :: r[k];
    } else {
      RecordIsFixed(env, table, newId, newId, Obj(r));
    }
  }

  lemma {:induction false} RecordsReadBack(env: Env, table: map<Key, FieldKind>, records: seq<Fields>)
    ensures PlainRecords(env, table, Objs(records)) == Some(records) <==>
      forall r :: r in records ==> Record(env, table, "", Obj(r)) == Some(r)
    ensures PlainRecords(env, table, Objs(records)).Some? <==>
      forall r :: r in records ==> Record(env, table, "", Obj(r)).Some?
  {
    hide Record;
    if records == [] {
      assert Objs(records) == [];
    } else {
      RecordsReadBack(env, table, records[1..]);
      assert Objs(records)[1..] == Objs(records[1..]);
      assert Objs(records)[0] == Obj(records[0]);
      assert records == [records[0]] + records[1..];
    }
  }

  /** A list of such records, not too long. */
  predicate StoredRecords(env: Env, table: map<Key, FieldKind>, maximum: nat, v: Value) {
    && v.Arr? && |v.items| <= maximum
    && forall i :: 0 <= i < |v.items| ==> v.items[i].Obj? && StoredRecord(env, table, v.items[i].fields)
  }

  lemma SubRecordsAreStored(env: Env, table: map<Key, FieldKind>, maximum: nat, v: Value)
    requires env.Lawful()
    ensures SubRecords(env, table, maximum, v).Some? && Arr(Objs(SubRecords(env, table, maximum, v).value)) == v
            <==> StoredRecords(env, table, maximum, v)
  {
    hide Record, StoredRecord, PlainRecords, Env.Lawful;
    if v.Arr? {
      var records := AsFields(v.items);
      RecordsReadBack(env, table, records);
      forall r ensures Record(env, table, "", Obj(r)) == Some(r) <==> StoredRecord(env, table, r) {
        RecordsAreStored(env, table, "", r);
      }
      if StoredRecords(env, table, maximum, v) {
        assert Objs(records) == v.items;
        forall r | r in records ensures StoredRecord(env, table, r) {
          var i :| 0 <= i < |records| && records[i] == r;
          assert v.items[i].Obj?;
        }
      } else if SubRecords(env, table, maximum, v).Some? && Arr(Objs(SubRecords(env, table, maximum, v).value)) == v {
        var kept := SubRecords(env, table, maximum, v).value;
        assert records == kept by { ObjectsAreRecords(kept); }
        forall i | 0 <= i < |v.items| ensures v.items[i].Obj? && StoredRecord(env, table, v.items[i].fields) {
          assert v.items[i] == Objs(kept)[i] && kept[i] in records;
        }
      }
    }
  }

  lemma ObjectsAreRecords(records: seq<Fields>)
    ensures AsFields(Objs(records)) == records
  {
  }

  predicate StoredIntelligence(env: Env, r: Fields) {
    && r.Keys == INTELLIGENCE.Keys + {Evidence, Entities}
    && (forall k :: k in INTELLIGENCE ==> StoredField(env, INTELLIGENCE[k], r[k]))
    && StoredRecords(env, EVIDENCE, 50, r[Evidence]) && StoredRecords(env, ENTITY, 100, r[Entities])
  }

  lemma IntelligenceIsStored(env: Env, newId: string, r: Fields)
    requires env.Lawful()
    ensures IntelligenceRecord(env, newId, Obj(r)) == Some(r) <==> StoredIntelligence(env, r)
  {
    NestedMembers();
    hide Filled, SubRecords, StoredRecords, StoredField, Env.Lawful, INTELLIGENCE, EVIDENCE, ENTITY;
    FilledKeys(env, INTELLIGENCE, newId, r);
    if r.Keys == INTELLIGENCE.Keys + {Evidence, Entities} {
      FillingIsStored(env, INTELLIGENCE, newId, r);
      SubRecordsAreStored(env, EVIDENCE, 50, r[Evidence]);
      SubRecordsAreStored(env, ENTITY, 100, r[Entities]);
      NestedParts(env, newId, r);
    }
  }

  lemma NestedParts(env: Env, newId: string, r: Fields)
    requires r.Keys == INTELLIGENCE.Keys + {Evidence, Entities}
    ensures var evidence, entities := SubRecords(env, EVIDENCE, 50, r[Evidence]),
                                      SubRecords(env, ENTITY, 100, r[Entities]);
      IntelligenceRecord(env, newId, Obj(r)) == Some(r) <==>
        && evidence.Some? && Arr(Objs(evidence.value)) == r[Evidence]
        && entities.Some? && Arr(Objs(entities.value)) == r[Entities]
        && Filled(env, INTELLIGENCE, newId, r) == Some(map k | k in INTELLIGENCE :: r[k])
  {
    NestedMembers();
    FilledKeys(env, INTELLIGENCE, newId, r);
    hide Filled, SubRecords, INTELLIGENCE, EVIDENCE, ENTITY;
    var evidence, entities := SubRecords(env, EVIDENCE, 50, r[Evidence]), SubRecords(env, ENTITY, 100, r[Entities]);
    var rest := Filled(env, INTELLIGENCE, newId, r);
    if evidence.Some? && entities.Some? && rest.Some? {
      var whole := rest.value[Evidence := Arr(Objs(evidence.value))][Entities := Arr(Objs(entities.value))];
      if whole == r {
        assert rest.value == map k | k in INTELLIGENCE :: r[k];
      }
      if && Arr(Objs(evidence.value)) == r[Evidence] && Arr(Objs(entities.value)) == r[Entities]
         && rest.value == (map k | k in INTELLIGENCE :: r[k]) {
        assert whole == r;
      }
    }
  }

  // ----- checks within one record -----

  const LEVELS: seq<string> := ["TLP:CLEAR", "TLP:GREEN", "TLP:AMBER", "TLP:AMBER+STRICT", "TLP:RED"]

  /** The first level comes no later than the second. */
  predicate NoStricter(a: string, b: string) {
    exists i, j :: 0 <= i <= j < |LEVELS| && LEVELS[i] == a && LEVELS[j] == b
  }

  lemma RankIsOrder(a: string, b: string)
    requires a in HANDLING_LEVELS && b in HANDLING_LEVELS
    ensures HandlingRank(a) <= HandlingRank(b) <==> NoStricter(a, b)
  {
    LevelAt(a);
    LevelAt(b);
    LevelsDiffer();
    hide HandlingRank, LEVELS, HANDLING_LEVELS;
    if HandlingRank(a) <= HandlingRank(b) {
      assert LEVELS[HandlingRank(a)] == a && LEVELS[HandlingRank(b)] == b;
    }
  }

  lemma LevelAt(level: string)
    requires level in HANDLING_LEVELS
    ensures 0 <= HandlingRank(level) < |LEVELS| && LEVELS[HandlingRank(level)] == level
  {
  }

  lemma LevelsDiffer()
    ensures forall i, j :: 0 <= i < j < |LEVELS| ==> LEVELS[i] != LEVELS[j]
  {
    assert |LEVELS[3]| == 16 && |LEVELS[4]| == 7 && |LEVELS[0]| == 9 && |LEVELS[1]| == 9 && |LEVELS[2]| == 9;
    assert LEVELS[0][4] == 'C' && LEVELS[1][4] == 'G' && LEVELS[2][4] == 'A';
  }

  /** A failing source names its failure and its attempt, a healthy one its success, and no success is later
      than the last attempt. */
  predicate SourceConsistent(env: Env, s: Fields) {
    && (TextAt(s, FailureCode) != "" ==> TextAt(s, CollectionStatus) !in {"unknown", "healthy"})
    && (TextAt(s, CollectionStatus) == "healthy" ==> TextAt(s, LastSuccessAt) != "")
    && (TextAt(s, CollectionStatus) in {"degraded", "failed"} ==>
          TextAt(s, LastAttemptAt) != "" && TextAt(s, FailureCode) != "")
    && (TextAt(s, LastAttemptAt) != "" && TextAt(s, LastSuccessAt) != "" ==>
          Instant(env, s, LastSuccessAt) <= Instant(env, s, LastAttemptAt))
  }

  ghost predicate NoIdTwice(records: seq<Fields>) {
    forall i, j :: 0 <= i < j < |records| ==> TextAt(records[i], Id) != TextAt(records[j], Id)
  }

  /** Collected before it expires; collected, analysed and published in this order as far as it was; evidence
      no stricter than the record; no evidence and no entity twice. */
  ghost predicate IntelligenceConsistent(env: Env, r: Fields) {
    && Instant(env, r, CollectedAt) < Instant(env, r, ExpiresAt)
    && (TextAt(r, AnalyzedAt) != "" ==> Instant(env, r, CollectedAt) <= Instant(env, r, AnalyzedAt))
    && (TextAt(r, PublishedAt) != "" ==> Instant(env, r, CollectedAt) <= Instant(env, r, PublishedAt))
    && (TextAt(r, PublishedAt) != "" && TextAt(r, AnalyzedAt) != "" ==>
          Instant(env, r, AnalyzedAt) <= Instant(env, r, PublishedAt))
    && (forall e :: e in RecordsAt(r, Evidence) ==> NoStricter(TextAt(e, Handling), TextAt(r, Handling)))
    && NoIdTwice(RecordsAt(r, Evidence)) && NoIdTwice(RecordsAt(r, Entities))
  }

  lemma DistinctIds(records: seq<Fields>)
    ensures Distinct(Ids(records)) <==> NoIdTwice(records)
  {
    hide TextAt;
    assert forall i :: 0 <= i < |records| ==> Ids(records)[i] == TextAt(records[i], Id);
  }

  lemma SourcesAreChecked(env: Env, s: Fields)
    requires StoredRecord(env, SOURCE, s)
    ensures CollectionStateOk(env, s) <==> SourceConsistent(env, s)
  {
    hide TextAt, Instant, StoredRecord;
    StatesDiffer();
  }

  lemma StatesDiffer()
    ensures |"healthy"| == 7 && |"unknown"| == 7 && "healthy"[0] != "unknown"[0]
    ensures |"degraded"| == 8 && |"failed"| == 6
  {
  }

  lemma IntelligenceIsChecked(env: Env, r: Fields)
    requires StoredIntelligence(env, r)
    ensures IntelligenceOk(env, r) <==> IntelligenceConsistent(env, r)
  {
    HandlingIsALevel(env, r);
    hide TextAt, Instant, RecordsAt, StoredIntelligence, HandlingRank, NoStricter, HANDLING_LEVELS, Distinct, NoIdTwice;
    DistinctIds(RecordsAt(r, Evidence));
    DistinctIds(RecordsAt(r, Entities));
    forall e | e in RecordsAt(r, Evidence)
      ensures HandlingRank(TextAt(e, Handling)) <= HandlingRank(TextAt(r, Handling))
              <==> NoStricter(TextAt(e, Handling), TextAt(r, Handling))
    {
      RankIsOrder(TextAt(e, Handling), TextAt(r, Handling));
    }
  }

  lemma HandlingIsALevel(env: Env, r: Fields)
    requires StoredIntelligence(env, r)
    ensures TextAt(r, Handling) in HANDLING_LEVELS
    ensures forall e :: e in RecordsAt(r, Evidence) ==> TextAt(e, Handling) in HANDLING_LEVELS
  {
    HandlingKinds();
    hide HANDLING_LEVELS, PlainString, INTELLIGENCE, EVIDENCE, ENTITY;
    assert StoredField(env, INTELLIGENCE[Handling], r[Handling]);
    forall e | e in RecordsAt(r, Evidence) ensures TextAt(e, Handling) in HANDLING_LEVELS {
      var i :| 0 <= i < |r[Evidence].items| && r[Evidence].items[i] == Obj(e);
      assert StoredField(env, EVIDENCE[Handling], e[Handling]);
    }
  }

  lemma HandlingKinds()
    ensures Handling in INTELLIGENCE && INTELLIGENCE[Handling] == EnumField(HANDLING_LEVELS, "")
    ensures Handling in EVIDENCE && EVIDENCE[Handling] == EnumField(HANDLING_LEVELS, "")
  {
  }

  // ----- collections -----

  ghost predicate StoredItem(env: Env, c: Collection, r: Fields) {
    match c
    case SourceCollection => StoredRecord(env, SOURCE, r) && SourceConsistent(env, r)
    case TechnologyCollection => StoredRecord(env, TECHNOLOGY, r)
    case RequirementCollection => StoredRecord(env, REQUIREMENT, r)
    case IntelligenceCollection => StoredIntelligence(env, r) && IntelligenceConsistent(env, r)
  }

  lemma ItemsAreStored(env: Env, c: Collection, newId: string, r: Fields)
    requires env.Lawful()
    ensures Item(env, c, newId, Obj(r)) == Some(r) <==> StoredItem(env, c, r)
  {
    hide Record, IntelligenceRecord, CollectionStateOk, IntelligenceOk, StoredRecord, StoredIntelligence,
      SourceConsistent, IntelligenceConsistent, Env.Lawful, SOURCE, TECHNOLOGY, REQUIREMENT;
    match c
    case SourceCollection =>
      RecordsAreStored(env, SOURCE, newId, r);
      if StoredRecord(env, SOURCE, r) { SourcesAreChecked(env, r); }
    case TechnologyCollection => RecordsAreStored(env, TECHNOLOGY, newId, r);
    case RequirementCollection => RecordsAreStored(env, REQUIREMENT, newId, r);
    case IntelligenceCollection =>
      IntelligenceIsStored(env, newId, r);
      if StoredIntelligence(env, r) { IntelligenceIsChecked(env, r); }
  }

  lemma {:induction false} ItemListsAreStored(env: Env, c: Collection, ids: IdSource, records: seq<Fields>)
    requires env.Lawful()
    ensures ItemList(env, c, ids, Objs(records)) == Some(records)
            <==> forall i :: 0 <= i < |records| ==> StoredItem(env, c, records[i])
  {
    hide Item, StoredItem, Env.Lawful;
    if records == [] {
      assert Objs(records) == [];
    } else {
      var n := |records| - 1;
      ItemListsAreStored(env, c, ids, records[..n]);
      ItemsAreStored(env, c, ids(c, n), records[n]);
      assert Objs(records)[..n] == Objs(records[..n]) && Objs(records)[n] == Obj(records[n]);
      assert records == records[..n] + [records[n]];
      assert forall i :: 0 <= i < n ==> records[..n][i] == records[i];
      if ItemList(env, c, ids, Objs(records)) == Some(records) {
        var front := ItemList(env, c, ids, Objs(records[..n]));
        LastApart(front.value, Item(env, c, ids(c, n), Obj(records[n])).value, records);
      }
    }
  }

  lemma LastApart<T>(front: seq<T>, last: T, whole: seq<T>)
    requires front + [last] == whole
    ensures front == whole[..|whole| - 1] && last == whole[|whole| - 1]
  {
  }

  /** Not too many records, each in stored form, no identifier twice and, case aside, no name twice. */
  ghost predicate StoredCollection(env: Env, c: Collection, records: seq<Fields>) {
    && |records| <= (match c case TechnologyCollection => 250 case IntelligenceCollection => 500 case _ => 100)
    && (forall i :: 0 <= i < |records| ==> StoredItem(env, c, records[i]))
    && NoIdTwice(records)
    && (!c.RequirementCollection? ==>
          forall i, j :: 0 <= i < j < |records| ==> NameKey(env, c, records[i]) != NameKey(env, c, records[j]))
  }

  lemma DistinctNames(env: Env, c: Collection, records: seq<Fields>)
    ensures Distinct(NameKeys(env, c, records)) <==>
      forall i, j :: 0 <= i < j < |records| ==> NameKey(env, c, records[i]) != NameKey(env, c, records[j])
  {
    hide NameKey;
    assert forall i :: 0 <= i < |records| ==> NameKeys(env, c, records)[i] == NameKey(env, c, records[i]);
  }

  lemma CollectionsAreStored(env: Env, c: Collection, ids: IdSource, records: seq<Fields>)
    requires env.Lawful()
    ensures CollectionOf(env, c, ids, Arr(Objs(records))) == Some(records) <==> StoredCollection(env, c, records)
  {
    hide ItemList, StoredItem, Distinct, NoIdTwice, NameKey, Env.Lawful, Objs;
    assert |Objs(records)| == |records| by { ObjsLength(records); }
    ItemListsAreStored(env, c, ids, records);
    DistinctIds(records);
    DistinctNames(env, c, records);
  }

  lemma ObjsLength(records: seq<Fields>)
    ensures |Objs(records)| == |records|
  {
  }

  // ----- the whole workspace -----

  ghost predicate HasId(records: seq<Fields>, id: string) {
    exists i :: 0 <= i < |records| && TextAt(records[i], Id) == id
  }

  /** What an intelligence record refers to is in the workspace, its evidence comes from its own sources, and
      its entities rest on its own evidence and concern its own technologies. */
  ghost predicate Linked(p: Program, r: Fields) {
    && (forall id :: id in TextsAt(r, SourceIds) ==> HasId(p.sources, id))
    && (forall id :: id in TextsAt(r, RequirementIds) ==> HasId(p.requirements, id))
    && (forall id :: id in TextsAt(r, AffectedTechnologyIds) ==> HasId(p.technologies, id))
    && (forall e :: e in RecordsAt(r, Evidence) ==> TextAt(e, SourceId) in TextsAt(r, SourceIds))
    && (forall e, id :: e in RecordsAt(r, Entities) && id in TextsAt(e, EvidenceIds) ==>
          HasId(RecordsAt(r, Evidence), id))
    && (forall e, id :: e in RecordsAt(r, Entities) && id in TextsAt(e, AffectedTechnologyIds) ==>
          id in TextsAt(r, AffectedTechnologyIds))
  }

  lemma IdSetHas(records: seq<Fields>)
    ensures forall id :: id in IdSet(records) <==> HasId(records, id)
  {
    hide TextAt;
  }

  lemma LinksAreMet(p: Program, r: Fields)
    ensures LinksOf(r, IdSet(p.sources), IdSet(p.requirements), IdSet(p.technologies)) <==> Linked(p, r)
  {
    hide IdSet, HasId, TextAt, TextsAt, RecordsAt;
    IdSetHas(p.sources);
    IdSetHas(p.requirements);
    IdSetHas(p.technologies);
    IdSetHas(RecordsAt(r, Evidence));
  }

  /** The four collections in stored form, with every reference met. */
  ghost predicate WellFormed(env: Env, p: Program) {
    && (forall c: Collection :: StoredCollection(env, c, p.Items(c)))
    && (forall i :: 0 <= i < |p.intelligence| ==> Linked(p, p.intelligence[i]))
  }

  lemma LinksAreAllMet(p: Program)
    ensures LinksOk(p.intelligence, p.sources, p.requirements, p.technologies)
            <==> forall i :: 0 <= i < |p.intelligence| ==> Linked(p, p.intelligence[i])
  {
    hide LinksOf, Linked, IdSet;
    forall r { LinksAreMet(p, r); }
  }

  lemma ContentsAreStored(env: Env, ids: IdSource, p: Program)
    requires env.Lawful()
    ensures Contents(env, ids, p.ToJson().fields) == Some(Bare(p)) <==> WellFormed(env, p)
  {
    hide CollectionOf, LinksOk, StoredCollection, Linked, Env.Lawful;
    forall c: Collection { CollectionsAreStored(env, c, ids, p.Items(c)); }
    LinksAreAllMet(p);
    CollectionMembers(p);
    FourCollections(env, p);
    hide Program.ToJson;
  }

  lemma FourCollections(env: Env, p: Program)
    ensures (forall c: Collection :: StoredCollection(env, c, p.Items(c))) <==>
      && StoredCollection(env, SourceCollection, p.Items(SourceCollection))
      && StoredCollection(env, TechnologyCollection, p.Items(TechnologyCollection))
      && StoredCollection(env, RequirementCollection, p.Items(RequirementCollection))
      && StoredCollection(env, IntelligenceCollection, p.Items(IntelligenceCollection))
  {
    hide StoredCollection, Program.Items;
    if && StoredCollection(env, SourceCollection, p.Items(SourceCollection))
       && StoredCollection(env, TechnologyCollection, p.Items(TechnologyCollection))
       && StoredCollection(env, RequirementCollection, p.Items(RequirementCollection))
       && StoredCollection(env, IntelligenceCollection, p.Items(IntelligenceCollection)) {
      forall c: Collection ensures StoredCollection(env, c, p.Items(c)) {
        match c
        case SourceCollection =>
        case TechnologyCollection =>
        case RequirementCollection =>
        case IntelligenceCollection =>
      }
    }
  }

  lemma CollectionMembers(p: Program)
    ensures var f := p.ToJson().fields;
      && {Sources, Technologies, Requirements, Intelligence} <= f.Keys
      && f[Sources] == Arr(Objs(p.Items(SourceCollection)))
      && f[Technologies] == Arr(Objs(p.Items(TechnologyCollection)))
      && f[Requirements] == Arr(Objs(p.Items(RequirementCollection)))
      && f[Intelligence] == Arr(Objs(p.Items(IntelligenceCollection)))
  {
  }

  /** The contents of a workspace are a fixed point of normalisation exactly when they are well formed. */
  lemma FixedExactlyWhenWellFormed(env: Env, p: Program)
    requires env.Lawful()
    ensures ContentsFixed(env, p) <==> WellFormed(env, p)
  {
    hide Contents, WellFormed, Program.ToJson, Env.Lawful;
    forall ids { ContentsAreStored(env, ids, p); }
    var ids: IdSource := (c, n) => "";
    assert Contents(env, ids, p.ToJson().fields) == Some(Bare(p)) <==> WellFormed(env, p);
  }

  /** A document loads as itself exactly when it is well formed, with a proper time text and at most a hundred
      history entries in stored form. */
  lemma LoadsExactlyWhenWellFormed(env: Env, p: Program)
    requires env.Lawful()
    ensures LoadsAsItself(env, p) <==>
      && WellFormed(env, p) && PlainString(p.updatedAt, 40, false)
      && |p.history| <= 100 && forall i :: 0 <= i < |p.history| ==> StoredRecord(env, AUDIT_ENTRY, p.history[i])
  {
    hide WellFormed, ContentsFixed, LoadsAsItself, StoredRecord, HistoryOf, PlainString, Env.Lawful, Text, AUDIT_ENTRY;
    FixedExactlyWhenWellFormed(env, p);
    TextsAreStored(Str(p.updatedAt), 40, false);
    HistoryIsStored(env, p.history);
    if LoadsAsItself(env, p) { LoadedContents(env, p); }
    if ContentsFixed(env, p) { LoadsAsItselfWhen(env, p); }
  }

  lemma LoadedContents(env: Env, p: Program)
    requires env.Lawful() && LoadsAsItself(env, p)
    ensures ContentsFixed(env, p)
  {
    hide NormalizeProgram, Program.ToJson, ContentsFixed, Env.Lawful;
    var ids: IdSource := (c, n) => "";
    assert NormalizeProgram(env, ids, p.ToJson(), true) == Some(p);
    NormalizationIsFixed(env, ids, p.ToJson(), true);
  }

  lemma HistoryIsStored(env: Env, history: seq<Fields>)
    requires env.Lawful()
    ensures HistoryOf(env, Arr(Objs(history))) == Some(history) <==>
      |history| <= 100 && forall i :: 0 <= i < |history| ==> StoredRecord(env, AUDIT_ENTRY, history[i])
  {
    hide PlainRecords, StoredRecord, Record, Env.Lawful, AUDIT_ENTRY;
    RecordsReadBack(env, AUDIT_ENTRY, history);
    forall r ensures Record(env, AUDIT_ENTRY, "", Obj(r)) == Some(r) <==> StoredRecord(env, AUDIT_ENTRY, r) {
      RecordsAreStored(env, AUDIT_ENTRY, "", r);
    }
  }
}
