/** The record types of the CTI workspace and the checks that span fields, records and collections. */
module CtiRecords {
  import opened Prelude
  import opened Values
  import opened CtiFields

  // ----- record tables -----

  const PRIORITIES := {"critical", "high", "medium", "low"}
  const CADENCES := {"realtime", "hourly", "daily", "weekly", "monthly", "on-demand"}
  const RELIABILITY_LEVELS := {"A", "B", "C", "D", "E", "F"}
  const CATEGORIES :=
    {"security-platform", "operating-system", "application", "cloud-service", "network", "development-tool",
     "library", "other"}
  const EXPOSURES := {"internet-facing", "internal", "endpoint", "server", "cloud", "mixed", "unknown"}
  const HANDLING_LEVELS := {"TLP:CLEAR", "TLP:GREEN", "TLP:AMBER", "TLP:AMBER+STRICT", "TLP:RED"}

  function OneOf(allowed: set<string>): FieldKind { EnumField(allowed, "") }

  function TextsOf(maximum: nat, limit: nat): FieldKind { ListField(maximum, TextEntry(limit), false) }

  function IdsOf(nonEmpty: bool): FieldKind { ListField(32, IdEntry, nonEmpty) }

  const SOURCE: map<Key, FieldKind> := map[
    Id := IdField(true),
    Enabled := BoolField,
    Name := TextField(120, true),
    SourceType := OneOf({"government", "isac-csirt", "vendor", "commercial", "osint", "stix-taxii",
                         "internal-telemetry", "incident-response"}),
    Acquisition := OneOf({"api", "rss", "taxii", "email", "web", "manual", "internal"}),
    Endpoint := EndpointField,
    CredentialReference := SecretField,
    Owner := TextField(100, true),
    Cadence := OneOf(CADENCES),
    Reliability := OneOf(RELIABILITY_LEVELS),
    Handling := OneOf(HANDLING_LEVELS),
    Requirements := TextsOf(16, 120),
    ReviewDate := DateField,
    Disposition := OneOf({"retain", "reduce", "replace", "remove"}),
    CollectionStatus := EnumField({"unknown", "healthy", "degraded", "failed"}, "unknown"),
    LastAttemptAt := TimeField(false),
    LastSuccessAt := TimeField(false),
    FailureCode := FailureField,
    Notes := TextField(1200, false)]

  const TECHNOLOGY: map<Key, FieldKind> := map[
    Id := IdField(true),
    Enabled := BoolField,
    Vendor := TextField(100, true),
    Product := TextField(120, true),
    Category := OneOf(CATEGORIES),
    Versions := TextField(180, false),
    DeploymentScope := TextField(240, false),
    Criticality := OneOf(PRIORITIES),
    Priority := OneOf(PRIORITIES),
    Exposure := OneOf(EXPOSURES),
    Owner := TextField(100, true),
    MonitorFor := TextsOf(24, 120),
    Requirements := TextsOf(16, 120),
    ReviewDate := DateField,
    Notes := TextField(1200, false)]

  const REQUIREMENT: map<Key, FieldKind> := map[
    Id := IdField(true),
    Active := BoolField,
    Title := TextField(180, true),
    Decision := TextField(1000, true),
    Sponsor := TextField(120, true),
    Consumers := TextsOf(32, 240),
    Priority := OneOf(PRIORITIES),
    Horizon := TextField(120, true),
    Cadence := OneOf(CADENCES),
    CollectionGaps := TextsOf(32, 240),
    Deliverable := TextField(500, true),
    SuccessCriteria := TextField(1000, true),
    ReviewDate := DateField,
    Status := OneOf({"draft", "active", "answered", "paused", "retired"})]

  /** All of an intelligence record but its evidence and entities. */
  const INTELLIGENCE: map<Key, FieldKind> := map[
    Id := IdField(true),
    DeduplicationKey := TextField(180, true),
    Title := TextField(240, true),
    LifecycleState := OneOf({"requirements", "collection", "processing", "analysis", "dissemination", "feedback",
                             "evaluation"}),
    RequirementIds := IdsOf(false),
    SourceIds := IdsOf(false),
    AffectedTechnologyIds := IdsOf(false),
    SourceReliability := OneOf(RELIABILITY_LEVELS),
    InformationCredibility := OneOf({"1", "2", "3", "4", "5", "6"}),
    Confidence := OneOf({"high", "moderate", "low", "unknown"}),
    Handling := OneOf(HANDLING_LEVELS),
    CollectedAt := TimeField(true),
    AnalyzedAt := TimeField(false),
    PublishedAt := TimeField(false),
    ExpiresAt := TimeField(true),
    Summary := TextField(2000, true),
    AnalyticJudgment := TextField(2000, true),
    Assumptions := TextsOf(32, 500),
    Alternatives := TextsOf(32, 500),
    InvestigationUse := OneOf({"context-only"})]

  const EVIDENCE: map<Key, FieldKind> := map[
    Id := IdField(false),
    EvidenceKind := OneOf({"source-record", "advisory", "report", "telemetry", "pcap", "analyst-note",
                           "case-artifact", "other"}),
    Reference := ReferenceField,
    Description := TextField(1000, true),
    ObservedAt := TimeField(true),
    SourceId := IdField(false),
    Handling := OneOf(HANDLING_LEVELS)]

  const ENTITY: map<Key, FieldKind> := map[
    Id := IdField(false),
    EntityType := OneOf({"indicator", "actor", "campaign", "vulnerability", "defensive-action"}),
    EntityValue := TextField(500, true),
    EvidenceIds := IdsOf(true),
    AffectedTechnologyIds := IdsOf(false)]

  const AUDIT_ENTRY: map<Key, FieldKind> := map[
    Revision := CountField,
    Event := OneOf({"workspace-updated"}),
    ChangedAt := TimeField(true),
    Changes := TextsOf(100, 160),
    BeforeDigest := DigestField,
    AfterDigest := DigestField]

  // ----- one record -----

  /** Every field of the table, normalised; None when one is rejected. */
  function Filled(env: Env, table: map<Key, FieldKind>, newId: string, fields: Fields): Option<Fields> {
    if exists k <- table :: Field(env, table[k], newId, Get(fields, k, Fallback(table[k]))).None? then None
    else Some(map k | k in table :: Field(env, table[k], newId, Get(fields, k, Fallback(table[k]))).value)
  }

  /** A record with exactly the members of its table; an unknown member rejects it. */
  function Record(env: Env, table: map<Key, FieldKind>, newId: string, v: Value): Option<Fields> {
    if !v.Obj? || !(v.fields.Keys <= table.Keys) then None else Filled(env, table, newId, v.fields)
  }

  lemma FilledIsFixed(env: Env, table: map<Key, FieldKind>, newId: string, otherId: string, fields: Fields,
      more: Fields)
    requires env.Lawful()
    requires var r := Filled(env, table, newId, fields);
      r.Some? && forall k :: k in table ==> k in more && more[k] == r.value[k]
    ensures Filled(env, table, otherId, more) == Filled(env, table, newId, fields)
  {
    hide Field, Fallback, Env.Lawful;
    var r := Filled(env, table, newId, fields).value;
    forall k | k in table
      ensures Field(env, table[k], otherId, Get(more, k, Fallback(table[k]))) == Some(r[k])
    {
      assert Field(env, table[k], newId, Get(fields, k, Fallback(table[k]))).Some?;
      FieldIsFixed(env, table[k], newId, otherId, Get(fields, k, Fallback(table[k])));
    }
    assert r == map k | k in table :: Field(env, table[k], otherId, Get(more, k, Fallback(table[k]))).value;
  }

  lemma RecordIsFixed(env: Env, table: map<Key, FieldKind>, newId: string, otherId: string, v: Value)
    requires env.Lawful()
    ensures var r := Record(env, table, newId, v);
      r.Some? ==> r.value.Keys == table.Keys && Record(env, table, otherId, Obj(r.value)) == r
  {
    var r := Record(env, table, newId, v);
    if r.Some? {
      FilledIsFixed(env, table, newId, otherId, v.fields, r.value);
    }
  }

  // ----- reading a normalised record -----

  function TextAt(r: Fields, key: Key): string {
    if key in r && r[key].Str? then r[key].s else ""
  }

  function TextsAt(r: Fields, key: Key): set<string> {
    if key in r && r[key].Arr? then set v | v in r[key].items && v.Str? :: v.s else {}
  }

  function RecordsAt(r: Fields, key: Key): seq<Fields> {
    if key in r && r[key].Arr? then AsFields(r[key].items) else []
  }

  function AsFields(items: seq<Value>): seq<Fields> {
    seq(|items|, i requires 0 <= i < |items| => if items[i].Obj? then items[i].fields else map[])
  }

  function Objs(records: seq<Fields>): seq<Value> {
    seq(|records|, i requires 0 <= i < |records| => Obj(records[i]))
  }

  // ----- checks across the fields of one record -----

  /** `_parsed_timestamp` of a stored timestamp. */
  function Instant(env: Env, r: Fields, key: Key): int {
    match env.stamp(TextAt(r, key)) case None => 0 case Some(t) => t
  }

  predicate CollectionStateOk(env: Env, r: Fields) {
    var status, failure := TextAt(r, CollectionStatus), TextAt(r, FailureCode);
    var attempt, success := TextAt(r, LastAttemptAt), TextAt(r, LastSuccessAt);
    && (status in {"degraded", "failed"} ==> attempt != "" && failure != "")
    && (status == "healthy" ==> success != "")
    && (status in {"unknown", "healthy"} ==> failure == "")
    && (attempt != "" && success != "" ==> Instant(env, r, LastSuccessAt) <= Instant(env, r, LastAttemptAt))
  }

  predicate TimesInOrder(env: Env, r: Fields) {
    var collected, analyzed := Instant(env, r, CollectedAt), TextAt(r, AnalyzedAt);
    && (analyzed != "" ==> collected <= Instant(env, r, AnalyzedAt))
    && (TextAt(r, PublishedAt) != "" ==>
          (if analyzed != "" then Instant(env, r, AnalyzedAt) else collected) <= Instant(env, r, PublishedAt))
    && collected < Instant(env, r, ExpiresAt)
  }

  function HandlingRank(level: string): int {
    match level
    case "TLP:CLEAR" => 0
    case "TLP:GREEN" => 1
    case "TLP:AMBER" => 2
    case "TLP:AMBER+STRICT" => 3
    case _ => 4
  }

  /** No evidence is handled more restrictively than the record it supports. */
  predicate HandlingCovers(r: Fields) {
    forall e <- RecordsAt(r, Evidence) :: HandlingRank(TextAt(e, Handling)) <= HandlingRank(TextAt(r, Handling))
  }

  predicate Distinct<T(==)>(s: seq<T>) {
    forall i, j :: 0 <= i < j < |s| ==> s[i] != s[j]
  }

  function Ids(records: seq<Fields>): seq<string> {
    seq(|records|, i requires 0 <= i < |records| => TextAt(records[i], Id))
  }

  predicate IntelligenceOk(env: Env, r: Fields) {
    && Distinct(Ids(RecordsAt(r, Evidence)))
    && Distinct(Ids(RecordsAt(r, Entities)))
    && TimesInOrder(env, r)
    && HandlingCovers(r)
  }

  // ----- records of each collection -----

  datatype Collection = SourceCollection | TechnologyCollection | RequirementCollection | IntelligenceCollection

  function Limit(c: Collection): nat {
    match c
    case SourceCollection => 100
    case TechnologyCollection => 250
    case RequirementCollection => 100
    case IntelligenceCollection => 500
  }

  /** Evidence and entities keep their own ids; the position is part of nothing stored. */
  function SubRecords(env: Env, table: map<Key, FieldKind>, maximum: nat, v: Value): Option<seq<Fields>> {
    if !v.Arr? || |v.items| > maximum then None else PlainRecords(env, table, v.items)
  }

  function PlainRecords(env: Env, table: map<Key, FieldKind>, items: seq<Value>): Option<seq<Fields>> {
    if items == [] then Some([])
    else
      var first := Record(env, table, "", items[0]);
      var rest := PlainRecords(env, table, items[1..]);
      if first.Some? && rest.Some? then Some([first.value] + rest.value) else None
  }

  lemma {:induction false} PlainRecordsAreFixed(env: Env, table: map<Key, FieldKind>, items: seq<Value>)
    requires env.Lawful()
    ensures var r := PlainRecords(env, table, items);
      r.Some? ==> |r.value| == |items| && PlainRecords(env, table, Objs(r.value)) == r
  {
    hide Record, Env.Lawful;
    var r := PlainRecords(env, table, items);
    if items != [] && r.Some? {
      PlainRecordsAreFixed(env, table, items[1..]);
      RecordIsFixed(env, table, "", "", items[0]);
      assert Objs(r.value)[1..] == Objs(r.value[1..]);
      assert Objs(r.value)[0] == Obj(r.value[0]);
    } else if items == [] {
      assert Objs([]) == [];
    }
  }

  /** _intelligence before its checks. */
  function IntelligenceRecord(env: Env, newId: string, v: Value): Option<Fields> {
    if !v.Obj? || !(v.fields.Keys <= INTELLIGENCE.Keys + {Evidence, Entities}) then None
    else
      var evidence := SubRecords(env, EVIDENCE, 50, Get(v.fields, Evidence, Arr([])));
      var entities := SubRecords(env, ENTITY, 100, Get(v.fields, Entities, Arr([])));
      var rest := Filled(env, INTELLIGENCE, newId, v.fields);
      if evidence.None? || entities.None? || rest.None? then None
      else Some(rest.value[Evidence := Arr(Objs(evidence.value))][Entities := Arr(Objs(entities.value))])
  }

  lemma NestedMembers()
    ensures Evidence !in INTELLIGENCE && Entities !in INTELLIGENCE
  {
  }

  lemma IntelligenceRecordIsFixed(env: Env, newId: string, otherId: string, v: Value)
    requires env.Lawful()
    ensures var r := IntelligenceRecord(env, newId, v);
      r.Some? ==> IntelligenceRecord(env, otherId, Obj(r.value)) == r
  {
    NestedMembers();
    hide Filled, PlainRecords, Env.Lawful, INTELLIGENCE, EVIDENCE, ENTITY;
    var r := IntelligenceRecord(env, newId, v);
    if r.Some? {
      PlainRecordsAreFixed(env, EVIDENCE, Get(v.fields, Evidence, Arr([])).items);
      PlainRecordsAreFixed(env, ENTITY, Get(v.fields, Entities, Arr([])).items);
      FilledKeys(env, INTELLIGENCE, newId, v.fields);
      FilledIsFixed(env, INTELLIGENCE, newId, otherId, v.fields, r.value);
    }
  }

  lemma FilledKeys(env: Env, table: map<Key, FieldKind>, newId: string, fields: Fields)
    ensures Filled(env, table, newId, fields).Some? ==> Filled(env, table, newId, fields).value.Keys == table.Keys
  {
    hide Field, Fallback;
  }

  /** One record of a collection, with the checks its own fields must pass. */
  function Item(env: Env, c: Collection, newId: string, v: Value): Option<Fields> {
    match c
    case SourceCollection => Checked(Record(env, SOURCE, newId, v), r => CollectionStateOk(env, r))
    case TechnologyCollection => Record(env, TECHNOLOGY, newId, v)
    case RequirementCollection => Record(env, REQUIREMENT, newId, v)
    case IntelligenceCollection => Checked(IntelligenceRecord(env, newId, v), r => IntelligenceOk(env, r))
  }

  function Checked(r: Option<Fields>, ok: Fields -> bool): Option<Fields> {
    if r.Some? && ok(r.value) then r else None
  }

  lemma ItemIsFixed(env: Env, c: Collection, newId: string, otherId: string, v: Value)
    requires env.Lawful()
    ensures var r := Item(env, c, newId, v);
      r.Some? ==> Item(env, c, otherId, Obj(r.value)) == r
  {
    hide Record, IntelligenceRecord, CollectionStateOk, IntelligenceOk, Env.Lawful;
    match c
    case SourceCollection => RecordIsFixed(env, SOURCE, newId, otherId, v);
    case TechnologyCollection => RecordIsFixed(env, TECHNOLOGY, newId, otherId, v);
    case RequirementCollection => RecordIsFixed(env, REQUIREMENT, newId, otherId, v);
    case IntelligenceCollection => IntelligenceRecordIsFixed(env, newId, otherId, v);
  }
}
