/** Accepted settings: the form normalisation gives them, and when normalising again changes nothing. */
module AiNormal {
  import opened Prelude
  import opened Values
  import opened AiRoutes
  import opened AiSettings

  // ----- settings as stored -----

  function EntryJsons(roster: seq<CodexEntry>): seq<Value> {
    seq(|roster|, i requires 0 <= i < |roster| => EntryJson(roster[i]))
  }

  function RoleText(key: Key, a: Assignments): Value {
    Str(if key.RoleMember? then At(a, key.role) else "")
  }

  function AssignmentsJson(a: Assignments): Value {
    Obj(map key: Key | key in ROLE_KEYS :: RoleText(key, a))
  }

  const ROLE_KEYS: set<Key> := set role | role in ROLE_SET :: RoleMember(role)

  const GENERAL_KEYS: set<Key> := {Mode, OllamaModel, EnabledOllamaModels, OllamaUrl, CloudProvider, CloudModel,
      CloudCommand, GptCliEnabled, CaptureLossThreshold}
  const HARNESS_KEYS: set<Key> := {CodexCliPath, CodexCliModel, CodexCliReasoningEffort, CodexCliModels,
      HermesAgentEnabled, HermesAgentPath, HermesAgentModel, HermesAgentReasoningEffort, OpenclawEnabled,
      OpenclawPath, OpenclawModel, OpenclawReasoningEffort}
  const POLICY_KEYS: set<Key> := {AnalysisMinSeverity, PcapMinSeverity, IncidentMinSeverity, AgentModels,
      AgentSecondOpinionModels, AgentAdjudicatorModels, GeoipAsnPath, GeoipCityPath, GeoipCountryPath}

  predicate IsGeneral(key: Key) {
    || key.Mode? || key.OllamaModel? || key.EnabledOllamaModels? || key.OllamaUrl? || key.CloudProvider?
    || key.CloudModel? || key.CloudCommand? || key.GptCliEnabled? || key.CaptureLossThreshold?
  }

  predicate IsHarness(key: Key) {
    || key.CodexCliPath? || key.CodexCliModel? || key.CodexCliReasoningEffort? || key.CodexCliModels?
    || key.HermesAgentEnabled? || key.HermesAgentPath? || key.HermesAgentModel?
    || key.HermesAgentReasoningEffort? || key.OpenclawEnabled? || key.OpenclawPath? || key.OpenclawModel?
    || key.OpenclawReasoningEffort?
  }

  predicate IsPolicy(key: Key) {
    || key.AnalysisMinSeverity? || key.PcapMinSeverity? || key.IncidentMinSeverity? || key.AgentModels?
    || key.AgentSecondOpinionModels? || key.AgentAdjudicatorModels? || key.GeoipAsnPath? || key.GeoipCityPath?
    || key.GeoipCountryPath?
  }

  lemma GeneralIsListed(key: Key)
    requires IsGeneral(key)
    ensures key in GENERAL_KEYS
  {
  }

  lemma HarnessIsListed(key: Key)
    requires IsHarness(key)
    ensures key in HARNESS_KEYS
  {
  }

  lemma PolicyIsListed(key: Key)
    requires IsPolicy(key)
    ensures key in POLICY_KEYS
  {
  }

  function Member(t: Settings, key: Key): Value {
    match key
    case Mode => Str(t.mode)
    case OllamaModel => Str(t.ollamaModel)
    case EnabledOllamaModels => Arr(Strs(t.models))
    case OllamaUrl => Str(t.ollamaUrl)
    case CloudProvider => Str(t.cloudProvider)
    case CloudModel => Str(t.cloudModel)
    case CloudCommand => Str(t.cloudCommand)
    case CodexCliPath => Str(t.codexPath)
    case CodexCliModel => Str(t.codexModel)
    case CodexCliReasoningEffort => Str(t.codexEffort)
    case CodexCliModels => Arr(EntryJsons(t.codexModels))
    case GptCliEnabled => Bool(t.gptEnabled)
    case HermesAgentEnabled => Bool(t.hermesEnabled)
    case HermesAgentPath => Str(t.hermesPath)
    case HermesAgentModel => Str(t.hermesModel)
    case HermesAgentReasoningEffort => Str(t.hermesEffort)
    case OpenclawEnabled => Bool(t.openclawEnabled)
    case OpenclawPath => Str(t.openclawPath)
    case OpenclawModel => Str(t.openclawModel)
    case OpenclawReasoningEffort => Str(t.openclawEffort)
    case AnalysisMinSeverity => Str(t.analysisSeverity)
    case PcapMinSeverity => Str(t.pcapSeverity)
    case CaptureLossThreshold => t.captureLoss
    case IncidentMinSeverity => Str(t.incidentSeverity)
    case AgentModels => AssignmentsJson(t.primary)
    case AgentSecondOpinionModels => AssignmentsJson(t.reviewer)
    case AgentAdjudicatorModels => AssignmentsJson(t.adjudicator)
    case GeoipAsnPath => Str(t.asnPath)
    case GeoipCityPath => Str(t.cityPath)
    case GeoipCountryPath => Str(t.countryPath)
    case _ => Null
  }

  /** The settings document. */
  function Stored(t: Settings): Fields {
    map key | key in GENERAL_KEYS + HARNESS_KEYS + POLICY_KEYS :: Member(t, key)
  }

  function StoredJson(t: Settings): Value { Obj(Stored(t)) }

  // ----- the normal form -----

  predicate ModelsNormal(models: seq<string>) {
    && |models| <= 32
    && (forall i :: 0 <= i < |models| ==> StartsTight(models[i]) && |models[i]| <= 240 && NoControl(models[i]))
    && forall i, j :: 0 <= i < j < |models| ==> models[i] != models[j]
  }

  predicate RosterNormal(roster: seq<CodexEntry>) {
    && |roster| == |CATALOG|
    && forall i :: 0 <= i < |roster| ==> roster[i].model == CATALOG[i] && roster[i].effort in EFFORTS
  }

  /** What the provider phases leave. */
  predicate ProvidersNormal(env: Env, t: Settings) {
    && ModelsNormal(t.models)
    && RosterNormal(t.codexModels)
    && t.gptEnabled == AnyEnabled(t.codexModels)
    && t.mode == DeriveMode(t.models != [] || t.openclawEnabled, t.gptEnabled || t.hermesEnabled)
    && (t.models != [] || t.gptEnabled || t.hermesEnabled || t.openclawEnabled)
    && (t.models != [] ==> t.ollamaModel == t.models[0])
    && t.codexModel == FirstEnabled(t.codexModels).model && t.codexEffort == FirstEnabled(t.codexModels).effort
    && t.cloudProvider == "codex-cli" && t.cloudModel == t.codexModel && t.cloudCommand == ""
    && UrlOk(t.ollamaUrl)
    && ValidCliPath(env, t.codexPath, "codex") && Tight(t.codexPath)
    && ProvidersOk(env, t) && Tight(t.hermesPath) && Tight(t.openclawPath)
  }

  /** Three different models for a role: an enabled primary, and optional others that are enabled and
      have other identities. */
  predicate RoleNormal(env: Env, routes: seq<string>, primary: string, reviewer: string, adjudicator: string,
      codexModel: string) {
    && primary in routes
    && (reviewer == ""
        || (reviewer in routes && Identity(env, reviewer, codexModel) != Identity(env, primary, codexModel)))
    && (adjudicator == "" || (
          && adjudicator in routes
          && Identity(env, adjudicator, codexModel) != Identity(env, primary, codexModel)
          && Identity(env, adjudicator, codexModel) != Identity(env, reviewer, codexModel)))
  }

  predicate AssignmentsNormal(env: Env, t: Settings) {
    && t.primary.Keys == t.reviewer.Keys == t.adjudicator.Keys == ROLE_SET
    && forall role <- ROLE_SET ::
         RoleNormal(env, RoutesOf(t), t.primary[role], t.reviewer[role], t.adjudicator[role], t.codexModel)
  }

  predicate RestNormal(env: Env, t: Settings) {
    && {t.analysisSeverity, t.pcapSeverity, t.incidentSeverity} <= SEVERITIES
    && t.captureLoss.Float? && 0.1 <= t.captureLoss.r <= 100.0 && Round4(t.captureLoss.r) == t.captureLoss.r
    && GeoipPathOk(env, t.asnPath) && GeoipPathOk(env, t.cityPath) && GeoipPathOk(env, t.countryPath)
    && Tight(t.asnPath) && Tight(t.cityPath) && Tight(t.countryPath)
    && |t.ollamaModel| <= 240 && |t.ollamaUrl| <= 240
  }

  predicate Normal(env: Env, t: Settings) {
    ProvidersNormal(env, t) && AssignmentsNormal(env, t) && RestNormal(env, t)
  }

  /** No stored name or URL was cut just after a blank. */
  predicate Settled(t: Settings) {
    Tight(t.ollamaModel) && Tight(t.ollamaUrl) && forall i :: 0 <= i < |t.models| ==> Tight(t.models[i])
  }

  // ----- accepted settings are normal: providers -----

  lemma {:induction false} ModelNamesNormal(env: Env, items: seq<Value>)
    requires |items| <= 32
    ensures ModelsNormal(ModelNames(env, items)) && |ModelNames(env, items)| <= |items|
  {
    hide Strip, NoControl;
    if items != [] {
      var n := |items| - 1;
      ModelNamesNormal(env, items[..n]);
      var stripped := Strip(env.TextOf(items[n]));
      assert stripped != "" ==> !IsSpace(stripped[0]);
    }
  }

  lemma RosterModelsNormal(env: Env, p: Fields, s: Settings)
    ensures ModelsNormal(OllamaRoster(env, p, s))
  {
    hide ModelNames, ModelsNormal, LegacyMode;
    var v := Get(p, EnabledOllamaModels, Null);
    if v.Arr? { ModelNamesNormal(env, if |v.items| > 32 then v.items[..32] else v.items); }
    ModelNamesNormal(env, []);
    NoModelNames(env);
    ModelNamesNormal(env, [Str(Strip(OrText(env, Get(p, OllamaModel, Null), s.ollamaModel)))]);
  }

  ghost predicate RowsNormal(configured: map<string, CodexEntry>) {
    forall m :: m in configured ==> configured[m].model == m && configured[m].effort in EFFORTS
  }

  lemma {:induction false} CodexRowsNormal(env: Env, entries: seq<Value>)
    ensures CodexRows(env, entries).Some? ==> RowsNormal(CodexRows(env, entries).value)
  {
    hide Strip, Boolean, OrText, Env.LowerCase, Env.TextOf;
    if entries != [] { CodexRowsNormal(env, entries[..|entries| - 1]); }
  }

  lemma CatalogNormal(env: Env, v: Value, legacy: CodexEntry)
    ensures CodexCatalog(env, v, legacy).Some? ==> RosterNormal(CodexCatalog(env, v, legacy).value)
  {
    hide CodexRows;
    CodexRowsNormal(env, if v.Arr? then v.items else [EntryJson(legacy)]);
  }

  lemma SetupNormal(env: Env, p: Fields, s: Settings)
    ensures CodexSetup(env, p, s).Some? ==>
      var (path, roster) := CodexSetup(env, p, s).value;
      RosterNormal(roster) && ValidCliPath(env, path, "codex") && Tight(path)
  {
    hide CodexCatalog, RosterNormal, ValidCliPath, LegacyGpt, CodexModelGiven, Tight, Env.LowerCase;
    CatalogNormal(env, Get(p, CodexCliModels, Null),
      CodexEntry(CodexModelGiven(env, p, s),
          env.LowerCase(Strip(if s.codexEffort != "" then s.codexEffort else "medium")), LegacyGpt(env, p, s)));
  }

  lemma ProvidedNormal(env: Env, p: Fields)
    ensures Provided(env, p).Some? ==> ProvidersNormal(env, Provided(env, p).value)
  {
    hide ModelsNormal, RosterNormal, ValidCliPath, OllamaRoster, CodexSetup, Initial, ProviderText, Boolean,
        ValidOpenclawModel,
      FirstEnabled, AnyEnabled, DeriveMode, UrlOk, Tight, RStripSlashes, Env.LowerCase;
    if Provided(env, p).Some? {
      var s := Initial(env, p);
      RosterModelsNormal(env, p, s);
      SetupNormal(env, p, s);
      ProviderTextTight(env, p, HermesAgentPath, s.hermesPath, "hermes");
      ProviderTextTight(env, p, OpenclawPath, s.openclawPath, "openclaw");
    }
  }

  lemma ProviderTextTight(env: Env, p: Fields, key: Key, current: string, fallback: string)
    ensures Tight(ProviderText(env, p, key, current, fallback))
  {
    hide Tight;
  }

  // ----- the routes -----

  lemma {:induction false} CodexRoutesEnableable(env: Env, roster: seq<CodexEntry>, r: Route)
    requires forall e :: e in roster ==> e.model in CATALOG && e.effort in EFFORTS
    requires r in CodexRoutes(roster)
    ensures r.CliRoute? && r.harness == CodexCli && Enableable(env, r)
  {
    if r != CliRoute(CodexCli, roster[0].model, roster[0].effort) { CodexRoutesEnableable(env, roster[1..], r); }
  }

  lemma RoutesEnableable(env: Env, t: Settings, r: Route)
    requires ProvidersNormal(env, t) && r in EnabledRoutes(t)
    ensures Enableable(env, r)
  {
    hide ValidOpenclawModel, ValidCliPath, NoControl, FirstEnabled, AnyEnabled, DeriveMode, UrlOk, StartsTight;
    if r in CodexRoutes(t.codexModels) {
      RosterEntries(t.codexModels);
      CodexRoutesEnableable(env, t.codexModels, r);
    }
  }

  lemma RosterEntries(roster: seq<CodexEntry>)
    requires RosterNormal(roster)
    ensures forall e :: e in roster ==> e.model in CATALOG && e.effort in EFFORTS
  {
  }

  /** A printed enabled route names its route. */
  lemma PrintedIsEnabled(env: Env, t: Settings, text: string) returns (r: Route)
    requires ProvidersNormal(env, t) && text in RoutesOf(t)
    ensures r in EnabledRoutes(t) && Print(r) == text && Enableable(env, r)
    ensures Identity(env, text, t.codexModel) == Some(ProviderName(Runs(env, r)))
  {
    hide ProvidersNormal, Enableable, Print, Identity, Runs, ProviderName;
    var i :| 0 <= i < |RoutesOf(t)| && RoutesOf(t)[i] == text;
    r := EnabledRoutes(t)[i];
    RoutesEnableable(env, t, r);
    IdentityIsWhatRuns(env, r, r, t.codexModel);
  }

  lemma NothingIdentity(env: Env, codexModel: string)
    ensures Identity(env, "", codexModel) == Some("")
  {
    hide HarnessOf, Strip, Env.LowerCase, Malformed;
    EmptyText(env);
  }

  lemma EmptyText(env: Env)
    ensures Strip("") == "" && env.LowerCase("") == ""
    ensures HarnessOf("") == None && !Malformed("")
  {
    assert forall h :: !StartsWith("", Prefix(h));
  }

  lemma PrintedShape(env: Env, r: Route)
    requires Enableable(env, r)
    ensures Print(r) != "" && |Print(r)| <= 260 && Print(r) !in {"gpt-cli", "codex-cli"} && !IsSpace(Print(r)[0])
    ensures r.CliRoute? || Tight(r.model) ==> Tight(Print(r))
  {
    hide ValidOpenclawModel;
    match r
    case OllamaRoute(model) =>
      assert Print(r)[0] == 'o' && Print(r)[|Print(r)| - 1] == model[|model| - 1];
    case CliRoute(harness, model, effort) =>
      PrefixesAreLowerText(harness);
      EffortsHaveNoColon(effort);
      assert Print(r)[0] == Prefix(harness)[0] && Print(r)[|Print(r)| - 1] == effort[|effort| - 1];
      assert |model| <= 240 by { CliModelLength(env, r); }
      assert 'm' == "medium"[0];
      assert Print(r)[0] != 'g';
      assert |Print(r)| > 9;
  }

  lemma CliModelLength(env: Env, r: Route)
    requires r.CliRoute? && Enableable(env, r)
    ensures |r.model| <= 240
  {
    if r.harness != OpenClaw { CatalogIsLowerText(r.model); }
  }

  // ----- accepted settings are normal: assignments -----

  lemma RoleAssigned(env: Env, rawPrimary: Fields, rawReviewer: Fields, rawAdjudicator: Fields, routes: seq<string>,
                     codexModel: string, role: Role, primary: string, reviewer: string, adjudicator: string)
    requires routes != [] && primary == PrimaryFor(env, rawPrimary, routes, role)
    requires ReviewerFor(env, rawReviewer, routes, primary, codexModel, role) == Some(reviewer)
    requires AdjudicatorFor(env, rawAdjudicator, routes, primary, reviewer, codexModel, role) == Some(adjudicator)
    ensures RoleNormal(env, routes, primary, reviewer, adjudicator, codexModel)
  {
    hide Canonical, Identity;
  }

  lemma CollectedAt(f: Role -> Option<string>, role: Role)
    requires Collected(f).Some? && role in ROLE_SET
    ensures Collected(f).value.Keys == ROLE_SET && f(role) == Some(Collected(f).value[role])
  {
  }

  lemma AssignedNormal(env: Env, p: Fields, s: Settings)
    requires EnabledRoutes(s) != []
    ensures Assigned(env, p, s).Some? ==> AssignmentsNormal(env, Assigned(env, p, s).value)
  {
    hide EnabledRoutes, Canonical, Identity, Collected, RoleNormal, ReviewerFor, AdjudicatorFor, PrimaryFor;
    if Assigned(env, p, s).Some? {
      var t := Assigned(env, p, s).value;
      var routes := RoutesOf(s);
      SameRoutes(s, t);
      var rawR, rawA :=
        RawAssignments(Get(p, AgentSecondOpinionModels, Null)), RawAssignments(Get(p, AgentAdjudicatorModels, Null));
      forall role | role in ROLE_SET
        ensures role in t.primary && role in t.reviewer && role in t.adjudicator
        ensures t.reviewer.Keys == t.adjudicator.Keys == ROLE_SET
        ensures RoleNormal(env, routes, t.primary[role], t.reviewer[role], t.adjudicator[role], t.codexModel)
      {
        CollectedAt(role => ReviewerFor(env, rawR, routes, At(t.primary, role), s.codexModel, role), role);
        CollectedAt(role => AdjudicatorFor(env, rawA, routes, At(t.primary, role), At(t.reviewer, role),
            s.codexModel, role), role);
        RoleAssigned(env, RawAssignments(Get(p, AgentModels, Null)), rawR, rawA, routes, s.codexModel, role,
          t.primary[role], t.reviewer[role], t.adjudicator[role]);
      }
      assert SocAnalyst in ROLE_SET;
    }
  }

  lemma SameRoutes(a: Settings, b: Settings)
    requires a.models == b.models && a.codexModels == b.codexModels
    requires a.hermesEnabled == b.hermesEnabled && a.hermesModel == b.hermesModel && a.hermesEffort == b.hermesEffort
    requires a.openclawEnabled == b.openclawEnabled && a.openclawModel == b.openclawModel
    requires a.openclawEffort == b.openclawEffort
    ensures EnabledRoutes(a) == EnabledRoutes(b)
  {
    hide CodexRoutes;
  }

  // ----- accepted settings are normal: the rest -----

  lemma Round4IsRound(r: real)
    ensures var q := Round4(r); Round4(q) == q && FourDecimals(q)
    ensures 0.1 <= r <= 100.0 ==> 0.1 <= Round4(r) <= 100.0
  {
    var x := r * 10000.0;
    var n := x.Floor;
    var d := x - n as real;
    var m := if d < 0.5 || (d == 0.5 && n % 2 == 0) then n else n + 1;
    var q := m as real / 10000.0;
    assert q * 10000.0 == m as real;
    assert (q * 10000.0).Floor == m;
    if 0.1 <= r <= 100.0 {
      assert 1000.0 <= x <= 1000000.0;
      assert 1000 <= n <= 1000000;
      assert n == 1000000 ==> d == 0.0;
      assert 1000 <= m <= 1000000;
    }
  }

  lemma {:induction false} SlashesOnly(base: string, s: string)
    requires base == RStripSlashes(base) && |base| <= |s| && s[..|base|] == base
    requires forall i :: |base| <= i < |s| ==> s[i] == '/'
    ensures RStripSlashes(s) == base
  {
    if |s| == |base| {
      assert s == base;
    } else {
      var shorter := s[..|s| - 1];
      assert shorter[..|base|] == base;
      SlashesOnly(base, shorter);
    }
  }

  lemma LoopbackBases(url: string)
    requires url in LOOPBACK_URLS
    ensures |url| <= 240 && url[|url| - 1] != '/'
  {
  }

  /** Cutting a URL at 240 characters keeps it a loopback URL. */
  lemma ShortLoopback(url: string)
    requires RStripSlashes(url) in LOOPBACK_URLS
    ensures RStripSlashes(Truncate(url, 240)) in LOOPBACK_URLS
  {
    var base := RStripSlashes(url);
    LoopbackBases(base);
    var short := Truncate(url, 240);
    assert short[..|base|] == base;
    SlashesOnly(base, short);
  }

  predicate PathsTight(t: Settings) {
    Tight(t.asnPath) && Tight(t.cityPath) && Tight(t.countryPath)
  }

  lemma DefaultPathsTight(env: Env)
    ensures PathsTight(Defaults(env))
  {
    var asn, city, country := ASN_PATH, CITY_PATH, COUNTRY_PATH;
    assert Tight(asn) && Tight(city) && Tight(country);
    var d := Defaults(env);
    assert d.asnPath == asn && d.cityPath == city && d.countryPath == country;
  }

  lemma GivenTight(env: Env, p: Fields, key: Key, default: string)
    requires Tight(default)
    ensures Tight(Given(env, p, key, default))
  {
    hide Tight;
  }

  lemma InitialPathsTight(env: Env, p: Fields)
    ensures PathsTight(Initial(env, p))
  {
    hide Tight, Given, Defaults;
    var d := Defaults(env);
    DefaultPathsTight(env);
    GivenTight(env, p, GeoipAsnPath, d.asnPath);
    GivenTight(env, p, GeoipCityPath, d.cityPath);
    GivenTight(env, p, GeoipCountryPath, d.countryPath);
  }

  lemma ProvidedPathsTight(env: Env, p: Fields)
    ensures Provided(env, p).Some? ==> PathsTight(Provided(env, p).value)
  {
    hide Tight, Initial, OllamaRoster, CodexSetup, ProvidersOk, UrlOk, FirstEnabled, AnyEnabled, DeriveMode,
        ProviderText, Boolean, Env.LowerCase;
    InitialPathsTight(env, p);
  }

  /** Cutting at 240 characters leaves every value but the model name and the URL as it was. */
  lemma ShortenedChanges(env: Env, s: Settings)
    requires ProvidersNormal(env, s)
    ensures Shortened(s) == s.(ollamaModel := Truncate(s.ollamaModel, 240), ollamaUrl := Truncate(s.ollamaUrl, 240))
    ensures s.models != [] ==> Shortened(s).ollamaModel == s.ollamaModel
  {
    hide ValidOpenclawModel, ValidCliPath, AnyEnabled, DeriveMode, UrlOk, RStripSlashes, FirstEnabled, NoControl;
    var e := FirstEnabled(s.codexModels);
    RosterEntries(s.codexModels);
    CatalogIsLowerText(e.model);
    CatalogIsLowerText(s.hermesModel);
    EffortsHaveNoColon(e.effort);
    EffortsHaveNoColon(s.openclawEffort);
    assert |s.openclawModel| <= 240 by { CliModelLength(env, CliRoute(OpenClaw, s.openclawModel, s.openclawEffort)); }
  }

  lemma SeverityIsKnown(env: Env, s: string)
    ensures Severity(env, s).Some? ==> Severity(env, s).value in SEVERITIES
  {
    hide Env.LowerCase;
  }

  lemma CutUrl(url: string)
    requires UrlOk(url)
    ensures UrlOk(Truncate(url, 240))
  {
    var t := Truncate(url, 240);
    assert StartsWith(url, "http://") ==> t[..7] == url[..7];
    assert StartsWith(url, "https://") ==> t[..8] == url[..8];
  }

  lemma ProvidersAfterFinish(env: Env, s: Settings, t: Settings)
    requires ProvidersNormal(env, s)
    requires t == s.(ollamaModel := t.ollamaModel, ollamaUrl := Truncate(s.ollamaUrl, 240),
                     analysisSeverity := t.analysisSeverity, pcapSeverity := t.pcapSeverity,
                     incidentSeverity := t.incidentSeverity, captureLoss := t.captureLoss)
    requires s.models != [] ==> t.ollamaModel == s.ollamaModel
    ensures ProvidersNormal(env, t)
  {
    hide ModelsNormal, RosterNormal, ValidOpenclawModel, ValidCliPath, AnyEnabled, DeriveMode, UrlOk,
        RStripSlashes, FirstEnabled, Tight, Truncate;
    CutUrl(s.ollamaUrl);
    if s.openclawEnabled { ShortLoopback(s.ollamaUrl); }
  }

  lemma FinishedNormal(env: Env, s: Settings)
    requires ProvidersNormal(env, s) && AssignmentsNormal(env, s) && PathsTight(s)
    ensures Finished(env, s).Some? ==> Normal(env, Finished(env, s).value)
  {
    hide ProvidersNormal, RoleNormal, EnabledRoutes, Severity, CaptureLoss, Shortened, GeoipPathOk, Tight;
    if Finished(env, s).Some? {
      var t := Finished(env, s).value;
      var m := s.(
        analysisSeverity := Severity(env, s.analysisSeverity).value,
        pcapSeverity := Severity(env, s.pcapSeverity).value,
        incidentSeverity := Severity(env, s.incidentSeverity).value,
        captureLoss := Float(CaptureLoss(env, s.captureLoss).value));
      ProvidersMoved(env, s, m);
      ShortenedChanges(env, m);
      ProvidersAfterFinish(env, s, t);
      SameRoutes(s, t);
      SeverityIsKnown(env, s.analysisSeverity);
      SeverityIsKnown(env, s.pcapSeverity);
      SeverityIsKnown(env, s.incidentSeverity);
      LossIsRound(env, s.captureLoss);
    }
  }

  lemma ProvidersMoved(env: Env, s: Settings, t: Settings)
    requires ProvidersNormal(env, s)
    requires t == s.(analysisSeverity := t.analysisSeverity, pcapSeverity := t.pcapSeverity,
                     incidentSeverity := t.incidentSeverity, captureLoss := t.captureLoss)
    ensures ProvidersNormal(env, t)
  {
    hide ModelsNormal, RosterNormal, ValidOpenclawModel, ValidCliPath, AnyEnabled, DeriveMode, UrlOk,
        RStripSlashes, FirstEnabled, Tight;
  }

  lemma LossIsRound(env: Env, v: Value)
    ensures CaptureLoss(env, v).Some? ==>
      var q := CaptureLoss(env, v).value;
      0.1 <= q <= 100.0 && Round4(q) == q
  {
    hide Round4;
    var r := match v
      case Float(x) => Some(x)
      case Str(s) => env.parseFloat(s)
      case _ => None;
    if r.Some? { Round4IsRound(r.value); }
  }

  lemma AssignedKeeps(env: Env, p: Fields, s: Settings)
    requires EnabledRoutes(s) != [] && ProvidersNormal(env, s) && PathsTight(s)
    ensures Assigned(env, p, s).Some?
            ==> ProvidersNormal(env, Assigned(env, p, s).value) && PathsTight(Assigned(env, p, s).value)
  {
    hide ModelsNormal, RosterNormal, ValidOpenclawModel, ValidCliPath, AnyEnabled, DeriveMode, UrlOk,
        RStripSlashes, FirstEnabled, Tight,
      Primaries, Reviewers, Adjudicators, EnabledRoutes;
  }

  /** Whatever normalisation accepts is in normal form. */
  lemma AcceptedIsNormal(env: Env, payload: Value)
    ensures Normalize(env, payload).Accepted? ==> Normal(env, Normalize(env, payload).settings)
  {
    hide Provided, Assigned, Finished, ProvidersNormal, AssignmentsNormal, RestNormal, Normal, PathsTight;
    if Normalize(env, payload).Accepted? {
      var p := if payload.Obj? then payload.fields else map[];
      var s := Provided(env, p).value;
      ProvidedHasRoutes(env, p);
      ProvidedNormal(env, p);
      ProvidedPathsTight(env, p);
      AssignedNormal(env, p, s);
      AssignedKeeps(env, p, s);
      FinishedNormal(env, Assigned(env, p, s).value);
    }
  }

  /** The two texts name enabled routes, and no routes they name run the same model. */
  ghost predicate RunsOther(env: Env, t: Settings, x: string, y: string) {
    && x in RoutesOf(t) && y in RoutesOf(t)
    && forall a, b :: a in EnabledRoutes(t) && b in EnabledRoutes(t) && Print(a) == x && Print(b) == y ==>
         Runs(env, a) != Runs(env, b)
  }

  lemma OtherIdentityRunsOther(env: Env, t: Settings, x: string, y: string)
    requires ProvidersNormal(env, t) && x in RoutesOf(t) && y in RoutesOf(t)
    requires Identity(env, x, t.codexModel) != Identity(env, y, t.codexModel)
    ensures RunsOther(env, t, x, y)
  {
    hide ProvidersNormal, EnabledRoutes, Identity, Print, Runs, ProviderName, Enableable, RoutesOf;
    forall a, b | a in EnabledRoutes(t) && b in EnabledRoutes(t) && Print(a) == x && Print(b) == y
      ensures Runs(env, a) != Runs(env, b)
    {
      RoutesEnableable(env, t, a);
      RoutesEnableable(env, t, b);
      IdentityIsWhatRuns(env, a, b, t.codexModel);
    }
  }

  /** For every accepted payload and role, the primary is an enabled route, and the reviewer and the
      adjudicator, where there are any, are enabled routes that run models other than each other's and
      the primary's, whatever the effort and the harness. */
  lemma AssignmentsAreIndependent(env: Env, payload: Value, role: Role)
    requires Normalize(env, payload).Accepted?
    ensures var t := Normalize(env, payload).settings;
      && role in t.primary && role in t.reviewer && role in t.adjudicator
      && t.primary[role] in RoutesOf(t)
      && (t.reviewer[role] != "" ==> RunsOther(env, t, t.reviewer[role], t.primary[role]))
      && (t.adjudicator[role] != "" ==> RunsOther(env, t, t.adjudicator[role], t.primary[role]))
      && (t.adjudicator[role] != "" && t.reviewer[role] != ""
         ==> RunsOther(env, t, t.adjudicator[role], t.reviewer[role]))
  {
    hide Normalize, ProvidersNormal, RestNormal, Identity, RunsOther, RoutesOf;
    AcceptedIsNormal(env, payload);
    var t := Normalize(env, payload).settings;
    EveryRole(role);
    assert RoleNormal(env, RoutesOf(t), t.primary[role], t.reviewer[role], t.adjudicator[role], t.codexModel);
    if t.reviewer[role] != "" { OtherIdentityRunsOther(env, t, t.reviewer[role], t.primary[role]); }
    if t.adjudicator[role] != "" {
      OtherIdentityRunsOther(env, t, t.adjudicator[role], t.primary[role]);
      if t.reviewer[role] != "" { OtherIdentityRunsOther(env, t, t.adjudicator[role], t.reviewer[role]); }
    }
  }

  lemma EveryRole(role: Role)
    ensures role in ROLE_SET
  {
    match role
    case SocAnalyst =>
    case IncidentResponder =>
    case SiemEngineer =>
    case CyberThreatIntel =>
    case ThreatHunter =>
  }
}
