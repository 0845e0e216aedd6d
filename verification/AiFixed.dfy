/** Normalising accepted settings again changes nothing, exactly when no value was cut at a blank. */
module AiFixed {
  import opened Prelude
  import opened Values
  import opened AiRoutes
  import opened AiSettings
  import opened AiNormal

  // ----- reading the document back -----

  predicate IsStored(key: Key) {
    IsGeneral(key) || IsHarness(key) || IsPolicy(key)
  }

  lemma StoredMembers(t: Settings)
    ensures forall key :: IsStored(key) ==> key in Stored(t) && Stored(t)[key] == Member(t, key)
  {
    hide Member, IsGeneral, IsHarness, IsPolicy;
    forall key | IsStored(key) ensures key in Stored(t) && Stored(t)[key] == Member(t, key) {
      if IsGeneral(key) {
        GeneralIsListed(key);
      } else if IsHarness(key) {
        HarnessIsListed(key);
      } else {
        PolicyIsListed(key);
      }
    }
  }

  lemma GeneralTexts(t: Settings)
    ensures var p := Stored(t);
      && Mode in p && p[Mode] == Str(t.mode)
      && OllamaModel in p && p[OllamaModel] == Str(t.ollamaModel)
      && OllamaUrl in p && p[OllamaUrl] == Str(t.ollamaUrl)
      && CloudProvider in p && p[CloudProvider] == Str(t.cloudProvider)
      && CloudModel in p && p[CloudModel] == Str(t.cloudModel)
      && CloudCommand in p && p[CloudCommand] == Str(t.cloudCommand)
      && CaptureLossThreshold in p && p[CaptureLossThreshold] == t.captureLoss
  {
    hide Stored;
    StoredMembers(t);
  }

  lemma CodexTexts(t: Settings)
    ensures var p := Stored(t);
      && CodexCliPath in p && p[CodexCliPath] == Str(t.codexPath)
      && CodexCliModel in p && p[CodexCliModel] == Str(t.codexModel)
      && CodexCliReasoningEffort in p && p[CodexCliReasoningEffort] == Str(t.codexEffort)
  {
    hide Stored;
    StoredMembers(t);
  }

  lemma HermesTexts(t: Settings)
    ensures var p := Stored(t);
      && HermesAgentPath in p && p[HermesAgentPath] == Str(t.hermesPath)
      && HermesAgentModel in p && p[HermesAgentModel] == Str(t.hermesModel)
      && HermesAgentReasoningEffort in p && p[HermesAgentReasoningEffort] == Str(t.hermesEffort)
  {
    hide Stored;
    StoredMembers(t);
  }

  lemma OpenclawTexts(t: Settings)
    ensures var p := Stored(t);
      && OpenclawPath in p && p[OpenclawPath] == Str(t.openclawPath)
      && OpenclawModel in p && p[OpenclawModel] == Str(t.openclawModel)
      && OpenclawReasoningEffort in p && p[OpenclawReasoningEffort] == Str(t.openclawEffort)
  {
    hide Stored;
    StoredMembers(t);
  }

  lemma SeverityTexts(t: Settings)
    ensures var p := Stored(t);
      && AnalysisMinSeverity in p && p[AnalysisMinSeverity] == Str(t.analysisSeverity)
      && PcapMinSeverity in p && p[PcapMinSeverity] == Str(t.pcapSeverity)
      && IncidentMinSeverity in p && p[IncidentMinSeverity] == Str(t.incidentSeverity)
  {
    hide Stored;
    StoredMembers(t);
  }

  lemma GeoipTexts(t: Settings)
    ensures var p := Stored(t);
      && GeoipAsnPath in p && p[GeoipAsnPath] == Str(t.asnPath)
      && GeoipCityPath in p && p[GeoipCityPath] == Str(t.cityPath)
      && GeoipCountryPath in p && p[GeoipCountryPath] == Str(t.countryPath)
  {
    hide Stored;
    StoredMembers(t);
  }

  lemma Rosters(t: Settings)
    ensures var p := Stored(t);
      && EnabledOllamaModels in p && p[EnabledOllamaModels] == Arr(Strs(t.models))
      && CodexCliModels in p && p[CodexCliModels] == Arr(EntryJsons(t.codexModels))
      && HermesAgentEnabled in p && p[HermesAgentEnabled] == Bool(t.hermesEnabled)
      && OpenclawEnabled in p && p[OpenclawEnabled] == Bool(t.openclawEnabled)
  {
    hide Stored;
    StoredMembers(t);
  }

  lemma AssignmentMembers(t: Settings)
    ensures var p := Stored(t);
      && AgentModels in p && p[AgentModels] == AssignmentsJson(t.primary)
      && AgentSecondOpinionModels in p && p[AgentSecondOpinionModels] == AssignmentsJson(t.reviewer)
      && AgentAdjudicatorModels in p && p[AgentAdjudicatorModels] == AssignmentsJson(t.adjudicator)
  {
    hide Stored;
    StoredMembers(t);
  }

  /** Every text of the settings is stripped. */
  predicate TextsTight(t: Settings) {
    && Tight(t.mode) && Tight(t.ollamaModel) && Tight(t.ollamaUrl) && Tight(t.cloudProvider) && Tight(t.cloudModel)
    && Tight(t.cloudCommand)
    && Tight(t.codexPath) && Tight(t.codexModel) && Tight(t.codexEffort)
    && Tight(t.hermesPath) && Tight(t.hermesModel) && Tight(t.hermesEffort)
    && Tight(t.openclawPath) && Tight(t.openclawModel) && Tight(t.openclawEffort)
    && Tight(t.analysisSeverity) && Tight(t.pcapSeverity) && Tight(t.incidentSeverity) && PathsTight(t)
  }

  lemma GivenText(env: Env, p: Fields, key: Key, default: string, s: string)
    requires key in p && p[key] == Str(s) && Tight(s)
    ensures Given(env, p, key, default) == s
  {
    hide Tight;
    assert env.TextOf(p[key]) == s;
  }

  /** The settings as the first phase reads them from the document. */
  function Reread(env: Env, t: Settings): Settings {
    var d := Defaults(env);
    t.(models := d.models, codexModels := d.codexModels, gptEnabled := false, hermesEnabled := false,
       openclawEnabled := false, captureLoss := Str(env.TextOf(t.captureLoss)), primary := d.primary,
       reviewer := d.reviewer, adjudicator := d.adjudicator)
  }

  lemma InitialOfStored(env: Env, t: Settings)
    requires TextsTight(t) && Tight(env.TextOf(t.captureLoss))
    ensures Initial(env, Stored(t)) == Reread(env, t)
  {
    hide Stored, Tight, Given, Strip, Env.TextOf;
    var p, d := Stored(t), Defaults(env);
    GeneralTexts(t);
    CodexTexts(t);
    HermesTexts(t);
    OpenclawTexts(t);
    SeverityTexts(t);
    GeoipTexts(t);
    GivenText(env, p, Mode, d.mode, t.mode);
    GivenText(env, p, OllamaModel, d.ollamaModel, t.ollamaModel);
    GivenText(env, p, OllamaUrl, d.ollamaUrl, t.ollamaUrl);
    GivenText(env, p, CloudProvider, d.cloudProvider, t.cloudProvider);
    GivenText(env, p, CloudModel, d.cloudModel, t.cloudModel);
    GivenText(env, p, CloudCommand, d.cloudCommand, t.cloudCommand);
    GivenText(env, p, CodexCliPath, d.codexPath, t.codexPath);
    GivenText(env, p, CodexCliModel, d.codexModel, t.codexModel);
    GivenText(env, p, CodexCliReasoningEffort, d.codexEffort, t.codexEffort);
    GivenText(env, p, HermesAgentPath, d.hermesPath, t.hermesPath);
    GivenText(env, p, HermesAgentModel, d.hermesModel, t.hermesModel);
    GivenText(env, p, HermesAgentReasoningEffort, d.hermesEffort, t.hermesEffort);
    GivenText(env, p, OpenclawPath, d.openclawPath, t.openclawPath);
    GivenText(env, p, OpenclawModel, d.openclawModel, t.openclawModel);
    GivenText(env, p, OpenclawReasoningEffort, d.openclawEffort, t.openclawEffort);
    GivenText(env, p, AnalysisMinSeverity, d.analysisSeverity, t.analysisSeverity);
    GivenText(env, p, PcapMinSeverity, d.pcapSeverity, t.pcapSeverity);
    GivenText(env, p, IncidentMinSeverity, d.incidentSeverity, t.incidentSeverity);
    GivenText(env, p, GeoipAsnPath, d.asnPath, t.asnPath);
    GivenText(env, p, GeoipCityPath, d.cityPath, t.cityPath);
    GivenText(env, p, GeoipCountryPath, d.countryPath, t.countryPath);
  }

  // ----- rosters read back -----

  lemma LastModelIsNew(models: seq<string>)
    requires ModelsNormal(models) && models != []
    ensures var last := models[|models| - 1];
      last != "" && |last| <= 240 && NoControl(last) && last !in models[..|models| - 1]
  {
    hide NoControl;
    assert StartsTight(models[|models| - 1]);
  }

  lemma {:induction false} ModelNamesOfStored(env: Env, models: seq<string>)
    requires ModelsNormal(models) && forall i :: 0 <= i < |models| ==> Tight(models[i])
    ensures ModelNames(env, Strs(models)) == models
  {
    hide NoControl, Tight, ModelsNormal, ModelNames, ModelName;
    var items := Strs(models);
    if models == [] {
      assert items == [];
      NoModelNames(env);
    } else {
      var n := |models| - 1;
      ModelsPrefix(models, n);
      ModelNamesOfStored(env, models[..n]);
      LastModelIsNew(models);
      StoredName(env, models[n]);
      ModelNamesStep(env, items, n);
      assert items[..n] == Strs(models[..n]) && items[..n + 1] == items;
      assert models == models[..n] + [models[n]];
    }
  }

  lemma ModelsPrefix(models: seq<string>, n: nat)
    requires ModelsNormal(models) && n < |models|
    ensures ModelsNormal(models[..n])
  {
    hide NoControl, StartsTight;
  }

  lemma StoredName(env: Env, s: string)
    requires Tight(s) && |s| <= 240
    ensures ModelName(env, Str(s)) == s
  {
    hide Tight;
    assert env.TextOf(Str(s)) == s;
  }

  lemma StoredRow(env: Env, e: CodexEntry, configured: map<string, CodexEntry>)
    requires e.model in CATALOG && e.effort in EFFORTS && e.model !in configured
    ensures CodexRow(env, EntryJson(e), configured) == Some(configured[e.model := e])
  {
    hide Env.LowerCase, Strip;
    var f := EntryJson(e).fields;
    assert f[Model] == Str(e.model) && f[ReasoningEffort] == Str(e.effort) && f[Enabled] == Bool(e.enabled);
    CatalogIsTight(e.model);
    EffortsHaveNoColon(e.effort);
    assert Tight(e.effort) by { EffortIsTight(e.effort); }
    LowerTextIsLower(env, e.effort);
    assert env.TextOf(Str(e.model)) == e.model && OrText(env, Str(e.effort), "medium") == e.effort;
  }

  lemma CatalogIsTight(model: string)
    requires model in CATALOG
    ensures Tight(model)
  {
  }

  lemma EffortIsTight(effort: string)
    requires effort in EFFORTS
    ensures Tight(effort)
  {
  }

  ghost predicate RowsOf(roster: seq<CodexEntry>, configured: map<string, CodexEntry>) {
    && (forall m :: m in configured ==> exists i :: 0 <= i < |roster| && roster[i].model == m)
    && (forall i :: 0 <= i < |roster| ==> roster[i].model in configured && configured[roster[i].model] == roster[i])
  }

  lemma OneMoreRow(roster: seq<CodexEntry>, configured: map<string, CodexEntry>, e: CodexEntry)
    requires RowsOf(roster, configured)
    requires forall i :: 0 <= i < |roster| ==> roster[i].model != e.model
    ensures e.model !in configured && RowsOf(roster + [e], configured[e.model := e])
  {
    var longer := roster + [e];
    assert longer[|roster|] == e;
    assert forall i :: 0 <= i < |roster| ==> longer[i] == roster[i];
  }

  lemma {:induction false} RowsOfStored(env: Env, roster: seq<CodexEntry>)
    requires forall i :: 0 <= i < |roster| ==> roster[i].model in CATALOG && roster[i].effort in EFFORTS
    requires forall i, j :: 0 <= i < j < |roster| ==> roster[i].model != roster[j].model
    ensures CodexRows(env, EntryJsons(roster)).Some? && RowsOf(roster, CodexRows(env, EntryJsons(roster)).value)
  {
    hide CodexRow, EntryJson, CATALOG, EFFORTS;
    var entries := EntryJsons(roster);
    if roster == [] {
      assert entries == [];
      assert RowsOf([], map[]);
    } else {
      hide RowsOf;
      var n := |roster| - 1;
      RowsOfStored(env, roster[..n]);
      assert entries[..n] == EntryJsons(roster[..n]);
      var configured := CodexRows(env, entries[..n]).value;
      OneMoreRow(roster[..n], configured, roster[n]);
      StoredRow(env, roster[n], configured);
      assert roster == roster[..n] + [roster[n]];
    }
  }

  lemma CatalogIsDistinct(i: nat, j: nat)
    requires i < j < |CATALOG|
    ensures CATALOG[i] != CATALOG[j]
  {
    assert |CATALOG[0]| == 7 && |CATALOG[1]| == 11 && |CATALOG[2]| == 13 && |CATALOG[3]| == 12;
  }

  lemma CatalogOfStored(env: Env, roster: seq<CodexEntry>, legacy: CodexEntry)
    requires RosterNormal(roster)
    ensures CodexCatalog(env, Arr(EntryJsons(roster)), legacy) == Some(roster)
  {
    hide CodexRows;
    RosterEntries(roster);
    forall i, j | 0 <= i < j < |roster| ensures roster[i].model != roster[j].model { CatalogIsDistinct(i, j); }
    RowsOfStored(env, roster);
    var configured := CodexRows(env, EntryJsons(roster)).value;
    assert CompleteCatalog(configured) == roster;
  }

  // ----- providers read back -----

  lemma PathsAreText(env: Env, s: string, name: string)
    requires ValidCliPath(env, s, name)
    ensures s != ""
  {
  }

  lemma CatalogModelIsProviderModel(model: string)
    requires model in CATALOG
    ensures ValidProviderModel(model)
  {
    CatalogIsLowerText(model);
    forall i | 0 <= i < |model| ensures model[i] as int > 31 && model[i] as int != 127 {}
  }

  lemma SetupOfStored(env: Env, t: Settings)
    requires ProvidersNormal(env, t)
    ensures CodexSetup(env, Stored(t), Reread(env, t)) == Some((t.codexPath, t.codexModels))
  {
    hide Stored, Reread, CodexCatalog, ValidOpenclawModel, ValidCliPath, AnyEnabled, DeriveMode, UrlOk,
        RStripSlashes, LegacyGpt,
      ModelsNormal, Env.LowerCase, FirstEnabled, Strip, ValidProviderModel, Tight;
    CodexTexts(t);
    HermesTexts(t);
    OpenclawTexts(t);
    Rosters(t);
    RereadTexts(env, t);
    PathsAreText(env, t.codexPath, "codex");
    RosterEntries(t.codexModels);
    var e := FirstEnabled(t.codexModels);
    CatalogIsTight(e.model);
    CatalogIsLowerText(e.model);
    CatalogModelIsProviderModel(e.model);
    EffortsHaveNoColon(e.effort);
    EffortIsTight(e.effort);
    LowerTextIsLower(env, e.effort);
    assert env.TextOf(Str(e.model)) == e.model;
    assert CodexModelGiven(env, Stored(t), Reread(env, t)) == e.model;
    CatalogOfStored(env, t.codexModels, CodexEntry(e.model, e.effort, LegacyGpt(env, Stored(t), Reread(env, t))));
  }

  lemma RereadTexts(env: Env, t: Settings)
    ensures var s := Reread(env, t);
      && s.codexPath == t.codexPath && s.codexModel == t.codexModel && s.codexEffort == t.codexEffort
      && s.hermesPath == t.hermesPath && s.hermesModel == t.hermesModel && s.hermesEffort == t.hermesEffort
      && s.openclawPath == t.openclawPath && s.openclawModel == t.openclawModel && s.openclawEffort == t.openclawEffort
      && s.ollamaUrl == t.ollamaUrl
  {
    hide Env.TextOf, Defaults;
  }

  lemma ProviderTextOfStored(env: Env, p: Fields, key: Key, current: string, fallback: string, s: string)
    requires key in p && p[key] == Str(s) && Tight(s) && s != ""
    ensures ProviderText(env, p, key, current, fallback) == s
  {
    hide Tight;
    assert env.TextOf(p[key]) == s;
  }

  lemma OpenclawModelIsTight(env: Env, s: string)
    requires ValidOpenclawModel(env, s)
    ensures Tight(s) && s != ""
  {
    hide Env.LowerCase;
    var n := |s| - 1;
    assert n == 0 || IsModelChar(s[n]);
  }

  lemma ProviderValuesOfStored(env: Env, t: Settings)
    requires ProvidersNormal(env, t)
    ensures WithProviderValues(env, Stored(t), Reread(env, t))
         == Reread(env, t).(hermesEnabled := t.hermesEnabled, openclawEnabled := t.openclawEnabled)
  {
    hide Stored, Reread, Defaults, ProviderText, ValidOpenclawModel, ValidCliPath, AnyEnabled, DeriveMode, UrlOk,
        RStripSlashes,
      ModelsNormal, RosterNormal, Env.LowerCase, FirstEnabled, Tight;
    CodexTexts(t);
    HermesTexts(t);
    OpenclawTexts(t);
    Rosters(t);
    RereadTexts(env, t);
    var p, s := Stored(t), Reread(env, t);
    PathsAreText(env, t.hermesPath, "hermes");
    PathsAreText(env, t.openclawPath, "openclaw");
    CatalogIsTight(t.hermesModel);
    CatalogIsLowerText(t.hermesModel);
    EffortsHaveNoColon(t.hermesEffort);
    EffortIsTight(t.hermesEffort);
    EffortsHaveNoColon(t.openclawEffort);
    EffortIsTight(t.openclawEffort);
    LowerTextIsLower(env, t.hermesEffort);
    LowerTextIsLower(env, t.openclawEffort);
    OpenclawModelIsTight(env, t.openclawModel);
    ProviderTextOfStored(env, p, HermesAgentPath, s.hermesPath, "hermes", t.hermesPath);
    ProviderTextOfStored(env, p, HermesAgentModel, s.hermesModel, "gpt-5.5", t.hermesModel);
    ProviderTextOfStored(env, p, HermesAgentReasoningEffort, s.hermesEffort, "medium", t.hermesEffort);
    ProviderTextOfStored(env, p, OpenclawPath, s.openclawPath, "openclaw", t.openclawPath);
    ProviderTextOfStored(env, p, OpenclawModel, s.openclawModel, "ollama/gemma4:26b-mlx", t.openclawModel);
    ProviderTextOfStored(env, p, OpenclawReasoningEffort, s.openclawEffort, "medium", t.openclawEffort);
  }

  lemma ModesAreTight(t: Settings)
    requires t.mode == DeriveMode(t.models != [] || t.openclawEnabled, t.gptEnabled || t.hermesEnabled)
    ensures Tight(t.mode)
  {
  }

  lemma SeveritiesAreTight(s: string)
    requires s in SEVERITIES
    ensures Tight(s) && IsLowerText(s) && s != "info"
  {
  }

  lemma NormalTextsTight(env: Env, t: Settings)
    requires Normal(env, t) && Settled(t)
    ensures TextsTight(t)
  {
    hide ValidOpenclawModel, ValidCliPath, AnyEnabled, DeriveMode, UrlOk, RStripSlashes, ModelsNormal,
        FirstEnabled, Tight, RoleNormal,
      GeoipPathOk, Round4, EnabledRoutes;
    ModesAreTight(t);
    RosterEntries(t.codexModels);
    CatalogIsTight(t.codexModel);
    CatalogIsTight(t.hermesModel);
    EffortIsTight(t.codexEffort);
    EffortIsTight(t.hermesEffort);
    EffortIsTight(t.openclawEffort);
    OpenclawModelIsTight(env, t.openclawModel);
    SeveritiesAreTight(t.analysisSeverity);
    SeveritiesAreTight(t.pcapSeverity);
    SeveritiesAreTight(t.incidentSeverity);
    assert Tight("codex-cli") && Tight("") by { ConstantsAreTight(); }
  }

  lemma ConstantsAreTight()
    ensures Tight("codex-cli") && Tight("")
  {
  }

  /** The loss is printed and read back. */
  lemma LossText(env: Env, t: Settings)
    requires env.Lawful() && RestNormal(env, t)
    ensures Tight(env.TextOf(t.captureLoss))
    ensures CaptureLoss(env, Str(env.TextOf(t.captureLoss))) == Some(t.captureLoss.r)
  {
    hide Tight, Round4, GeoipPathOk, FourDecimals;
    Round4IsRound(t.captureLoss.r);
    assert env.TextOf(t.captureLoss) == env.render(Float(t.captureLoss.r));
  }

  /** The settings before the assignments, read from the document. */
  function Provisional(env: Env, t: Settings): Settings {
    var d := Defaults(env);
    t.(captureLoss := Str(env.TextOf(t.captureLoss)), primary := d.primary, reviewer := d.reviewer,
       adjudicator := d.adjudicator)
  }

  lemma ProvidedOfStored(env: Env, t: Settings)
    requires env.Lawful() && Normal(env, t) && Settled(t)
    ensures Provided(env, Stored(t)) == Some(Provisional(env, t))
  {
    hide Stored, Initial, CodexSetup, WithProviderValues, ValidOpenclawModel, ValidCliPath, AnyEnabled, DeriveMode,
        UrlOk, RStripSlashes,
      ModelsNormal, RosterNormal, FirstEnabled, Tight, AssignmentsNormal, RestNormal, ModelNames, Env.TextOf, Defaults,
      Env.Lawful, TextsTight;
    NormalTextsTight(env, t);
    LossText(env, t);
    InitialOfStored(env, t);
    SetupOfStored(env, t);
    ProviderValuesOfStored(env, t);
    Rosters(t);
    ModelNamesOfStored(env, t.models);
    NotTooManyModels(t.models);
    assert OllamaRoster(env, Stored(t), Reread(env, t)) == t.models;
  }

  lemma NotTooManyModels(models: seq<string>)
    requires ModelsNormal(models)
    ensures |Strs<Key>(models)| <= 32
  {
    hide StartsTight, NoControl;
  }

  // ----- assignments read back -----

  lemma StoredAssignment(a: Assignments, role: Role)
    ensures Get(RawAssignments(AssignmentsJson(a)), RoleMember(role), Null) == Str(At(a, role))
  {
    EveryRole(role);
    assert RoleMember(role) in ROLE_KEYS;
  }

  lemma RouteTextIsTight(env: Env, t: Settings, text: string)
    requires ProvidersNormal(env, t) && Settled(t) && text in RoutesOf(t)
    ensures Tight(text) && text != "" && |text| <= 260 && text !in {"gpt-cli", "codex-cli"}
  {
    hide ProvidersNormal, Tight, Print, Enableable, CodexRoutes;
    var r := PrintedIsEnabled(env, t, text);
    PrintedShape(env, r);
    if r.OllamaRoute? {
      OllamaRouteIsListed(t, r);
    }
  }

  lemma OllamaRouteIsListed(t: Settings, r: Route)
    requires r in EnabledRoutes(t) && r.OllamaRoute?
    ensures exists i :: 0 <= i < |t.models| && t.models[i] == r.model
  {
    if r in CodexRoutes(t.codexModels) { CodexRoutesAreCli(t.codexModels, r); }
  }

  lemma {:induction false} CodexRoutesAreCli(roster: seq<CodexEntry>, r: Route)
    requires r in CodexRoutes(roster)
    ensures r.CliRoute?
  {
    if !(roster[0].enabled && r == CliRoute(CodexCli, roster[0].model, roster[0].effort)) {
      CodexRoutesAreCli(roster[1..], r);
    }
  }

  /** A stored route is read back as itself. */
  lemma StoredRoute(env: Env, t: Settings, text: string)
    requires ProvidersNormal(env, t) && Settled(t) && (text == "" || text in RoutesOf(t))
    ensures Canonical(env, Str(text), RoutesOf(t)) == text
    ensures Identity(env, text, t.codexModel).Some?
    ensures text == "" <==> Identity(env, text, t.codexModel) == Some("")
  {
    hide ProvidersNormal, Settled, Canonical, Identity, RoutesOf, Tight;
    if text == "" {
      NoRouteIsEmpty(env, t);
      NothingIsCanonical(env, RoutesOf(t));
      NothingIdentity(env, t.codexModel);
    } else {
      RouteTextIsTight(env, t, text);
      EnabledIsCanonical(env, text, RoutesOf(t));
      var r := PrintedIsEnabled(env, t, text);
      assert ProviderName(Runs(env, r)) != "";
    }
  }

  lemma NoRouteIsEmpty(env: Env, t: Settings)
    requires ProvidersNormal(env, t)
    ensures "" !in RoutesOf(t)
  {
    hide ProvidersNormal, Print, Enableable, EnabledRoutes;
    forall i | 0 <= i < |RoutesOf(t)| ensures RoutesOf(t)[i] != "" {
      RoutesEnableable(env, t, EnabledRoutes(t)[i]);
      PrintedShape(env, EnabledRoutes(t)[i]);
    }
  }

  lemma RoleOfStored(env: Env, t: Settings, s: Settings, role: Role, p: string, r: string, a: string, rawP: Fields,
      rawR: Fields, rawA: Fields)
    requires ProvidersNormal(env, t) && Settled(t) && RoutesOf(t) != []
    requires RoleNormal(env, RoutesOf(t), p, r, a, t.codexModel)
    requires Get(rawP, RoleMember(role), Null) == Str(p) && Get(rawR, RoleMember(role), Null) == Str(r)
    requires Get(rawA, RoleMember(role), Null) == Str(a)
    ensures PrimaryFor(env, rawP, RoutesOf(t), role) == p
    ensures ReviewerFor(env, rawR, RoutesOf(t), p, t.codexModel, role) == Some(r)
    ensures AdjudicatorFor(env, rawA, RoutesOf(t), p, r, t.codexModel, role) == Some(a)
  {
    hide ProvidersNormal, Settled, Canonical, Identity, RoutesOf;
    NoRouteIsEmpty(env, t);
    StoredRoute(env, t, p);
    StoredRoute(env, t, r);
    StoredRoute(env, t, a);
  }

  lemma CollectedIs(f: Role -> Option<string>, a: Assignments)
    requires a.Keys == ROLE_SET && forall role :: role in ROLE_SET ==> f(role) == Some(a[role])
    ensures Collected(f) == Some(a)
  {
    assert a == map role | role in ROLE_SET :: f(role).value;
  }

  lemma AssignedOfStored(env: Env, t: Settings, s: Settings)
    requires ProvidersNormal(env, t) && AssignmentsNormal(env, t) && Settled(t)
    requires s == t.(captureLoss := s.captureLoss, primary := s.primary, reviewer := s.reviewer,
                     adjudicator := s.adjudicator)
    requires EnabledRoutes(s) != []
    ensures Assigned(env, Stored(t), s) == Some(t.(captureLoss := s.captureLoss))
  {
    hide ProvidersNormal, Settled, Stored, EnabledRoutes, RoleNormal, PrimaryFor, ReviewerFor, AdjudicatorFor,
        Collected, Get, RawAssignments, AssignmentsJson;
    AssignmentMembers(t);
    SameRoutes(s, t);
    var routes := RoutesOf(t);
    var rawP, rawR := RawAssignments(AssignmentsJson(t.primary)), RawAssignments(AssignmentsJson(t.reviewer));
    var rawA := RawAssignments(AssignmentsJson(t.adjudicator));
    forall role | role in ROLE_SET
      ensures PrimaryFor(env, rawP, routes, role) == t.primary[role]
      ensures ReviewerFor(env, rawR, routes, t.primary[role], t.codexModel, role) == Some(t.reviewer[role])
      ensures AdjudicatorFor(env, rawA, routes, t.primary[role], t.reviewer[role], t.codexModel, role)
              == Some(t.adjudicator[role])
    {
      StoredAssignment(t.primary, role);
      StoredAssignment(t.reviewer, role);
      StoredAssignment(t.adjudicator, role);
      RoleOfStored(env, t, s, role, t.primary[role], t.reviewer[role], t.adjudicator[role], rawP, rawR, rawA);
    }
    assert Primaries(env, AssignmentsJson(t.primary), routes) == t.primary;
    CollectedIs(role => ReviewerFor(env, rawR, routes, At(t.primary, role), t.codexModel, role), t.reviewer);
    CollectedIs(role => AdjudicatorFor(env, rawA, routes, At(t.primary, role), At(t.reviewer, role), t.codexModel,
        role), t.adjudicator);
    assert Get(Stored(t), AgentModels, Null) == AssignmentsJson(t.primary) by { StoredGets(t); }
    assert Get(Stored(t), AgentSecondOpinionModels, Null) == AssignmentsJson(t.reviewer) by { StoredGets(t); }
    assert Get(Stored(t), AgentAdjudicatorModels, Null) == AssignmentsJson(t.adjudicator) by { StoredGets(t); }
  }

  lemma StoredGets(t: Settings)
    ensures Get(Stored(t), AgentModels, Null) == AssignmentsJson(t.primary)
    ensures Get(Stored(t), AgentSecondOpinionModels, Null) == AssignmentsJson(t.reviewer)
    ensures Get(Stored(t), AgentAdjudicatorModels, Null) == AssignmentsJson(t.adjudicator)
  {
    hide Stored, AssignmentsJson;
    AssignmentMembers(t);
  }

  // ----- the rest read back -----

  lemma SeverityOfStored(env: Env, s: string)
    requires s in SEVERITIES
    ensures Severity(env, s) == Some(s)
  {
    hide Tight, Strip, Env.LowerCase;
    SeveritiesAreTight(s);
    LowerTextIsLower(env, s);
  }

  lemma FinishedOfStored(env: Env, t: Settings)
    requires env.Lawful() && ProvidersNormal(env, t) && RestNormal(env, t)
    ensures Finished(env, t.(captureLoss := Str(env.TextOf(t.captureLoss)))) == Some(t)
  {
    hide ProvidersNormal, Severity, CaptureLoss, Shortened, GeoipPathOk, Tight, Round4, Env.Lawful, Env.TextOf;
    SeverityOfStored(env, t.analysisSeverity);
    SeverityOfStored(env, t.pcapSeverity);
    SeverityOfStored(env, t.incidentSeverity);
    LossText(env, t);
    ShortenedChanges(env, t);
  }

  /** Settings in normal form whose values are stripped normalise to themselves. */
  lemma SettledIsFixed(env: Env, t: Settings)
    requires env.Lawful() && Normal(env, t) && Settled(t)
    ensures Normalize(env, StoredJson(t)) == Accepted(t)
  {
    hide Stored, Provided, Assigned, Finished, ProvidersNormal, AssignmentsNormal, RestNormal, Settled, Env.Lawful,
        EnabledRoutes, Env.TextOf, Defaults;
    ProvidedOfStored(env, t);
    ProvidedHasRoutes(env, Stored(t));
    AssignedOfStored(env, t, Provisional(env, t));
    FinishedOfStored(env, t);
  }

  // ----- when accepted settings are settled -----

  /** The names and the URL of accepted settings, traced to the payload. */
  lemma AcceptedTexts(env: Env, payload: Value)
    requires Normalize(env, payload).Accepted?
    ensures var t := Normalize(env, payload).settings;
      var p := if payload.Obj? then payload.fields else map[];
      && t.models == OllamaRoster(env, p, Initial(env, p))
      && t.ollamaUrl == Truncate(Initial(env, p).ollamaUrl, 240)
      && (t.models == [] ==> t.ollamaModel == Truncate(Initial(env, p).ollamaModel, 240))
  {
    hide Initial, OllamaRoster, CodexSetup, ProvidersOk, FirstEnabled, AnyEnabled, DeriveMode, UrlOk, ProviderText,
        Boolean, Env.LowerCase,
      Primaries, Reviewers, Adjudicators, Severity, CaptureLoss, GeoipPathOk;
    var p := if payload.Obj? then payload.fields else map[];
    ProvidedHasRoutes(env, p);
  }

  lemma {:induction false} NamesComeFromItems(env: Env, items: seq<Value>, name: string)
    requires name in ModelNames(env, items)
    ensures exists i :: 0 <= i < |items| && ModelName(env, items[i]) == name
  {
    hide ModelName, NoControl;
    var n := |items| - 1;
    if name == ModelName(env, items[n]) {
    } else {
      NamesComeFromItems(env, items[..n], name);
      var i :| 0 <= i < n && ModelName(env, items[..n][i]) == name;
      assert items[i] == items[..n][i];
    }
  }

  lemma ShortNameIsTight(env: Env, v: Value)
    requires |Strip(env.TextOf(v))| <= 240
    ensures Tight(ModelName(env, v))
  {
    hide Tight;
  }

  lemma GivenUrl(env: Env, p: Fields)
    ensures Initial(env, p).ollamaUrl == Given(env, p, OllamaUrl, env.defaultUrl)
    ensures Initial(env, p).ollamaModel == Given(env, p, OllamaModel, env.defaultModel)
  {
    hide Given;
  }

  /** Nothing in the payload, stripped, is over 240 characters, and the defaults it leaves are stripped. */
  predicate Fits(env: Env, p: Fields) {
    && (if OllamaUrl in p then |Strip(env.TextOf(p[OllamaUrl]))| <= 240
        else Tight(env.defaultUrl) && |env.defaultUrl| <= 240)
    && (if OllamaModel in p then |Strip(env.TextOf(p[OllamaModel]))| <= 240
        else Tight(env.defaultModel) && |env.defaultModel| <= 240)
    && (EnabledOllamaModels in p && p[EnabledOllamaModels].Arr? ==>
          forall v <- p[EnabledOllamaModels].items :: |Strip(env.TextOf(v))| <= 240)
    && |Strip(OrText(env, Get(p, OllamaModel, Null), Given(env, p, OllamaModel, env.defaultModel)))| <= 240
  }

  lemma {:induction false} StripAgain(s: string)
    ensures Strip(Strip(s)) == Strip(s)
  {
    hide Tight;
  }

  lemma FittingRoster(env: Env, p: Fields, i: nat)
    requires Fits(env, p) && i < |OllamaRoster(env, p, Initial(env, p))|
    ensures Tight(OllamaRoster(env, p, Initial(env, p))[i])
  {
    hide Tight, Initial, Strip, LegacyMode, ModelNames, Given, Env.TextOf;
    GivenUrl(env, p);
    NoModelNames(env);
    var s := Initial(env, p);
    var name := OllamaRoster(env, p, s)[i];
    if EnabledOllamaModels in p {
      var all := p[EnabledOllamaModels].items;
      var items := if |all| > 32 then all[..32] else all;
      NamesComeFromItems(env, items, name);
      var k :| 0 <= k < |items| && ModelName(env, items[k]) == name;
      assert items[k] == all[k];
      ShortNameIsTight(env, items[k]);
    } else {
      var legacy := Strip(OrText(env, Get(p, OllamaModel, Null), s.ollamaModel));
      NamesComeFromItems(env, [Str(legacy)], name);
      assert env.TextOf(Str(legacy)) == legacy by { PlainText(env, legacy); }
      StripAgain(OrText(env, Get(p, OllamaModel, Null), s.ollamaModel));
      ShortNameIsTight(env, Str(legacy));
    }
  }

  lemma PlainText(env: Env, s: string)
    ensures env.TextOf(Str(s)) == s
  {
  }

  /** An accepted payload whose names and URL fit in 240 characters gives settled settings. */
  lemma FittingIsSettled(env: Env, payload: Value)
    requires Normalize(env, payload).Accepted? && Fits(env, if payload.Obj? then payload.fields else map[])
    ensures Settled(Normalize(env, payload).settings)
  {
    hide Normalize, Tight, Initial, Strip, OllamaRoster, Env.TextOf, Normal, Get, OrText;
    var p := if payload.Obj? then payload.fields else map[];
    AcceptedTexts(env, payload);
    GivenUrl(env, p);
    var t := Normalize(env, payload).settings;
    forall i | 0 <= i < |t.models| ensures Tight(t.models[i]) { FittingRoster(env, p, i); }
    AcceptedIsNormal(env, payload);
    FirstModelIsTheModel(env, t);
  }

  lemma FirstModelIsTheModel(env: Env, t: Settings)
    requires Normal(env, t)
    ensures t.models != [] ==> t.ollamaModel == t.models[0]
    ensures |t.ollamaUrl| <= 240 && |t.ollamaModel| <= 240 && ModelsNormal(t.models)
  {
    hide AssignmentsNormal, ModelsNormal, GeoipPathOk, Round4;
  }

  /** The document of the settings, read again, gives only stripped names. */
  lemma RereadIsSettled(env: Env, t: Settings)
    requires |t.ollamaUrl| <= 240 && |t.ollamaModel| <= 240 && forall i :: 0 <= i < |t.models| ==> |t.models[i]| <= 240
    requires Normalize(env, StoredJson(t)).Accepted?
    ensures Settled(Normalize(env, StoredJson(t)).settings)
  {
    hide Normalize, Stored, Strip, Tight;
    GeneralTexts(t);
    Rosters(t);
    forall v | v in Strs(t.models) ensures |Strip(env.TextOf(v))| <= 240 {}
    assert Fits(env, Stored(t));
    FittingIsSettled(env, StoredJson(t));
  }

  /** Normalising accepted settings again returns them unchanged exactly when no name and no URL was cut
      just after a blank. */
  lemma FixedExactlyWhenSettled(env: Env, payload: Value)
    requires env.Lawful() && Normalize(env, payload).Accepted?
    ensures var t := Normalize(env, payload).settings;
      Normalize(env, StoredJson(t)) == Accepted(t) <==> Settled(t)
  {
    hide Normalize, Normal, Settled, Env.Lawful;
    AcceptedIsNormal(env, payload);
    var t := Normalize(env, payload).settings;
    FirstModelIsTheModel(env, t);
    if Settled(t) {
      SettledIsFixed(env, t);
    } else if Normalize(env, StoredJson(t)).Accepted? {
      RereadIsSettled(env, t);
    }
  }

  /** For every accepted payload whose names and URL fit, normalising the result changes nothing. */
  lemma FittingIsFixed(env: Env, payload: Value)
    requires env.Lawful() && Normalize(env, payload).Accepted?
    requires Fits(env, if payload.Obj? then payload.fields else map[])
    ensures Normalize(env, StoredJson(Normalize(env, payload).settings)) == Normalize(env, payload)
  {
    hide Normalize, Fits, Settled, Env.Lawful;
    FittingIsSettled(env, payload);
    FixedExactlyWhenSettled(env, payload);
  }
}
