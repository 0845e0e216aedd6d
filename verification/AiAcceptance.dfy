/** Which requests the AI settings accept: the exact condition on a payload. */
module AiAcceptance {
  import opened Prelude
  import opened Values
  import opened AiRoutes
  import opened AiSettings
  import opened AiNormal
  import opened AiPayload
  import opened AiForms

  const EFFORT_NAMES := {"low", "medium", "high", "xhigh"}
  const MODEL_NAMES := {"gpt-5.5", "gpt-5.6-sol", "gpt-5.6-terra", "gpt-5.6-luna"}

  lemma NamesAre(text: string)
    ensures text in EFFORTS <==> text in EFFORT_NAMES
    ensures text in CATALOG <==> text in MODEL_NAMES
  {
    CatalogIs(text);
  }

  // ----- the Codex roster -----

  /** At most one row for each model, all of them known, each with a known effort. */
  predicate ProperItems(env: Env, items: seq<Value>) {
    && (forall i :: 0 <= i < |items| ==>
          && items[i].Obj? && RowModel(env, items[i]) in MODEL_NAMES
          && RowOf(env, items[i]).effort in EFFORT_NAMES)
    && forall i, j :: 0 <= i < j < |items| && items[i].Obj? && items[j].Obj? ==>
         RowModel(env, items[i]) != RowModel(env, items[j])
  }

  lemma RowTaken(env: Env, item: Value, configured: map<string, CodexEntry>)
    ensures CodexRow(env, item, configured).Some? <==>
      && item.Obj? && RowModel(env, item) in MODEL_NAMES && RowOf(env, item).effort in EFFORT_NAMES
      && RowModel(env, item) !in configured
  {
    if item.Obj? {
      RowTexts(env, item.fields);
      NamesAre(RowModel(env, item));
      NamesAre(RowOf(env, item).effort);
    }
    hide Strip, Env.LowerCase, Env.TextOf, OrText, Boolean, FlagOf, MemberText, FilledText, CATALOG, EFFORTS, Get,
      EFFORT_NAMES, MODEL_NAMES;
  }

  lemma ProperItemsStep(env: Env, items: seq<Value>, configured: map<string, CodexEntry>)
    requires items != []
    requires Configures(env, items[..|items| - 1], configured) && ProperItems(env, items[..|items| - 1])
    ensures var n := |items| - 1;
      ProperItems(env, items) <==>
        && items[n].Obj? && RowModel(env, items[n]) in MODEL_NAMES && RowOf(env, items[n]).effort in EFFORT_NAMES
        && RowModel(env, items[n]) !in configured
  {
    hide RowModel, RowOf, MODEL_NAMES, EFFORT_NAMES;
    var n := |items| - 1;
    assert forall i :: 0 <= i < n ==> items[..n][i] == items[i];
    if items[n].Obj? && RowModel(env, items[n]) in configured {
      var i :| 0 <= i < n && items[..n][i].Obj? && RowModel(env, items[..n][i]) == RowModel(env, items[n]);
      assert items[i].Obj?;
    }
  }

  lemma {:induction false} RowsTaken(env: Env, items: seq<Value>)
    ensures CodexRows(env, items).Some? <==> ProperItems(env, items)
  {
    if items != [] {
      var n := |items| - 1;
      RowsTaken(env, items[..n]);
      hide CodexRow, RowModel, RowOf, MODEL_NAMES, EFFORT_NAMES;
      assert forall i :: 0 <= i < n ==> items[..n][i] == items[i];
      if ProperItems(env, items[..n]) {
        RowsAreItems(env, items[..n]);
        RowTaken(env, items[n], CodexRows(env, items[..n]).value);
        ProperItemsStep(env, items, CodexRows(env, items[..n]).value);
      }
    }
  }

  /** What the Codex members must be; the old single model and effort are checked even beside a roster. */
  predicate ProperCodex(env: Env, p: Fields) {
    var given := MemberText(env, p, CodexCliPath, "codex");
    var items := RosterItems(env, p);
    && ProgramPath(env, if given == "" then "codex" else given, "codex")
    && Usable(OldCodexModel(env, p)) && |OldCodexModel(env, p)| <= 240
    && OldCodexEffort(env, p) in EFFORT_NAMES
    && |items| <= 4 && ProperItems(env, items)
  }

  lemma SetupTaken(env: Env, p: Fields, s: Settings)
    ensures var effort := env.LowerCase(Strip(if s.codexEffort != "" then s.codexEffort else "medium"));
      var model := CodexModelGiven(env, p, s);
      var single := CodexEntry(model, effort, LegacyGpt(env, p, s));
      var items := if CodexCliModels in p && p[CodexCliModels].Arr? then p[CodexCliModels].items
                   else [EntryJson(single)];
      CodexSetup(env, p, s).Some? <==>
        && ValidCliPath(env, Strip(if s.codexPath != "" then s.codexPath else "codex"), "codex")
        && ValidProviderModel(model) && effort in EFFORTS
        && |items| <= |CATALOG| && CodexRows(env, items).Some?
  {
    hide CodexModelGiven, ValidCliPath, ValidProviderModel, LegacyGpt, CodexRows, CompleteCatalog, EFFORTS, CATALOG,
      Env.LowerCase, Strip, EntryJson;
  }

  lemma CodexTaken(env: Env, p: Fields)
    ensures CodexSetup(env, p, Initial(env, p)).Some? <==> ProperCodex(env, p)
  {
    assert |CATALOG| == 4;
    hide CodexSetup, Initial, CodexModelGiven, LegacyGpt, CodexRows, OldCodexModel, OldCodexEffort, OldCodexFlag,
      Env.LowerCase, MemberText, Strip, Tight, EntryJson, CATALOG, EFFORTS, EFFORT_NAMES, ValidCliPath, ProgramPath,
      ProperItems, Usable, NoControl;
    OldFlagReads(env, p);
    OldModelReads(env, p);
    OldEffortReads(env, p);
    OldCodexGiven(env, p);
    DefaultsAreTight();
    MemberIsTight(env, p, CodexCliPath, "codex");
    SetupTaken(env, p, Initial(env, p));
    RowsTaken(env, RosterItems(env, p));
    UsableName(OldCodexModel(env, p));
    NamesAre(OldCodexEffort(env, p));
    var given := MemberText(env, p, CodexCliPath, "codex");
    PathsAreProper(env, if given == "" then "codex" else given, "codex");
  }

  // ----- Hermes, OpenClaw and the local models -----

  predicate ProperHarnessMembers(env: Env, p: Fields) {
    && ProgramPath(env, FilledText(env, p, HermesAgentPath, "hermes"), "hermes")
    && FilledText(env, p, HermesAgentModel, "gpt-5.5") in MODEL_NAMES
    && env.LowerCase(FilledText(env, p, HermesAgentReasoningEffort, "medium")) == "medium"
    && ProgramPath(env, FilledText(env, p, OpenclawPath, "openclaw"), "openclaw")
    && LocalModelName(env, FilledText(env, p, OpenclawModel, "ollama/gemma4:26b-mlx"))
    && env.LowerCase(FilledText(env, p, OpenclawReasoningEffort, "medium")) in EFFORT_NAMES
    && (FlagOf(env, p, OpenclawEnabled) ==> Loopback(MemberText(env, p, OllamaUrl, env.defaultUrl)))
  }

  lemma FilledIsTight(env: Env, p: Fields, key: Key, default: string)
    requires Tight(default)
    ensures Tight(FilledText(env, p, key, default))
  {
    hide Tight, Strip;
  }

  lemma HarnessesTaken(env: Env, p: Fields)
    ensures ProvidersOk(env, WithProviderValues(env, p, Initial(env, p))) <==> ProperHarnessMembers(env, p)
  {
    hide Initial, WithProviderValues, FilledText, MemberText, FlagOf, Env.LowerCase, Tight, ProgramPath, ValidCliPath,
      LocalModelName, ValidOpenclawModel, Loopback, RStripSlashes, LOOPBACK_URLS, CATALOG, EFFORTS, MODEL_NAMES,
      EFFORT_NAMES;
    var v := WithProviderValues(env, p, Initial(env, p));
    HarnessesGiven(env, p);
    HarnessFlags(env, p, Initial(env, p));
    GivenAddress(env, p);
    DefaultsAreTight();
    FilledIsTight(env, p, HermesAgentPath, "hermes");
    FilledIsTight(env, p, OpenclawPath, "openclaw");
    PathsAreProper(env, v.hermesPath, "hermes");
    PathsAreProper(env, v.openclawPath, "openclaw");
    LocalNamesAreProper(env, v.openclawModel);
    NamesAre(v.hermesModel);
    NamesAre(v.openclawEffort);
    LoopbackExactly(v.ollamaUrl);
  }

  lemma GivenAddress(env: Env, p: Fields)
    ensures Initial(env, p).ollamaUrl == MemberText(env, p, OllamaUrl, env.defaultUrl)
    ensures WithProviderValues(env, p, Initial(env, p)).ollamaUrl == Initial(env, p).ollamaUrl
  {
    hide Strip, Env.TextOf, ProviderText, Boolean, Env.LowerCase;
  }

  predicate SomeLocalModel(env: Env, p: Fields) {
    if EnabledOllamaModels in p then
      && p[EnabledOllamaModels].Arr?
      && exists i :: 0 <= i < |p[EnabledOllamaModels].items| && i < 32
                     && Usable(NameOf(env, p[EnabledOllamaModels].items[i]))
    else OldMode(env, p) != "cloud" && Usable(Truncate(OldLocalModel(env, p), 240))
  }

  lemma SomeModelGiven(env: Env, p: Fields)
    ensures OllamaRoster(env, p, Initial(env, p)) != [] <==> SomeLocalModel(env, p)
  {
    OldModeReads(env, p);
    GivenModel(env, p);
    var models := OllamaRoster(env, p, Initial(env, p));
    forall name
      ensures name in models <==>
        if EnabledOllamaModels in p then
          && p[EnabledOllamaModels].Arr? && Usable(name)
          && exists i :: 0 <= i < |p[EnabledOllamaModels].items| && i < 32
                         && NameOf(env, p[EnabledOllamaModels].items[i]) == name
        else
          && OldMode(env, p) != "cloud" && Usable(name) && name == Truncate(OldLocalModel(env, p), 240)
    {
      RosterNames(env, p, Initial(env, p), name);
    }
    hide Initial, OllamaRoster, OldMode, Usable, NameOf, OldLocalModel, Truncate;
    if models != [] { assert models[0] in models; }
  }

  predicate SomeRowOn(env: Env, items: seq<Value>) {
    exists i :: 0 <= i < |items| && items[i].Obj? && FlagOf(env, items[i].fields, Enabled)
  }

  lemma RowFlags(env: Env, items: seq<Value>, configured: map<string, CodexEntry>, n: nat)
    requires Configures(env, items, configured) && n < |CATALOG|
    ensures CompleteCatalog(configured)[n].enabled <==>
      exists i :: 0 <= i < |items| && items[i].Obj? && RowModel(env, items[i]) == CATALOG[n]
                  && FlagOf(env, items[i].fields, Enabled)
  {
    hide RowModel, FlagOf, CATALOG;
    if CATALOG[n] in configured {
      var i :| 0 <= i < |items| && items[i].Obj? && RowModel(env, items[i]) == CATALOG[n];
      assert configured[CATALOG[n]] == RowOf(env, items[i]);
    }
  }

  lemma SomeRowEnabled(env: Env, items: seq<Value>)
    requires CodexRows(env, items).Some?
    ensures AnyEnabled(CompleteCatalog(CodexRows(env, items).value)) <==> SomeRowOn(env, items)
  {
    RowsTaken(env, items);
    RowsAreItems(env, items);
    var configured := CodexRows(env, items).value;
    var roster := CompleteCatalog(configured);
    forall n | 0 <= n < |roster|
      ensures roster[n].enabled ==> SomeRowOn(env, items)
    {
      hide CodexRows, RowModel, FlagOf, CATALOG, Configures;
      RowFlags(env, items, configured, n);
    }
    if SomeRowOn(env, items) {
      hide CodexRows, RowModel, FlagOf, CompleteCatalog, Configures;
      var i :| 0 <= i < |items| && items[i].Obj? && FlagOf(env, items[i].fields, Enabled);
      NamesAre(RowModel(env, items[i]));
      var n :| 0 <= n < |CATALOG| && CATALOG[n] == RowModel(env, items[i]);
      RowFlags(env, items, configured, n);
      assert roster[n] in roster;
    }
  }

  // ----- the payload -----

  /** The members that name providers are in order, and some route is enabled. */
  predicate Providable(env: Env, p: Fields) {
    var url := MemberText(env, p, OllamaUrl, env.defaultUrl);
    && ("http://" <= url || "https://" <= url)
    && ProperCodex(env, p) && ProperHarnessMembers(env, p)
    && (|| SomeLocalModel(env, p) || SomeRowOn(env, RosterItems(env, p))
        || FlagOf(env, p, HermesAgentEnabled) || FlagOf(env, p, OpenclawEnabled))
  }

  lemma ProvidedParts(env: Env, p: Fields, s: Settings)
    requires s == Initial(env, p)
    ensures Provided(env, p).Some? <==>
      && UrlOk(s.ollamaUrl) && CodexSetup(env, p, s).Some? && ProvidersOk(env, WithProviderValues(env, p, s))
      && (|| OllamaRoster(env, p, s) != [] || AnyEnabled(CodexSetup(env, p, s).value.1)
          || WithProviderValues(env, p, s).hermesEnabled || WithProviderValues(env, p, s).openclawEnabled)
  {
    hide Initial, CodexSetup, ProvidersOk, WithProviderValues, WithProviders, OllamaRoster, AnyEnabled, UrlOk;
  }

  lemma ProvidersTaken(env: Env, p: Fields)
    ensures Provided(env, p).Some? <==> Providable(env, p)
  {
    hide Provided, Initial, CodexSetup, ProvidersOk, WithProviderValues, OllamaRoster, AnyEnabled, CompleteCatalog,
      CodexRows, RosterItems, ProperCodex, ProperHarnessMembers, SomeLocalModel, SomeRowOn, FlagOf, MemberText;
    var s := Initial(env, p);
    CodexTaken(env, p);
    HarnessesTaken(env, p);
    SomeModelGiven(env, p);
    GivenAddress(env, p);
    HarnessFlags(env, p, s);
    if CodexSetup(env, p, s).Some? {
      SetupFrom(env, p);
      SomeRowEnabled(env, RosterItems(env, p));
    }
    ProvidedParts(env, p, s);
  }

  /** The old single database path stands for the city's. */
  function CityPathGiven(env: Env, p: Fields): string {
    if GeoipCityPath !in p && GeoipDbPath in p && p[GeoipDbPath] != Null then MemberText(env, p, GeoipDbPath, "")
    else MemberText(env, p, GeoipCityPath, CITY_PATH)
  }

  /** Severities, threshold and database paths are in order. */
  predicate Governable(env: Env, p: Fields) {
    && KnownSeverity(SeverityGiven(env, p, AnalysisMinSeverity, "informational"))
    && KnownSeverity(SeverityGiven(env, p, PcapMinSeverity, "informational"))
    && KnownSeverity(SeverityGiven(env, p, IncidentMinSeverity, "disabled"))
    && (CaptureLossThreshold in p ==>
          var loss := env.parseFloat(MemberText(env, p, CaptureLossThreshold, ""));
          loss.Some? && 0.1 <= loss.value <= 100.0)
    && DatabasePath(env, MemberText(env, p, GeoipAsnPath, ASN_PATH))
    && DatabasePath(env, MemberText(env, p, GeoipCountryPath, COUNTRY_PATH))
    && DatabasePath(env, CityPathGiven(env, p))
  }

  lemma LossTaken(env: Env, p: Fields, v: Value)
    requires v == if CaptureLossThreshold in p then Str(MemberText(env, p, CaptureLossThreshold, "")) else Float(5.0)
    ensures CaptureLoss(env, v).Some? <==>
      (CaptureLossThreshold in p ==>
         var loss := env.parseFloat(MemberText(env, p, CaptureLossThreshold, ""));
         loss.Some? && 0.1 <= loss.value <= 100.0)
  {
    hide MemberText, Round4;
  }

  lemma FinishedParts(env: Env, s: Settings)
    ensures Finished(env, s).Some? <==>
      && Severity(env, s.analysisSeverity).Some? && Severity(env, s.pcapSeverity).Some?
      && Severity(env, s.incidentSeverity).Some? && CaptureLoss(env, s.captureLoss).Some?
      && GeoipPathOk(env, s.asnPath) && GeoipPathOk(env, s.cityPath) && GeoipPathOk(env, s.countryPath)
  {
    hide Severity, CaptureLoss, GeoipPathOk, Shortened;
  }

  lemma PolicyTaken(env: Env, p: Fields, s: Settings)
    requires SamePolicy(Initial(env, p), s)
    ensures Finished(env, s).Some? <==> Governable(env, p)
  {
    hide Finished, Initial, Severity, SeverityGiven, CaptureLoss, GeoipPathOk, DatabasePath, MemberText, Tight,
      ASN_PATH, CITY_PATH, COUNTRY_PATH;
    PolicyGiven(env, p);
    InitialPathsTight(env, p);
    SeverityReads(env, p, AnalysisMinSeverity, "informational");
    SeverityReads(env, p, PcapMinSeverity, "informational");
    SeverityReads(env, p, IncidentMinSeverity, "disabled");
    LossTaken(env, p, s.captureLoss);
    DatabasesAreProper(env, s.asnPath);
    DatabasesAreProper(env, s.cityPath);
    DatabasesAreProper(env, s.countryPath);
    FinishedParts(env, s);
  }

  predicate SamePolicy(s: Settings, t: Settings) {
    && t.analysisSeverity == s.analysisSeverity && t.pcapSeverity == s.pcapSeverity
    && t.incidentSeverity == s.incidentSeverity && t.captureLoss == s.captureLoss
    && t.asnPath == s.asnPath && t.cityPath == s.cityPath && t.countryPath == s.countryPath
  }

  lemma PolicyIsKept(env: Env, p: Fields, s: Settings)
    requires Provided(env, p) == Some(s) && EnabledRoutes(s) != [] && Assigned(env, p, s).Some?
    ensures SamePolicy(Initial(env, p), Assigned(env, p, s).value)
  {
    hide Provided, Initial, EnabledRoutes, Primaries, Reviewers, Adjudicators;
    ProvidedFrom(env, p);
  }

  /** A payload is accepted exactly when its providers and its policy are in order and no route raises; a route
      raises only where the providers are. */
  lemma AcceptedExactly(env: Env, p: Fields)
    ensures Normalize(env, Obj(p)).Raised? ==> Providable(env, p)
    ensures Normalize(env, Obj(p)).Accepted?
            <==> Providable(env, p) && Governable(env, p) && !Normalize(env, Obj(p)).Raised?
  {
    hide Provided, Assigned, Finished, Providable, Governable, EnabledRoutes, SamePolicy, Initial;
    ProvidersTaken(env, p);
    ProvidedHasRoutes(env, p);
    if Provided(env, p).Some? {
      var s := Provided(env, p).value;
      if Assigned(env, p, s).Some? {
        PolicyIsKept(env, p, s);
        PolicyTaken(env, p, Assigned(env, p, s).value);
      }
    }
  }
}
