/** Where normalising the AI settings fails its promise, exactly and at concrete payloads. */
module AiFailures {
  import opened Prelude
  import opened Values
  import opened AiRoutes
  import opened AiSettings
  import opened AiNormal
  import opened AiFixed

  // ----- the routes that raise -----

  lemma RaisedMeansUnassigned(env: Env, p: Fields)
    requires Provided(env, p).Some?
    ensures EnabledRoutes(Provided(env, p).value) != []
    ensures Normalize(env, Obj(p)).Raised? <==> Assigned(env, p, Provided(env, p).value).None?
  {
    hide Provided, EnabledRoutes, Finished, Assigned;
    ProvidedHasRoutes(env, p);
  }

  lemma UnassignedMeansMalformed(env: Env, p: Fields, s: Settings)
    requires ProvidersNormal(env, s) && EnabledRoutes(s) != []
    ensures Assigned(env, p, s).None? <==>
      exists role: Role :: MalformedIn(env, Get(p, AgentSecondOpinionModels, Null), RoutesOf(s), role)
                        || MalformedIn(env, Get(p, AgentAdjudicatorModels, Null), RoutesOf(s), role)
  {
    hide EnabledRoutes, MalformedIn, Primaries, Reviewers, Adjudicators, ProvidersNormal, At;
    var routes := RoutesOf(s);
    var primary := Primaries(env, Get(p, AgentModels, Null), routes);
    var vR, vA := Get(p, AgentSecondOpinionModels, Null), Get(p, AgentAdjudicatorModels, Null);
    forall role ensures At(primary, role) in routes {
      PrimariesAreEnabled(env, Get(p, AgentModels, Null), routes, role);
    }
    ReviewersRaise(env, s, vR, primary);
    var reviewer := Reviewers(env, vR, routes, primary, s.codexModel);
    if reviewer.Some? {
      forall role ensures At(reviewer.value, role) == "" || At(reviewer.value, role) in routes {
        ReviewersAreEnabled(env, s, vR, primary, role);
      }
      AdjudicatorsRaise(env, s, vA, primary, reviewer.value);
    }
  }

  /** Normalisation raises exactly when the providers are valid and some reviewer or adjudicator route,
      in canonical form, has a harness prefix followed by text without a colon. */
  lemma RaisesExactlyOnMalformedRoutes(env: Env, p: Fields)
    requires Provided(env, p).Some?
    ensures var routes := RoutesOf(Provided(env, p).value);
      Normalize(env, Obj(p)).Raised? <==>
        exists role: Role :: MalformedIn(env, Get(p, AgentSecondOpinionModels, Null), routes, role)
                          || MalformedIn(env, Get(p, AgentAdjudicatorModels, Null), routes, role)
  {
    hide Provided, Normalize, Assigned, EnabledRoutes, MalformedIn, ProvidersNormal;
    RaisedMeansUnassigned(env, p);
    ProvidedNormal(env, p);
    UnassignedMeansMalformed(env, p, Provided(env, p).value);
  }

  /** The canonical form of a role's stored route is malformed. */
  predicate MalformedIn(env: Env, v: Value, routes: seq<string>, role: Role) {
    Malformed(env.LowerCase(Strip(Canonical(env, Get(RawAssignments(v), RoleMember(role), Null), routes))))
  }

  lemma PrimariesAreEnabled(env: Env, v: Value, routes: seq<string>, role: Role)
    requires routes != []
    ensures At(Primaries(env, v, routes), role) in routes
  {
    hide Canonical;
    EveryRole(role);
  }

  lemma EnabledIdentity(env: Env, s: Settings, text: string)
    requires ProvidersNormal(env, s) && (text == "" || text in RoutesOf(s))
    ensures Identity(env, text, s.codexModel).Some?
  {
    hide ProvidersNormal, RoutesOf, Identity;
    if text == "" { NothingIdentity(env, s.codexModel); } else { var r := PrintedIsEnabled(env, s, text); }
  }

  lemma IdentityRaises(env: Env, text: string, codexModel: string)
    ensures Identity(env, text, codexModel).None? <==> Malformed(env.LowerCase(Strip(text)))
  {
    hide Malformed, ParseCli, Strip, Env.LowerCase, CliIdentity;
  }

  lemma CollectedNone(f: Role -> Option<string>)
    ensures Collected(f).None? <==> exists role: Role :: f(role).None?
  {
    forall role: Role ensures role in ROLE_SET { EveryRole(role); }
  }

  lemma ReviewerRaises(env: Env, s: Settings, v: Value, primary: string, role: Role)
    requires ProvidersNormal(env, s) && primary in RoutesOf(s)
    ensures ReviewerFor(env, RawAssignments(v), RoutesOf(s), primary, s.codexModel, role).None?
            <==> MalformedIn(env, v, RoutesOf(s), role)
  {
    hide ProvidersNormal, RoutesOf, Canonical, Malformed, Identity, Strip, RawAssignments, Env.LowerCase;
    EnabledIdentity(env, s, primary);
    IdentityRaises(env, Canonical(env, Get(RawAssignments(v), RoleMember(role), Null), RoutesOf(s)), s.codexModel);
  }

  lemma AdjudicatorRaises(env: Env, s: Settings, v: Value, primary: string, reviewer: string, role: Role)
    requires ProvidersNormal(env, s) && primary in RoutesOf(s) && (reviewer == "" || reviewer in RoutesOf(s))
    ensures AdjudicatorFor(env, RawAssignments(v), RoutesOf(s), primary, reviewer, s.codexModel, role).None?
            <==> MalformedIn(env, v, RoutesOf(s), role)
  {
    hide ProvidersNormal, RoutesOf, Canonical, Malformed, Identity, Strip, RawAssignments, Env.LowerCase;
    EnabledIdentity(env, s, primary);
    EnabledIdentity(env, s, reviewer);
    IdentityRaises(env, Canonical(env, Get(RawAssignments(v), RoleMember(role), Null), RoutesOf(s)), s.codexModel);
  }

  lemma ReviewersRaise(env: Env, s: Settings, v: Value, primary: Assignments)
    requires ProvidersNormal(env, s) && forall role :: At(primary, role) in RoutesOf(s)
    ensures Reviewers(env, v, RoutesOf(s), primary, s.codexModel).None?
            <==> exists role: Role :: MalformedIn(env, v, RoutesOf(s), role)
  {
    hide ProvidersNormal, RoutesOf, Collected, ReviewerFor, MalformedIn, At, RawAssignments;
    var f := role => ReviewerFor(env, RawAssignments(v), RoutesOf(s), At(primary, role), s.codexModel, role);
    forall role: Role ensures f(role).None? <==> MalformedIn(env, v, RoutesOf(s), role) {
      ReviewerRaises(env, s, v, At(primary, role), role);
    }
    CollectedNone(f);
  }

  lemma ReviewersAreEnabled(env: Env, s: Settings, v: Value, primary: Assignments, role: Role)
    requires Reviewers(env, v, RoutesOf(s), primary, s.codexModel).Some?
    ensures var text := At(Reviewers(env, v, RoutesOf(s), primary, s.codexModel).value, role);
      text == "" || text in RoutesOf(s)
  {
    hide RoutesOf, Canonical, Identity, RawAssignments, Collected;
    EveryRole(role);
    CollectedAt(role => ReviewerFor(env, RawAssignments(v), RoutesOf(s), At(primary, role), s.codexModel, role), role);
  }

  lemma AdjudicatorsRaise(env: Env, s: Settings, v: Value, primary: Assignments, reviewer: Assignments)
    requires ProvidersNormal(env, s) && forall role :: At(primary, role) in RoutesOf(s)
    requires forall role :: At(reviewer, role) == "" || At(reviewer, role) in RoutesOf(s)
    ensures Adjudicators(env, v, RoutesOf(s), primary, reviewer, s.codexModel).None?
            <==> exists role: Role :: MalformedIn(env, v, RoutesOf(s), role)
  {
    hide ProvidersNormal, RoutesOf, Collected, AdjudicatorFor, MalformedIn, At, RawAssignments;
    var f := role => AdjudicatorFor(env, RawAssignments(v), RoutesOf(s), At(primary, role), At(reviewer, role),
                                    s.codexModel, role);
    forall role: Role ensures f(role).None? <==> MalformedIn(env, v, RoutesOf(s), role) {
      AdjudicatorRaises(env, s, v, At(primary, role), At(reviewer, role), role);
    }
    CollectedNone(f);
  }

  // ----- concrete payloads -----

  /** Payloads that leave everything but the roster and the reviewers to the defaults. */
  predicate MostlyDefault(p: Fields) {
    p.Keys <= {EnabledOllamaModels, AgentSecondOpinionModels}
  }

  lemma DefaultsAreInitial(p: Fields)
    requires MostlyDefault(p)
    ensures Initial(MARKS_ENV, p) == Defaults(MARKS_ENV)
  {
    hide Strip, Env.TextOf;
  }

  lemma CommandIsPath(name: string)
    requires name in {"codex", "hermes", "openclaw"}
    ensures ValidCliPath(MARKS_ENV, name, name) && Tight(name)
  {
    assert name == "codex" || name == "hermes" || name == "openclaw";
    assert name[0] != '/' && 5 <= |name| <= 8;
  }

  const DEFAULT_CODEX := CodexEntry("gpt-5.5", "medium", false)

  lemma DefaultCatalog(p: Fields)
    requires MostlyDefault(p)
    ensures CodexCatalog(MARKS_ENV, Get(p, CodexCliModels, Null), DEFAULT_CODEX).Some?
  {
    hide CodexRow, EntryJson, CompleteCatalog;
    var entries := [EntryJson(DEFAULT_CODEX)];
    assert CATALOG[0] == DEFAULT_CODEX.model;
    StoredRow(MARKS_ENV, DEFAULT_CODEX, map[]);
    assert entries[..0] == [];
    assert CodexRows(MARKS_ENV, []) == Some(map[]);
    assert CodexRows(MARKS_ENV, entries).Some?;
  }

  lemma DefaultCodexSetup(p: Fields)
    requires MostlyDefault(p)
    ensures CodexSetup(MARKS_ENV, p, Defaults(MARKS_ENV)).Some?
  {
    hide Strip, CodexCatalog, Env.LowerCase, ValidCliPath, ValidProviderModel, Tight;
    var d := Defaults(MARKS_ENV);
    CommandIsPath("codex");
    assert CATALOG[0] == "gpt-5.5";
    CatalogIsTight("gpt-5.5");
    CatalogModelIsProviderModel("gpt-5.5");
    EffortIsTight("medium");
    EffortsHaveNoColon("medium");
    LowerTextIsLower(MARKS_ENV, "medium");
    DefaultModeIsOllama(p);
    DefaultCatalog(p);
    assert CodexModelGiven(MARKS_ENV, p, d) == "gpt-5.5";
    assert !LegacyGpt(MARKS_ENV, p, d);
  }

  lemma DefaultModeIsOllama(p: Fields)
    requires MostlyDefault(p)
    ensures LegacyMode(MARKS_ENV, p, Defaults(MARKS_ENV)) == "ollama"
  {
    hide Strip, Env.LowerCase;
    var mode := "ollama";
    assert Tight(mode);
    LowerTextIsLower(MARKS_ENV, mode);
  }

  lemma DefaultOpenclawModel()
    ensures ValidOpenclawModel(MARKS_ENV, "ollama/gemma4:26b-mlx") && Tight("ollama/gemma4:26b-mlx")
  {
    hide Env.LowerCase;
    var s := "ollama/gemma4:26b-mlx";
    assert IsLowerText(s);
    LowerTextIsLower(MARKS_ENV, s);
    assert |s| == 21 && s[..7] == "ollama/";
    forall i | 1 <= i < |s| ensures IsModelChar(s[i]) {}
  }

  lemma GivenProviderText(p: Fields, key: Key, s: string, fallback: string)
    requires key !in p && s != "" && Tight(s)
    ensures ProviderText(MARKS_ENV, p, key, s, fallback) == s
  {
    hide Tight;
    PlainText(MARKS_ENV, s);
  }

  lemma DefaultProviders(p: Fields)
    requires MostlyDefault(p)
    ensures ProvidersOk(MARKS_ENV, WithProviderValues(MARKS_ENV, p, Defaults(MARKS_ENV)))
  {
    hide ProviderText, Env.LowerCase, ValidCliPath, ValidOpenclawModel, Tight;
    var d := Defaults(MARKS_ENV);
    CommandIsPath("hermes");
    CommandIsPath("openclaw");
    DefaultOpenclawModel();
    assert CATALOG[0] == "gpt-5.5";
    CatalogIsTight("gpt-5.5");
    EffortIsTight("medium");
    EffortsHaveNoColon("medium");
    LowerTextIsLower(MARKS_ENV, "medium");
    GivenProviderText(p, HermesAgentPath, "hermes", "hermes");
    GivenProviderText(p, HermesAgentModel, "gpt-5.5", "gpt-5.5");
    GivenProviderText(p, HermesAgentReasoningEffort, "medium", "medium");
    GivenProviderText(p, OpenclawPath, "openclaw", "openclaw");
    GivenProviderText(p, OpenclawModel, "ollama/gemma4:26b-mlx", "ollama/gemma4:26b-mlx");
    GivenProviderText(p, OpenclawReasoningEffort, "medium", "medium");
  }

  /** With some model in the roster the provider phases accept such a payload. */
  lemma DefaultsProvide(p: Fields)
    requires MostlyDefault(p) && OllamaRoster(MARKS_ENV, p, Defaults(MARKS_ENV)) != []
    ensures Provided(MARKS_ENV, p).Some?
  {
    hide Initial, OllamaRoster, CodexSetup, WithProviderValues, ProvidersOk, WithProviders;
    DefaultsAreInitial(p);
    DefaultCodexSetup(p);
    DefaultProviders(p);
    assert UrlOk("http://h");
  }

  const EFFORTLESS := "codex-cli:x"

  lemma EffortlessIsMalformed()
    ensures Tight(EFFORTLESS) && Malformed(MARKS_ENV.LowerCase(Strip(EFFORTLESS)))
    ensures StartsWith(EFFORTLESS, Prefix(CodexCli)) && ':' !in EFFORTLESS[|Prefix(CodexCli)|..]
    ensures |EFFORTLESS| == 11 && EFFORTLESS !in {"gpt-cli", "codex-cli"}
  {
    hide Strip, Lower;
    var s := EFFORTLESS;
    assert Tight(s);
    LowerTextIsLower(MARKS_ENV, s);
    PrefixDecides(CodexCli, "x");
    assert Prefix(CodexCli) + "x" == s;
    assert ':' !in "x";
  }

  /** A Codex text without an effort, not enabled, stays as it is. */
  lemma EffortlessIsCanonical(env: Env, s: string, routes: seq<string>)
    requires Tight(s) && |s| <= 260 && s !in routes && s !in {"gpt-cli", "codex-cli"}
    requires StartsWith(s, Prefix(CodexCli)) && ':' !in s[|Prefix(CodexCli)|..]
    ensures Canonical(env, Str(s), routes) == s
  {
    hide Strip, RSplit, FirstRoute, Tight, Prefix, HarnessOf, Env.TextOf;
    PlainText(env, s);
    var rest := s[|Prefix(CodexCli)|..];
    assert s == Prefix(CodexCli) + rest;
    PrefixDecides(CodexCli, rest);
    forall h | StartsWith(s, Prefix(h)) ensures h == CodexCli {
      assert s == Prefix(h) + s[|Prefix(h)|..];
      PrefixDecides(h, s[|Prefix(h)|..]);
    }
  }

  /** The reviewer "codex-cli:x" and nothing else. */
  const RAISING: Fields := map[AgentSecondOpinionModels := Obj(map[RoleMember(SocAnalyst) := Str(EFFORTLESS)])]

  lemma DefaultRoster(p: Fields)
    requires MostlyDefault(p) && EnabledOllamaModels !in p
    ensures OllamaRoster(MARKS_ENV, p, Defaults(MARKS_ENV)) == ["m"]
  {
    hide LegacyMode, ModelNames, Strip;
    DefaultModeIsOllama(p);
    var m := "m";
    assert Tight(m) && NoControl(m);
    assert ModelsNormal([m]);
    ModelNamesOfStored(MARKS_ENV, [m]);
    assert Strs<Key>([m]) == [Str(m)];
  }

  lemma RaisingMember()
    ensures MostlyDefault(RAISING) && EnabledOllamaModels !in RAISING
    ensures Get(RawAssignments(Get(RAISING, AgentSecondOpinionModels, Null)), RoleMember(SocAnalyst), Null)
            == Str(EFFORTLESS)
  {
  }

  lemma EffortlessIsMalformedIn(env: Env, v: Value, routes: seq<string>, role: Role, s: string)
    requires Get(RawAssignments(v), RoleMember(role), Null) == Str(s)
    requires Canonical(env, Str(s), routes) == s && Malformed(env.LowerCase(Strip(s)))
    ensures MalformedIn(env, v, routes, role)
  {
    hide Canonical, Malformed, Strip, Env.LowerCase;
  }

  /** A payload that leaves out an effort: normalising it raises. */
  lemma MissingEffortRaises()
    ensures Normalize(MARKS_ENV, Obj(RAISING)).Raised?
  {
    hide Provided, Normalize, EnabledRoutes, Malformed, Canonical, Strip, OllamaRoster, MalformedIn, MostlyDefault,
      RawAssignments, Tight, StartsWith, ProvidersNormal, Env.LowerCase;
    var p := RAISING;
    RaisingMember();
    DefaultRoster(p);
    DefaultsProvide(p);
    var s := Provided(MARKS_ENV, p).value;
    ProvidedNormal(MARKS_ENV, p);
    RaisesExactlyOnMalformedRoutes(MARKS_ENV, p);
    NoEffortlessRoute(s);
    EffortlessIsMalformed();
    EffortlessIsCanonical(MARKS_ENV, EFFORTLESS, RoutesOf(s));
    EffortlessIsMalformedIn(MARKS_ENV, Get(p, AgentSecondOpinionModels, Null), RoutesOf(s), SocAnalyst, EFFORTLESS);
  }

  /** No enabled route is malformed. */
  lemma NoEffortlessRoute(s: Settings)
    requires ProvidersNormal(MARKS_ENV, s)
    ensures EFFORTLESS !in RoutesOf(s)
  {
    hide ProvidersNormal, EnabledRoutes, Identity, Malformed, Strip, RoutesOf;
    if EFFORTLESS in RoutesOf(s) {
      EnabledIdentity(MARKS_ENV, s, EFFORTLESS);
      IdentityRaises(MARKS_ENV, EFFORTLESS, s.codexModel);
      EffortlessIsMalformed();
      assert false;
    }
  }

  // ----- a name cut at a blank -----

  function Letters(n: nat): (s: string)
    ensures |s| == n && forall i :: 0 <= i < n ==> s[i] == 'a'
  {
    seq(n, i => 'a')
  }

  /** 239 letters, a blank, a letter. */
  const LONG_NAME := Letters(239) + " a"

  const CUT: Fields := map[EnabledOllamaModels := Arr([Str(LONG_NAME)])]

  lemma CutRoster()
    ensures OllamaRoster(MARKS_ENV, CUT, Defaults(MARKS_ENV)) == [Letters(239) + " "]
  {
    hide Strip, Letters;
    var name := LONG_NAME;
    assert |name| == 241 && name[0] == 'a' && name[240] == 'a';
    assert Tight(name);
    PlainText(MARKS_ENV, name);
    var kept := Letters(239) + " ";
    assert name[..240] == kept;
    assert ModelName(MARKS_ENV, Str(name)) == kept;
    assert NoControl(kept);
    assert kept[0] == 'a';
    var items: seq<Value> := [Str(name)];
    ModelNamesStep(MARKS_ENV, items, 0);
    NoModelNames(MARKS_ENV);
    assert items[..0] == [] && items[..1] == items;
  }

  lemma NothingIsMalformed(v: Value, routes: seq<string>, role: Role)
    requires v == Null && "" !in routes
    ensures !MalformedIn(MARKS_ENV, v, routes, role)
  {
    hide Malformed, Strip, Env.LowerCase, FirstRoute, RSplit;
    EmptyText(MARKS_ENV);
    assert MARKS_ENV.TextOf(Null) == "";
    assert !StartsWith("", Prefix(CodexCli)) && !StartsWith("", Prefix(HermesAgent))
      && !StartsWith("", Prefix(OpenClaw));
  }

  lemma GeoipFileIsFine(name: string)
    requires NoControl(name) && |name| <= 100
    ensures GeoipPathOk(MARKS_ENV, GEOIP_DIRECTORY + name)
  {
    var directory := GEOIP_DIRECTORY;
    assert NoControl(directory) && |directory| == 27;
    assert (directory + name)[..2] == "~/";
  }

  lemma DefaultPathsAreFine()
    ensures GeoipPathOk(MARKS_ENV, ASN_PATH) && GeoipPathOk(MARKS_ENV, CITY_PATH)
    ensures GeoipPathOk(MARKS_ENV, COUNTRY_PATH)
  {
    hide GeoipPathOk;
    var asn, city, country := "GeoLite2-ASN.mmdb", "GeoLite2-City.mmdb", "GeoLite2-Country.mmdb";
    assert NoControl(asn) && NoControl(city) && NoControl(country);
    GeoipFileIsFine(asn);
    GeoipFileIsFine(city);
    GeoipFileIsFine(country);
  }

  lemma ProvidedKeepsDefaults(p: Fields)
    requires MostlyDefault(p) && Provided(MARKS_ENV, p).Some?
    ensures var s, d := Provided(MARKS_ENV, p).value, Defaults(MARKS_ENV);
      && s.analysisSeverity == d.analysisSeverity && s.pcapSeverity == d.pcapSeverity
      && s.incidentSeverity == d.incidentSeverity
      && s.captureLoss == d.captureLoss && s.asnPath == d.asnPath && s.cityPath == d.cityPath
      && s.countryPath == d.countryPath
  {
    hide Initial, OllamaRoster, CodexSetup, ProvidersOk, UrlOk, FirstEnabled, AnyEnabled, DeriveMode, ProviderText,
      Boolean, Env.LowerCase;
    DefaultsAreInitial(p);
  }

  lemma DefaultsFinish(s: Settings)
    requires var d := Defaults(MARKS_ENV);
      && s.analysisSeverity == d.analysisSeverity && s.pcapSeverity == d.pcapSeverity
      && s.incidentSeverity == d.incidentSeverity
      && s.captureLoss == d.captureLoss && s.asnPath == d.asnPath && s.cityPath == d.cityPath
      && s.countryPath == d.countryPath
    ensures Finished(MARKS_ENV, s).Some?
  {
    hide Severity, GeoipPathOk, Round4, Shortened;
    SeverityOfStored(MARKS_ENV, "informational");
    SeverityOfStored(MARKS_ENV, "disabled");
    DefaultPathsAreFine();
  }

  lemma CutIsAccepted()
    ensures Normalize(MARKS_ENV, Obj(CUT)).Accepted?
  {
    hide Provided, Finished, EnabledRoutes, OllamaRoster, Malformed, Strip, Defaults, MalformedIn, Primaries,
      Reviewers, Adjudicators;
    CutRoster();
    DefaultsProvide(CUT);
    ProvidedHasRoutes(MARKS_ENV, CUT);
    ProvidedNormal(MARKS_ENV, CUT);
    ProvidedKeepsDefaults(CUT);
    var s := Provided(MARKS_ENV, CUT).value;
    NoRouteIsEmpty(MARKS_ENV, s);
    RaisesExactlyOnMalformedRoutes(MARKS_ENV, CUT);
    forall role: Role ensures !MalformedIn(MARKS_ENV, Null, RoutesOf(s), role) {
      NothingIsMalformed(Null, RoutesOf(s), role);
    }
    assert Assigned(MARKS_ENV, CUT, s).Some?;
    DefaultsFinish(Assigned(MARKS_ENV, CUT, s).value);
  }

  /** A payload whose name is cut just after a blank: it is accepted, and reading the settings back changes
      them. */
  lemma CutNameIsNotFixed()
    ensures Normalize(MARKS_ENV, Obj(CUT)).Accepted?
    ensures var t := Normalize(MARKS_ENV, Obj(CUT)).settings;
      t.models == [Letters(239) + " "] && Normalize(MARKS_ENV, StoredJson(t)) != Accepted(t)
  {
    hide Normalize, OllamaRoster, Strip, Letters, StoredJson;
    CutIsAccepted();
    CutRoster();
    DefaultsAreInitial(CUT);
    AcceptedTexts(MARKS_ENV, Obj(CUT));
    var t := Normalize(MARKS_ENV, Obj(CUT)).settings;
    assert t.models[0][239] == ' ';
    assert !Tight(t.models[0]);
    LawfulEnvExists();
    FixedExactlyWhenSettled(MARKS_ENV, Obj(CUT));
  }
}
