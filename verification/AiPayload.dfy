/** What accepted AI settings take from the request, member by member. */
module AiPayload {
  import opened Prelude
  import opened Values
  import opened AiRoutes
  import opened AiSettings
  import opened AiNormal

  // ----- flags and texts -----

  /** True, a number but zero, or one of the five words in any case. */
  predicate IsOn(env: Env, v: Value) {
    || v == Bool(true)
    || (v.Int? && v.n != 0)
    || (v.Float? && v.r != 0.0)
    || (v.Str? && env.LowerCase(Strip(v.s)) in {"1", "true", "yes", "on", "enabled"})
  }

  lemma OnIsTrue(env: Env, v: Value)
    ensures Boolean(env, v) <==> IsOn(env, v)
  {
    hide Strip, Env.LowerCase;
  }

  predicate FlagOf(env: Env, p: Fields, key: Key) {
    key in p && IsOn(env, p[key])
  }

  /** The member's text without the blanks around it, if the member is there. */
  function MemberText(env: Env, p: Fields, key: Key, default: string): string {
    if key in p then Strip(env.TextOf(p[key])) else default
  }

  /** The same, but an empty member counts as absent. */
  function FilledText(env: Env, p: Fields, key: Key, default: string): string {
    if key in p && Truthy(p[key]) then Strip(env.TextOf(p[key])) else default
  }

  // ----- the phases -----

  /** What the closing phases keep of the provider phases' settings. */
  lemma AcceptedFrom(env: Env, p: Fields)
    requires Normalize(env, Obj(p)).Accepted?
    ensures Provided(env, p).Some?
    ensures var s, t := Provided(env, p).value, Normalize(env, Obj(p)).settings;
      && t.models == s.models && t.codexModels == s.codexModels
      && t.hermesEnabled == s.hermesEnabled && t.openclawEnabled == s.openclawEnabled
      && t.codexPath == s.codexPath && t.hermesPath == s.hermesPath && t.openclawPath == s.openclawPath
      && t.hermesModel == Truncate(s.hermesModel, 240) && t.openclawModel == Truncate(s.openclawModel, 240)
      && t.hermesEffort == Truncate(s.hermesEffort, 240) && t.openclawEffort == Truncate(s.openclawEffort, 240)
      && t.ollamaUrl == Truncate(s.ollamaUrl, 240)
      && Severity(env, s.analysisSeverity) == Some(t.analysisSeverity)
      && Severity(env, s.pcapSeverity) == Some(t.pcapSeverity)
      && Severity(env, s.incidentSeverity) == Some(t.incidentSeverity)
      && t.captureLoss.Float? && CaptureLoss(env, s.captureLoss) == Some(t.captureLoss.r)
      && t.asnPath == s.asnPath && t.cityPath == s.cityPath && t.countryPath == s.countryPath
  {
    hide Provided, Primaries, Reviewers, Adjudicators, EnabledRoutes, Severity, CaptureLoss, GeoipPathOk, Truncate,
      Env.LowerCase;
    ProvidedHasRoutes(env, p);
  }

  lemma ProvidedFrom(env: Env, p: Fields)
    requires Provided(env, p).Some?
    ensures var s, d, t := Initial(env, p), Defaults(env), Provided(env, p).value;
      && t.models == OllamaRoster(env, p, s)
      && CodexSetup(env, p, s) == Some((t.codexPath, t.codexModels))
      && t.hermesEnabled == WithProviderValues(env, p, s).hermesEnabled
      && t.openclawEnabled == WithProviderValues(env, p, s).openclawEnabled
      && t.hermesPath == WithProviderValues(env, p, s).hermesPath
      && t.hermesModel == WithProviderValues(env, p, s).hermesModel
      && t.hermesEffort == WithProviderValues(env, p, s).hermesEffort
      && t.openclawPath == WithProviderValues(env, p, s).openclawPath
      && t.openclawModel == WithProviderValues(env, p, s).openclawModel
      && t.openclawEffort == WithProviderValues(env, p, s).openclawEffort
      && t.analysisSeverity == s.analysisSeverity && t.pcapSeverity == s.pcapSeverity
      && t.incidentSeverity == s.incidentSeverity && t.captureLoss == s.captureLoss
      && t.asnPath == s.asnPath && t.cityPath == s.cityPath && t.countryPath == s.countryPath
      && t.ollamaUrl == s.ollamaUrl
  {
    hide Initial, OllamaRoster, CodexSetup, ProvidersOk, UrlOk, FirstEnabled, AnyEnabled, DeriveMode, ProviderText,
      Boolean, Env.LowerCase;
  }

  // ----- Hermes and OpenClaw -----

  /** Enabled exactly by their flags; path, model and effort as given, or the harness's own defaults. */
  lemma AcceptedHarnesses(env: Env, p: Fields)
    requires Normalize(env, Obj(p)).Accepted?
    ensures var t := Normalize(env, Obj(p)).settings;
      && (t.hermesEnabled <==> FlagOf(env, p, HermesAgentEnabled))
      && (t.openclawEnabled <==> FlagOf(env, p, OpenclawEnabled))
      && t.hermesPath == FilledText(env, p, HermesAgentPath, "hermes")
      && t.hermesModel == FilledText(env, p, HermesAgentModel, "gpt-5.5")
      && t.hermesEffort == env.LowerCase(FilledText(env, p, HermesAgentReasoningEffort, "medium"))
      && t.openclawPath == FilledText(env, p, OpenclawPath, "openclaw")
      && t.openclawModel == FilledText(env, p, OpenclawModel, "ollama/gemma4:26b-mlx")
      && t.openclawEffort == env.LowerCase(FilledText(env, p, OpenclawReasoningEffort, "medium"))
  {
    AcceptedFrom(env, p);
    ProvidedFrom(env, p);
    var s := Initial(env, p);
    HarnessFlags(env, p, s);
    HarnessesGiven(env, p);
    ProvidersAreShort(env, p);
    hide Normalize, Provided, Initial, WithProviderValues, CodexSetup, OllamaRoster, FilledText, FlagOf, Severity,
      CaptureLoss, Defaults, Env.LowerCase;
  }

  lemma HarnessFlags(env: Env, p: Fields, s: Settings)
    ensures WithProviderValues(env, p, s).hermesEnabled <==> FlagOf(env, p, HermesAgentEnabled)
    ensures WithProviderValues(env, p, s).openclawEnabled <==> FlagOf(env, p, OpenclawEnabled)
  {
    hide ProviderText, IsOn, Boolean, Env.LowerCase;
    OnIsTrue(env, Get(p, HermesAgentEnabled, Null));
    OnIsTrue(env, Get(p, OpenclawEnabled, Null));
    NullIsOff(env);
  }

  lemma NullIsOff(env: Env)
    ensures !IsOn(env, Null)
  {
  }

  lemma TextGiven(env: Env, p: Fields, key: Key, default: string)
    requires Tight(default) && default != ""
    ensures ProviderText(env, p, key, Given(env, p, key, default), default) == FilledText(env, p, key, default)
  {
    hide Tight;
  }

  lemma HarnessesGiven(env: Env, p: Fields)
    ensures var v := WithProviderValues(env, p, Initial(env, p));
      && v.hermesPath == FilledText(env, p, HermesAgentPath, "hermes")
      && v.hermesModel == FilledText(env, p, HermesAgentModel, "gpt-5.5")
      && v.hermesEffort == env.LowerCase(FilledText(env, p, HermesAgentReasoningEffort, "medium"))
      && v.openclawPath == FilledText(env, p, OpenclawPath, "openclaw")
      && v.openclawModel == FilledText(env, p, OpenclawModel, "ollama/gemma4:26b-mlx")
      && v.openclawEffort == env.LowerCase(FilledText(env, p, OpenclawReasoningEffort, "medium"))
  {
    DefaultsAreTight();
    hide ProviderText, Given, FilledText, Boolean, Tight, Env.LowerCase;
    TextGiven(env, p, HermesAgentPath, "hermes");
    TextGiven(env, p, HermesAgentModel, "gpt-5.5");
    TextGiven(env, p, HermesAgentReasoningEffort, "medium");
    TextGiven(env, p, OpenclawPath, "openclaw");
    TextGiven(env, p, OpenclawModel, "ollama/gemma4:26b-mlx");
    TextGiven(env, p, OpenclawReasoningEffort, "medium");
  }

  lemma DefaultsAreTight()
    ensures Tight("codex") && Tight("hermes") && Tight("gpt-5.5") && Tight("medium") && Tight("openclaw")
    ensures Tight("ollama/gemma4:26b-mlx")
  {
    var k := "codex";
    assert k[|k| - 1] == 'x';
    var a, b, c, d, e := "hermes", "gpt-5.5", "medium", "openclaw", "ollama/gemma4:26b-mlx";
    assert a[|a| - 1] == 's' && b[|b| - 1] == '5' && c[|c| - 1] == 'm' && d[|d| - 1] == 'w' && e[|e| - 1] == 'x';
  }

  lemma ProvidersAreShort(env: Env, p: Fields)
    requires Provided(env, p).Some?
    ensures var s := Provided(env, p).value;
      |s.hermesModel| <= 240 && |s.openclawModel| <= 240 && |s.hermesEffort| <= 240 && |s.openclawEffort| <= 240
  {
    ProvidedNormal(env, p);
    hide Provided, ModelsNormal, RosterNormal, FirstEnabled, AnyEnabled, DeriveMode, UrlOk, ValidCliPath, Tight,
      RStripSlashes, StartsWith;
    var s := Provided(env, p).value;
    CatalogIsLowerText(s.hermesModel);
    EffortsHaveNoColon(s.openclawEffort);
    assert |"medium"| == 6;
  }

  // ----- thresholds and paths -----

  /** Severities as given, "info" read as informational. */
  lemma AcceptedSeverities(env: Env, p: Fields)
    requires Normalize(env, Obj(p)).Accepted?
    ensures var t := Normalize(env, Obj(p)).settings;
      && t.analysisSeverity == SeverityGiven(env, p, AnalysisMinSeverity, "informational")
      && t.pcapSeverity == SeverityGiven(env, p, PcapMinSeverity, "informational")
      && t.incidentSeverity == SeverityGiven(env, p, IncidentMinSeverity, "disabled")
  {
    AcceptedFrom(env, p);
    ProvidedFrom(env, p);
    PolicyGiven(env, p);
    hide Normalize, Provided, Initial, WithProviderValues, CodexSetup, OllamaRoster, MemberText, Defaults,
      Env.LowerCase, SeverityGiven, Severity, CaptureLoss;
    SeverityReads(env, p, AnalysisMinSeverity, "informational");
    SeverityReads(env, p, PcapMinSeverity, "informational");
    SeverityReads(env, p, IncidentMinSeverity, "disabled");
  }

  /** The loss threshold is the nearest four-decimal number to the one given; the database paths are as given,
      the old single path standing for the city's. */
  lemma AcceptedPolicy(env: Env, p: Fields)
    requires Normalize(env, Obj(p)).Accepted?
    ensures var t := Normalize(env, Obj(p)).settings;
      && t.captureLoss.Float? && FourDecimals(t.captureLoss.r)
      && (CaptureLossThreshold in p ==>
            && env.parseFloat(MemberText(env, p, CaptureLossThreshold, "")).Some?
            && Near(t.captureLoss.r, env.parseFloat(MemberText(env, p, CaptureLossThreshold, "")).value))
      && (CaptureLossThreshold !in p ==> Near(t.captureLoss.r, 5.0))
      && t.asnPath == MemberText(env, p, GeoipAsnPath, ASN_PATH)
      && t.countryPath == MemberText(env, p, GeoipCountryPath, COUNTRY_PATH)
      && t.cityPath == (if GeoipCityPath !in p && GeoipDbPath in p && p[GeoipDbPath] != Null
                        then MemberText(env, p, GeoipDbPath, "") else MemberText(env, p, GeoipCityPath, CITY_PATH))
  {
    AcceptedFrom(env, p);
    ProvidedFrom(env, p);
    PolicyGiven(env, p);
    hide Normalize, Provided, Initial, WithProviderValues, CodexSetup, OllamaRoster, MemberText, Defaults, Near,
      Severity, CaptureLoss, FourDecimals, ASN_PATH, CITY_PATH, COUNTRY_PATH;
    LossReads(env, p, Provided(env, p).value.captureLoss);
  }

  lemma LossReads(env: Env, p: Fields, v: Value)
    requires v == if CaptureLossThreshold in p then Str(MemberText(env, p, CaptureLossThreshold, "")) else Float(5.0)
    requires CaptureLoss(env, v).Some?
    ensures var q := CaptureLoss(env, v).value;
      && FourDecimals(q)
      && (CaptureLossThreshold in p ==>
            && env.parseFloat(MemberText(env, p, CaptureLossThreshold, "")).Some?
            && Near(q, env.parseFloat(MemberText(env, p, CaptureLossThreshold, "")).value))
      && (CaptureLossThreshold !in p ==> Near(q, 5.0))
  {
    hide MemberText, Round4, Near, FourDecimals;
    if v.Str? && env.parseFloat(v.s).Some? { RoundIsNearest(env.parseFloat(v.s).value); }
    RoundIsNearest(5.0);
  }

  function SeverityGiven(env: Env, p: Fields, key: Key, default: string): string {
    var given := env.LowerCase(MemberText(env, p, key, default));
    if given == "info" then "informational" else if key in p then given else default
  }

  lemma PolicyGiven(env: Env, p: Fields)
    ensures var s := Initial(env, p);
      && s.analysisSeverity == MemberText(env, p, AnalysisMinSeverity, "informational")
      && s.pcapSeverity == MemberText(env, p, PcapMinSeverity, "informational")
      && s.incidentSeverity == MemberText(env, p, IncidentMinSeverity, "disabled")
      && s.captureLoss == (if CaptureLossThreshold in p then Str(MemberText(env, p, CaptureLossThreshold, ""))
                           else Float(5.0))
      && s.asnPath == MemberText(env, p, GeoipAsnPath, ASN_PATH)
      && s.countryPath == MemberText(env, p, GeoipCountryPath, COUNTRY_PATH)
      && s.cityPath == (if GeoipCityPath !in p && GeoipDbPath in p && p[GeoipDbPath] != Null
                        then MemberText(env, p, GeoipDbPath, "") else MemberText(env, p, GeoipCityPath, CITY_PATH))
  {
    hide Strip, ASN_PATH, CITY_PATH, COUNTRY_PATH, Env.TextOf;
  }

  lemma SeverityReads(env: Env, p: Fields, key: Key, default: string)
    requires default == "informational" || default == "disabled"
    ensures var s := SeverityGiven(env, p, key, default);
      Severity(env, MemberText(env, p, key, default)) == if s in SEVERITIES then Some(s) else None
  {
    StrippedIsTight(env, p, key, default);
    DefaultSeverities(env, default);
    hide MemberText, Strip, Env.LowerCase;
  }

  lemma StrippedIsTight(env: Env, p: Fields, key: Key, default: string)
    requires default == "informational" || default == "disabled"
    ensures Strip(MemberText(env, p, key, default)) == MemberText(env, p, key, default)
    ensures key !in p ==> MemberText(env, p, key, default) == default
  {
    var a, b := "informational", "disabled";
    assert a[|a| - 1] == 'l' && b[|b| - 1] == 'd';
    assert Tight(default);
    hide Strip, Tight;
  }

  lemma DefaultSeverities(env: Env, default: string)
    requires default == "informational" || default == "disabled"
    ensures env.LowerCase(default) == default && default != "info"
  {
    LowerSeverities(env);
    hide Env.LowerCase;
    assert |"info"| == 4;
  }

  lemma LowerSeverities(env: Env)
    ensures env.LowerCase("informational") == "informational" && |"informational"| == 13
    ensures env.LowerCase("disabled") == "disabled" && |"disabled"| == 8
  {
    var a, b := "informational", "disabled";
    assert IsLowerText(a) && IsLowerText(b);
    hide Lower, IsLowerText;
    LowerFixesLowerText(env.lowerOther, a);
    LowerFixesLowerText(env.lowerOther, b);
  }

  /** Within half a ten-thousandth. */
  predicate Near(a: real, b: real) {
    -0.00005 <= a - b <= 0.00005
  }

  lemma RoundIsNearest(r: real)
    ensures Near(Round4(r), r) && FourDecimals(Round4(r))
  {
    Round4IsRound(r);
    var x := r * 10000.0;
    var n := x.Floor;
    var m := if x - n as real < 0.5 || (x - n as real == 0.5 && n % 2 == 0) then n else n + 1;
    assert Round4(r) * 10000.0 == m as real;
  }

  // ----- local models -----

  /** The name an item gives: its text without the blanks around it, cut at 240 characters. */
  function NameOf(env: Env, v: Value): string {
    Truncate(Strip(env.TextOf(v)), 240)
  }

  predicate Usable(name: string) {
    name != "" && forall i :: 0 <= i < |name| ==> name[i] as int >= 32 && name[i] as int != 127
  }

  /** The usable names of the items, each once. */
  lemma {:induction false} NamesAreKept(env: Env, items: seq<Value>, name: string)
    ensures name in ModelNames(env, items)
            <==> Usable(name) && exists i :: 0 <= i < |items| && NameOf(env, items[i]) == name
  {
    if items != [] {
      var n := |items| - 1;
      NamesAreKept(env, items[..n], name);
      UsableName(ModelName(env, items[n]));
      assert ModelName(env, items[n]) == NameOf(env, items[n]);
      hide ModelName, NameOf, NoControl, Usable;
      if i :| 0 <= i < |items| && NameOf(env, items[i]) == name {
        assert i < n ==> items[..n][i] == items[i];
      }
      if i :| 0 <= i < n && NameOf(env, items[..n][i]) == name {
        assert items[..n][i] == items[i];
      }
    }
  }

  lemma UsableName(name: string)
    ensures name != "" && NoControl(name) <==> Usable(name)
  {
  }

  /** The mode of old settings, which decides where no roster is given. */
  function OldMode(env: Env, p: Fields): string {
    var mode := env.LowerCase(FilledText(env, p, Mode, "ollama"));
    if mode == "cloud" || mode == "hybrid" then mode else "ollama"
  }

  lemma OldModeReads(env: Env, p: Fields)
    ensures LegacyMode(env, p, Initial(env, p)) == OldMode(env, p)
  {
    GivenMode(env, p);
    OllamaIsText(env);
    hide Initial, Strip, Lower;
    assert env.LowerCase("") == "" by { NothingIsLower(env); }
  }

  lemma GivenMode(env: Env, p: Fields)
    ensures Initial(env, p).mode == MemberText(env, p, Mode, "ollama")
    ensures Mode in p && !Truthy(p[Mode]) ==> MemberText(env, p, Mode, "ollama") == ""
  {
    assert Strip("") == "" by { assert |Strip("")| <= 0; }
    hide Strip;
  }

  lemma OllamaIsText(env: Env)
    ensures Strip("ollama") == "ollama" && env.LowerCase("ollama") == "ollama"
    ensures Strip("") == ""
  {
    var a := "ollama";
    assert a[|a| - 1] == 'a' && Tight(a) && IsLowerText(a);
    hide Lower, Tight;
    assert |Strip("")| <= 0;
    LowerFixesLowerText(env.lowerOther, a);
  }

  lemma NothingIsLower(env: Env)
    ensures env.LowerCase("") == ""
  {
  }

  /** The one local model of old settings. */
  function OldLocalModel(env: Env, p: Fields): string {
    FilledText(env, p, OllamaModel, MemberText(env, p, OllamaModel, Strip(env.defaultModel)))
  }

  /** The local models: the usable names among the first thirty-two of the roster given; without a roster none
      in cloud mode, and otherwise the one model of the old setting. */
  lemma AcceptedModels(env: Env, p: Fields, name: string)
    requires Normalize(env, Obj(p)).Accepted?
    ensures var t := Normalize(env, Obj(p)).settings;
      if EnabledOllamaModels in p then
        name in t.models <==>
          && p[EnabledOllamaModels].Arr? && Usable(name)
          && exists i :: 0 <= i < |p[EnabledOllamaModels].items| && i < 32
                         && NameOf(env, p[EnabledOllamaModels].items[i]) == name
      else
        name in t.models <==>
          && OldMode(env, p) != "cloud" && Usable(name)
          && name == Truncate(OldLocalModel(env, p), 240)
  {
    AcceptedFrom(env, p);
    ProvidedFrom(env, p);
    OldModeReads(env, p);
    GivenModel(env, p);
    RosterNames(env, p, Initial(env, p), name);
    hide *;
  }

  lemma RosterNames(env: Env, p: Fields, s: Settings, name: string)
    ensures if EnabledOllamaModels in p then
        name in OllamaRoster(env, p, s) <==>
          && p[EnabledOllamaModels].Arr? && Usable(name)
          && exists i :: 0 <= i < |p[EnabledOllamaModels].items| && i < 32
                         && NameOf(env, p[EnabledOllamaModels].items[i]) == name
      else
        name in OllamaRoster(env, p, s) <==>
          && LegacyMode(env, p, s) != "cloud" && Usable(name)
          && name == Truncate(Strip(OrText(env, Get(p, OllamaModel, Null), s.ollamaModel)), 240)
  {
    hide LegacyMode, Usable, Truncate, Strip, ModelNames, OrText, NameOf;
    if EnabledOllamaModels in p {
      var v := p[EnabledOllamaModels];
      if v.Arr? { NamesAreKept(env, if |v.items| > 32 then v.items[..32] else v.items, name); }
    } else {
      var text := Strip(OrText(env, Get(p, OllamaModel, Null), s.ollamaModel));
      var one: seq<Value> := [Str(text)];
      assert one[0] == Str(text);
      assert ModelList(env, Arr(one)) == ModelNames(env, one);
      NamesAreKept(env, one, name);
      TextOfText(env, OrText(env, Get(p, OllamaModel, Null), s.ollamaModel));
    }
  }

  lemma GivenModel(env: Env, p: Fields)
    ensures Strip(OrText(env, Get(p, OllamaModel, Null), Initial(env, p).ollamaModel))
            == OldLocalModel(env, p)
  {
    assert Strip("") == "" by { assert |Strip("")| <= 0; }
    hide Strip, Tight;
  }

  lemma TextOfText(env: Env, text: string)
    ensures NameOf(env, Str(Strip(text))) == Truncate(Strip(text), 240)
  {
    assert Strip("") == "" by { assert |Strip("")| <= 0; }
    hide Strip, Truncate;
  }

  // ----- the Codex roster -----

  function RowModel(env: Env, item: Value): string
    requires item.Obj?
  {
    MemberText(env, item.fields, Model, "")
  }

  /** The row an item gives. */
  function RowOf(env: Env, item: Value): CodexEntry
    requires item.Obj?
  {
    CodexEntry(RowModel(env, item), env.LowerCase(FilledText(env, item.fields, ReasoningEffort, "medium")),
               FlagOf(env, item.fields, Enabled))
  }

  lemma RowTexts(env: Env, f: Fields)
    ensures Strip(env.TextOf(Get(f, Model, Null))) == MemberText(env, f, Model, "")
    ensures Strip(OrText(env, Get(f, ReasoningEffort, Null), "medium")) == FilledText(env, f, ReasoningEffort, "medium")
    ensures Boolean(env, Get(f, Enabled, Null)) <==> FlagOf(env, f, Enabled)
  {
    assert Strip("") == "" by { assert |Strip("")| <= 0; }
    OnIsTrue(env, Get(f, Enabled, Null));
    NullIsOff(env);
    DefaultsAreTight();
    hide Strip, Lower, Boolean, IsOn, Tight;
  }

  lemma RowReads(env: Env, item: Value, configured: map<string, CodexEntry>)
    ensures var r := CodexRow(env, item, configured);
      r.Some? ==> item.Obj? && RowModel(env, item) !in configured
                  && r.value == configured[RowModel(env, item) := RowOf(env, item)]
  {
    if item.Obj? { RowTexts(env, item.fields); }
    hide Strip, Env.LowerCase, Env.TextOf, OrText, Boolean, FlagOf, MemberText, FilledText, CATALOG, EFFORTS, Get;
  }

  /** Each configured row is the row of an item that names its model, and each item's row is configured. */
  ghost predicate Configures(env: Env, items: seq<Value>, configured: map<string, CodexEntry>) {
    && (forall i :: 0 <= i < |items| ==>
          && items[i].Obj? && RowModel(env, items[i]) in configured
          && configured[RowModel(env, items[i])] == RowOf(env, items[i]))
    && (forall m :: m in configured ==>
          exists i :: 0 <= i < |items| && items[i].Obj? && RowModel(env, items[i]) == m)
  }

  lemma ConfiguresOneMore(env: Env, items: seq<Value>, configured: map<string, CodexEntry>, item: Value)
    requires Configures(env, items, configured) && item.Obj? && RowModel(env, item) !in configured
    ensures Configures(env, items + [item], configured[RowModel(env, item) := RowOf(env, item)])
  {
    hide RowModel, RowOf;
    var longer, more := items + [item], configured[RowModel(env, item) := RowOf(env, item)];
    assert longer[|items|] == item && forall i :: 0 <= i < |items| ==> longer[i] == items[i];
    forall m | m in more
      ensures exists i :: 0 <= i < |longer| && longer[i].Obj? && RowModel(env, longer[i]) == m
    {
      if m == RowModel(env, item) {
        assert longer[|items|].Obj?;
      } else {
        var i :| 0 <= i < |items| && items[i].Obj? && RowModel(env, items[i]) == m;
        assert longer[i].Obj?;
      }
    }
  }

  lemma {:induction false} RowsAreItems(env: Env, items: seq<Value>)
    ensures CodexRows(env, items).Some? ==> Configures(env, items, CodexRows(env, items).value)
  {
    hide CodexRow, RowModel, RowOf;
    if items == [] {
    } else if CodexRows(env, items).Some? {
      hide Configures;
      var n := |items| - 1;
      RowsAreItems(env, items[..n]);
      RowReads(env, items[n], CodexRows(env, items[..n]).value);
      ConfiguresOneMore(env, items[..n], CodexRows(env, items[..n]).value, items[n]);
      assert items == items[..n] + [items[n]];
    }
  }

  /** The items the roster is made of: those given, or the one of the old settings. */
  function RosterItems(env: Env, p: Fields): seq<Value> {
    if CodexCliModels in p && p[CodexCliModels].Arr? then p[CodexCliModels].items
    else [EntryJson(CodexEntry(OldCodexModel(env, p), OldCodexEffort(env, p), OldCodexFlag(env, p)))]
  }

  function OldCodexModel(env: Env, p: Fields): string {
    FilledText(env, p, CodexCliModel, FilledText(env, p, CloudModel, "gpt-5.5"))
  }

  function OldCodexEffort(env: Env, p: Fields): string {
    var given := MemberText(env, p, CodexCliReasoningEffort, "medium");
    env.LowerCase(if given == "" then "medium" else given)
  }

  predicate OldCodexFlag(env: Env, p: Fields) {
    if GptCliEnabled in p then IsOn(env, p[GptCliEnabled]) else OldMode(env, p) != "ollama"
  }

  lemma OldFlagReads(env: Env, p: Fields)
    ensures LegacyGpt(env, p, Initial(env, p)) <==> OldCodexFlag(env, p)
  {
    OldModeReads(env, p);
    if GptCliEnabled in p { OnIsTrue(env, p[GptCliEnabled]); }
    OldModesDiffer();
    hide LegacyMode, Boolean, IsOn, Env.LowerCase, FilledText;
  }

  lemma OldModesDiffer()
    ensures |"cloud"| == 5 && |"hybrid"| == 6 && |"ollama"| == 6 && "hybrid"[0] == 'h' && "ollama"[0] == 'o'
  {
  }

  lemma OldCodexGiven(env: Env, p: Fields)
    ensures var s := Initial(env, p);
      && s.codexPath == MemberText(env, p, CodexCliPath, "codex")
      && s.codexModel == MemberText(env, p, CodexCliModel, "gpt-5.5")
      && s.codexEffort == MemberText(env, p, CodexCliReasoningEffort, "medium")
  {
    hide Strip, Env.TextOf;
  }

  lemma OldModelReads(env: Env, p: Fields)
    ensures CodexModelGiven(env, p, Initial(env, p)) == OldCodexModel(env, p)
  {
    OldCodexGiven(env, p);
    assert Strip("") == "" by { assert |Strip("")| <= 0; }
    DefaultsAreTight();
    hide Initial, Strip, Tight;
  }

  lemma OldEffortReads(env: Env, p: Fields)
    ensures var s := Initial(env, p);
      env.LowerCase(Strip(if s.codexEffort != "" then s.codexEffort else "medium")) == OldCodexEffort(env, p)
  {
    OldCodexGiven(env, p);
    MemberIsTight(env, p, CodexCliReasoningEffort, "medium");
    DefaultsAreTight();
    hide Initial, Strip, Tight, Lower, MemberText;
  }

  lemma MemberIsTight(env: Env, p: Fields, key: Key, default: string)
    requires Tight(default)
    ensures Tight(MemberText(env, p, key, default))
  {
    hide Tight, Strip;
  }

  /** The roster of accepted settings is made of those items, and its path is as given. */
  lemma RosterFrom(env: Env, p: Fields)
    requires Normalize(env, Obj(p)).Accepted?
    ensures var t := Normalize(env, Obj(p)).settings;
      && CodexRows(env, RosterItems(env, p)).Some?
      && t.codexModels == CompleteCatalog(CodexRows(env, RosterItems(env, p)).value)
      && t.codexPath == (var given := MemberText(env, p, CodexCliPath, "codex"); if given == "" then "codex" else given)
  {
    AcceptedFrom(env, p);
    ProvidedFrom(env, p);
    SetupFrom(env, p);
    hide *;
  }

  lemma SetupParts(env: Env, p: Fields, s: Settings)
    requires CodexSetup(env, p, s).Some?
    ensures var (path, roster) := CodexSetup(env, p, s).value;
      var effort := env.LowerCase(Strip(if s.codexEffort != "" then s.codexEffort else "medium"));
      var single := CodexEntry(CodexModelGiven(env, p, s), effort, LegacyGpt(env, p, s));
      var items := if CodexCliModels in p && p[CodexCliModels].Arr? then p[CodexCliModels].items
                   else [EntryJson(single)];
      && CodexRows(env, items).Some? && roster == CompleteCatalog(CodexRows(env, items).value)
      && path == Strip(if s.codexPath != "" then s.codexPath else "codex")
  {
    hide CodexModelGiven, ValidCliPath, ValidProviderModel, LegacyGpt, CodexRows, CompleteCatalog, EFFORTS,
      Env.LowerCase, Strip, EntryJson;
  }

  lemma SetupFrom(env: Env, p: Fields)
    requires CodexSetup(env, p, Initial(env, p)).Some?
    ensures var (path, roster) := CodexSetup(env, p, Initial(env, p)).value;
      && CodexRows(env, RosterItems(env, p)).Some?
      && roster == CompleteCatalog(CodexRows(env, RosterItems(env, p)).value)
      && path == (var given := MemberText(env, p, CodexCliPath, "codex"); if given == "" then "codex" else given)
  {
    OldFlagReads(env, p);
    OldModelReads(env, p);
    OldEffortReads(env, p);
    OldCodexGiven(env, p);
    DefaultsAreTight();
    MemberIsTight(env, p, CodexCliPath, "codex");
    SetupParts(env, p, Initial(env, p));
    hide CodexSetup, Initial, CodexModelGiven, LegacyGpt, CodexRows, OldCodexModel, OldCodexEffort, OldCodexFlag,
      CompleteCatalog, Env.LowerCase, MemberText, Strip, Tight, EntryJson, CATALOG;
  }

  lemma CompleteRow(env: Env, items: seq<Value>, configured: map<string, CodexEntry>, n: nat)
    requires Configures(env, items, configured) && n < |CATALOG|
    ensures (forall i :: 0 <= i < |items| ==> items[i].Obj?)
    ensures forall i :: 0 <= i < |items| && RowModel(env, items[i]) == CATALOG[n] ==>
              CompleteCatalog(configured)[n] == RowOf(env, items[i])
    ensures (forall i :: 0 <= i < |items| ==> RowModel(env, items[i]) != CATALOG[n]) ==>
              CompleteCatalog(configured)[n] == CodexEntry(CATALOG[n], "medium", false)
  {
    hide RowModel, RowOf;
  }

  /** The Codex roster has a row for every model of the catalog: the one an item gives for it, or else a
      disabled one. */
  lemma AcceptedRoster(env: Env, p: Fields, n: nat)
    requires Normalize(env, Obj(p)).Accepted? && n < |CATALOG|
    ensures var t, items := Normalize(env, Obj(p)).settings, RosterItems(env, p);
      && |t.codexModels| == |CATALOG|
      && (forall i :: 0 <= i < |items| ==> items[i].Obj?)
      && (forall i :: 0 <= i < |items| && RowModel(env, items[i]) == CATALOG[n] ==>
            t.codexModels[n] == RowOf(env, items[i]))
      && ((forall i :: 0 <= i < |items| ==> RowModel(env, items[i]) != CATALOG[n]) ==>
            t.codexModels[n] == CodexEntry(CATALOG[n], "medium", false))
  {
    RosterFrom(env, p);
    RowsAreItems(env, RosterItems(env, p));
    var configured := CodexRows(env, RosterItems(env, p)).value;
    assert |CompleteCatalog(configured)| == |CATALOG|;
    hide *;
    CompleteRow(env, RosterItems(env, p), configured, n);
  }
}
