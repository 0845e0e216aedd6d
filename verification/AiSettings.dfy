/** Normalisation of the editable AI settings, phase by phase. */
module AiSettings {
  import opened Prelude
  import opened Values
  import opened AiRoutes

  datatype CodexEntry = CodexEntry(model: string, effort: string, enabled: bool)

  type Assignments = map<Role, string>

  const ROLE_SET := {SocAnalyst, IncidentResponder, SiemEngineer, CyberThreatIntel, ThreatHunter}

  datatype Settings = Settings(
    mode: string, ollamaModel: string, models: seq<string>, ollamaUrl: string,
    cloudProvider: string, cloudModel: string, cloudCommand: string,
    codexPath: string, codexModel: string, codexEffort: string, codexModels: seq<CodexEntry>, gptEnabled: bool,
    hermesEnabled: bool, hermesPath: string, hermesModel: string, hermesEffort: string,
    openclawEnabled: bool, openclawPath: string, openclawModel: string, openclawEffort: string,
    analysisSeverity: string, pcapSeverity: string, incidentSeverity: string, captureLoss: Value,
    primary: Assignments, reviewer: Assignments, adjudicator: Assignments,
    asnPath: string, cityPath: string, countryPath: string)

  /** What normalising gives: settings, a validation error, or the IndexError of a malformed route. */
  datatype Outcome = Accepted(settings: Settings) | Rejected | Raised

  // ----- small normalisers -----

  predicate NoControl(s: string) {
    forall i :: 0 <= i < |s| ==> s[i] as int > 31 && s[i] as int != 127
  }

  function ModelName(env: Env, v: Value): string {
    Truncate(Strip(env.TextOf(v)), 240)
  }

  /** The names kept among the first items: printable, non-empty, the first of each. */
  function ModelNames(env: Env, items: seq<Value>): seq<string> {
    if items == [] then []
    else
      var front := ModelNames(env, items[..|items| - 1]);
      var name := ModelName(env, items[|items| - 1]);
      if name == "" || !NoControl(name) || name in front then front else front + [name]
  }

  function ModelList(env: Env, v: Value): seq<string> {
    if !v.Arr? then [] else ModelNames(env, if |v.items| > 32 then v.items[..32] else v.items)
  }

  lemma ModelNamesStep(env: Env, items: seq<Value>, n: nat)
    requires n < |items|
    ensures ModelNames(env, items[..n + 1]) ==
      var front, name := ModelNames(env, items[..n]), ModelName(env, items[n]);
      if name == "" || !NoControl(name) || name in front then front else front + [name]
  {
    hide ModelName, NoControl;
    assert items[..n + 1][..n] == items[..n];
  }

  /** The loop over the roster. */
  method NormalizedModelList(env: Env, v: Value) returns (models: seq<string>)
    ensures models == ModelList(env, v)
  {
    if !v.Arr? { return []; }
    hide ModelName, NoControl, ModelNames;
    var items := if |v.items| > 32 then v.items[..32] else v.items;
    models := [];
    NoModelNames(env);
    assert items[..0] == [];
    for n := 0 to |items|
      invariant models == ModelNames(env, items[..n])
    {
      ModelNamesStep(env, items, n);
      var name := ModelName(env, items[n]);
      if name != "" && NoControl(name) && name !in models {
        models := models + [name];
      }
    }
    assert items[..|items|] == items;
  }

  lemma NoModelNames(env: Env)
    ensures ModelNames(env, []) == []
  {
  }

  const TRUE_WORDS := {"1", "true", "yes", "on", "enabled"}

  /** _boolean_setting with default false: any other text is false. */
  function Boolean(env: Env, v: Value): bool {
    match v
    case Bool(b) => b
    case Int(n) => n != 0
    case Float(r) => r != 0.0
    case Str(s) => env.LowerCase(Strip(s)) in TRUE_WORDS
    case _ => false
  }

  function DeriveMode(hasLocal: bool, hasHosted: bool): string {
    if hasLocal && hasHosted then "hybrid" else if hasHosted then "cloud" else "ollama"
  }

  /** `str(v or fallback)` */
  function OrText(env: Env, v: Value, fallback: string): string {
    if Truthy(v) then env.TextOf(v) else fallback
  }

  predicate ValidCliPath(env: Env, s: string, name: string) {
    && s != "" && |s| <= 1024 && NoControl(s)
    && if s[0] != '/' then s == name
       else env.pathName(s) == name && forall i :: 0 <= i < |s| ==> IsAlphanumeric(s[i]) || s[i] in "._/+-"
  }

  predicate ValidProviderModel(s: string) {
    s != "" && |s| <= 240 && NoControl(s)
  }

  // ----- the Codex roster -----

  /** One entry added to those configured; None when it is not an admissible, new row. */
  function CodexRow(env: Env, raw: Value, configured: map<string, CodexEntry>): Option<map<string, CodexEntry>> {
    if !raw.Obj? then None
    else
      var model := Strip(env.TextOf(Get(raw.fields, Model, Null)));
      var effort := env.LowerCase(Strip(OrText(env, Get(raw.fields, ReasoningEffort, Null), "medium")));
      if model !in CATALOG || effort !in EFFORTS || model in configured then None
      else Some(configured[model := CodexEntry(model, effort, Boolean(env, Get(raw.fields, Enabled, Null)))])
  }

  function CodexRows(env: Env, entries: seq<Value>): Option<map<string, CodexEntry>> {
    if entries == [] then Some(map[])
    else match CodexRows(env, entries[..|entries| - 1])
      case None => None
      case Some(configured) => CodexRow(env, entries[|entries| - 1], configured)
  }

  /** One row per catalog model, disabled where nothing was configured. */
  function CompleteCatalog(configured: map<string, CodexEntry>): seq<CodexEntry> {
    seq(|CATALOG|, i requires 0 <= i < |CATALOG| =>
      if CATALOG[i] in configured then configured[CATALOG[i]] else CodexEntry(CATALOG[i], "medium", false))
  }

  function CodexCatalog(env: Env, v: Value, legacy: CodexEntry): (r: Option<seq<CodexEntry>>)
    ensures r.Some? ==> |r.value| == |CATALOG|
  {
    var entries := if v.Arr? then v.items else [EntryJson(legacy)];
    if |entries| > |CATALOG| then None
    else match CodexRows(env, entries)
      case None => None
      case Some(configured) => Some(CompleteCatalog(configured))
  }

  function EntryJson(e: CodexEntry): Value {
    Obj(map[Model := Str(e.model), ReasoningEffort := Str(e.effort), Enabled := Bool(e.enabled)])
  }

  predicate AnyEnabled(roster: seq<CodexEntry>) {
    exists e <- roster :: e.enabled
  }

  function FirstEnabled(roster: seq<CodexEntry>): (e: CodexEntry)
    requires roster != []
    ensures e in roster && (e.enabled || e == roster[0])
  {
    FirstEnabledOr(roster, roster[0])
  }

  function FirstEnabledOr(roster: seq<CodexEntry>, fallback: CodexEntry): (e: CodexEntry)
    ensures e == fallback || (e in roster && e.enabled)
  {
    if roster == [] then fallback
    else if roster[0].enabled then roster[0]
    else FirstEnabledOr(roster[1..], fallback)
  }

  // ----- initial settings -----

  function NoAssignments(): Assignments { map role | role in ROLE_SET :: "" }

  const GEOIP_DIRECTORY := "~/n8n-local/config/maxmind/"
  const ASN_PATH := GEOIP_DIRECTORY + "GeoLite2-ASN.mmdb"
  const CITY_PATH := GEOIP_DIRECTORY + "GeoLite2-City.mmdb"
  const COUNTRY_PATH := GEOIP_DIRECTORY + "GeoLite2-Country.mmdb"

  function Defaults(env: Env): Settings {
    Settings(
      "ollama", env.defaultModel, [env.defaultModel], env.defaultUrl,
      "codex-cli", "gpt-5.5", "",
      "codex", "gpt-5.5", "medium",
      seq(|CATALOG|, i requires 0 <= i < |CATALOG| => CodexEntry(CATALOG[i], "medium", false)), false,
      false, "hermes", "gpt-5.5", "medium",
      false, "openclaw", "ollama/gemma4:26b-mlx", "medium",
      "informational", "informational", "disabled", Float(5.0),
      map role | role in ROLE_SET :: "ollama:" + env.defaultModel, NoAssignments(), NoAssignments(),
      ASN_PATH, CITY_PATH, COUNTRY_PATH)
  }

  /** A member given in the payload replaces the default as stripped text. */
  function Given(env: Env, p: Fields, key: Key, default: string): string {
    if key in p then Strip(env.TextOf(p[key])) else default
  }

  function Initial(env: Env, p: Fields): Settings {
    var d := Defaults(env);
    d.(
      mode := Given(env, p, Mode, d.mode),
      ollamaModel := Given(env, p, OllamaModel, d.ollamaModel),
      ollamaUrl := Given(env, p, OllamaUrl, d.ollamaUrl),
      cloudProvider := Given(env, p, CloudProvider, d.cloudProvider),
      cloudModel := Given(env, p, CloudModel, d.cloudModel),
      cloudCommand := Given(env, p, CloudCommand, d.cloudCommand),
      codexPath := Given(env, p, CodexCliPath, d.codexPath),
      codexModel := Given(env, p, CodexCliModel, d.codexModel),
      codexEffort := Given(env, p, CodexCliReasoningEffort, d.codexEffort),
      hermesPath := Given(env, p, HermesAgentPath, d.hermesPath),
      hermesModel := Given(env, p, HermesAgentModel, d.hermesModel),
      hermesEffort := Given(env, p, HermesAgentReasoningEffort, d.hermesEffort),
      openclawPath := Given(env, p, OpenclawPath, d.openclawPath),
      openclawModel := Given(env, p, OpenclawModel, d.openclawModel),
      openclawEffort := Given(env, p, OpenclawReasoningEffort, d.openclawEffort),
      analysisSeverity := Given(env, p, AnalysisMinSeverity, d.analysisSeverity),
      pcapSeverity := Given(env, p, PcapMinSeverity, d.pcapSeverity),
      incidentSeverity := Given(env, p, IncidentMinSeverity, d.incidentSeverity),
      captureLoss :=
        if CaptureLossThreshold in p then Str(Strip(env.TextOf(p[CaptureLossThreshold]))) else d.captureLoss,
      asnPath := Given(env, p, GeoipAsnPath, d.asnPath),
      cityPath :=
        if GeoipCityPath !in p && Get(p, GeoipDbPath, Null) != Null then Strip(env.TextOf(p[GeoipDbPath]))
        else Given(env, p, GeoipCityPath, d.cityPath),
      countryPath := Given(env, p, GeoipCountryPath, d.countryPath))
  }

  // ----- providers -----

  function LegacyMode(env: Env, p: Fields, s: Settings): string {
    var mode := env.LowerCase(Strip(OrText(env, Get(p, Mode, Null), s.mode)));
    if mode in {"ollama", "cloud", "hybrid"} then mode else "ollama"
  }

  function OllamaRoster(env: Env, p: Fields, s: Settings): seq<string> {
    if EnabledOllamaModels in p then ModelList(env, p[EnabledOllamaModels])
    else if LegacyMode(env, p, s) == "cloud" then []
    else ModelList(env, Arr([Str(Strip(OrText(env, Get(p, OllamaModel, Null), s.ollamaModel)))]))
  }

  function LegacyGpt(env: Env, p: Fields, s: Settings): bool {
    if GptCliEnabled in p then Boolean(env, p[GptCliEnabled]) else LegacyMode(env, p, s) in {"cloud", "hybrid"}
  }

  predicate UrlOk(url: string) {
    StartsWith(url, "http://") || StartsWith(url, "https://")
  }

  function CodexModelGiven(env: Env, p: Fields, s: Settings): string {
    var a, b := Get(p, CodexCliModel, Null), Get(p, CloudModel, Null);
    Strip(if Truthy(a) then env.TextOf(a) else if Truthy(b) then env.TextOf(b)
          else if s.codexModel != "" then s.codexModel else "gpt-5.5")
  }

  /** _codex_roster: the path and the roster, or a validation error. */
  function CodexSetup(env: Env, p: Fields, s: Settings): (r: Option<(string, seq<CodexEntry>)>)
    ensures r.Some? ==> r.value.1 != []
  {
    var path := Strip(if s.codexPath != "" then s.codexPath else "codex");
    var model := CodexModelGiven(env, p, s);
    var effort := env.LowerCase(Strip(if s.codexEffort != "" then s.codexEffort else "medium"));
    if !ValidCliPath(env, path, "codex") || !ValidProviderModel(model) || effort !in EFFORTS then None
    else match CodexCatalog(env, Get(p, CodexCliModels, Null), CodexEntry(model, effort, LegacyGpt(env, p, s)))
      case None => None
      case Some(roster) => Some((path, roster))
  }

  /** `payload.get(key) if key in payload else settings.get(key)`, or the fallback when empty. */
  function ProviderText(env: Env, p: Fields, key: Key, current: string, fallback: string): string {
    Strip(OrText(env, if key in p then p[key] else Str(current), fallback))
  }

  /** _provider_values written over the settings. */
  function WithProviderValues(env: Env, p: Fields, s: Settings): Settings {
    s.(
      hermesEnabled := Boolean(env, Get(p, HermesAgentEnabled, Null)),
      hermesPath := ProviderText(env, p, HermesAgentPath, s.hermesPath, "hermes"),
      hermesModel := ProviderText(env, p, HermesAgentModel, s.hermesModel, "gpt-5.5"),
      hermesEffort := env.LowerCase(ProviderText(env, p, HermesAgentReasoningEffort, s.hermesEffort, "medium")),
      openclawEnabled := Boolean(env, Get(p, OpenclawEnabled, Null)),
      openclawPath := ProviderText(env, p, OpenclawPath, s.openclawPath, "openclaw"),
      openclawModel := ProviderText(env, p, OpenclawModel, s.openclawModel, "ollama/gemma4:26b-mlx"),
      openclawEffort := env.LowerCase(ProviderText(env, p, OpenclawReasoningEffort, s.openclawEffort, "medium")))
  }

  function RStripSlashes(s: string): (t: string)
    ensures |t| <= |s| && t == s[..|t|]
    ensures forall i :: |t| <= i < |s| ==> s[i] == '/'
    ensures t == "" || t[|t| - 1] != '/'
  {
    if s != "" && s[|s| - 1] == '/' then RStripSlashes(s[..|s| - 1]) else s
  }

  const LOOPBACK_URLS := {"http://127.0.0.1:11434", "http://localhost:11434"}

  predicate ProvidersOk(env: Env, s: Settings) {
    && ValidCliPath(env, s.hermesPath, "hermes")
    && ValidCliPath(env, s.openclawPath, "openclaw")
    && s.hermesModel in CATALOG
    && ValidOpenclawModel(env, s.openclawModel)
    && (s.openclawEnabled ==> RStripSlashes(s.ollamaUrl) in LOOPBACK_URLS)
    && s.hermesEffort == "medium"
    && s.openclawEffort in EFFORTS
  }

  /** _apply_provider_settings */
  function WithProviders(s: Settings, models: seq<string>, path: string, roster: seq<CodexEntry>): Settings
    requires roster != []
  {
    var enabled, gpt := FirstEnabled(roster), AnyEnabled(roster);
    s.(
      models := models, codexModels := roster, gptEnabled := gpt,
      mode := DeriveMode(models != [] || s.openclawEnabled, gpt || s.hermesEnabled),
      ollamaModel := if models != [] then models[0] else s.ollamaModel,
      codexPath := path, codexModel := enabled.model, codexEffort := enabled.effort,
      cloudProvider := "codex-cli", cloudModel := enabled.model, cloudCommand := "")
  }

  /** Every phase up to the agent assignments; None for a validation error. */
  function Provided(env: Env, p: Fields): Option<Settings> {
    var s := Initial(env, p);
    var models := OllamaRoster(env, p, s);
    if !UrlOk(s.ollamaUrl) then None
    else match CodexSetup(env, p, s)
      case None => None
      case Some((path, roster)) =>
        var t := WithProviderValues(env, p, s);
        if !ProvidersOk(env, t) then None
        else if models == [] && !AnyEnabled(roster) && !t.hermesEnabled && !t.openclawEnabled then None
        else Some(WithProviders(t, models, path, roster))
  }

  // ----- agent assignments -----

  /** The routes the settings enable, in order. */
  function EnabledRoutes(s: Settings): seq<Route> {
    seq(|s.models|, i requires 0 <= i < |s.models| => OllamaRoute(s.models[i]))
    + CodexRoutes(s.codexModels)
    + (if s.hermesEnabled then [CliRoute(HermesAgent, s.hermesModel, s.hermesEffort)] else [])
    + (if s.openclawEnabled then [CliRoute(OpenClaw, s.openclawModel, s.openclawEffort)] else [])
  }

  function CodexRoutes(roster: seq<CodexEntry>): seq<Route> {
    if roster == [] then []
    else
      var first := if roster[0].enabled then [CliRoute(CodexCli, roster[0].model, roster[0].effort)] else [];
      first + CodexRoutes(roster[1..])
  }

  function Printed(routes: seq<Route>): (r: seq<string>)
    ensures |r| == |routes|
  {
    seq(|routes|, i requires 0 <= i < |routes| => Print(routes[i]))
  }

  function RoutesOf(s: Settings): seq<string> { Printed(EnabledRoutes(s)) }

  function RawAssignments(v: Value): Fields {
    if v.Obj? then v.fields else map[]
  }

  function PrimaryFor(env: Env, raw: Fields, routes: seq<string>, role: Role): string
    requires routes != []
  {
    var route := Canonical(env, Get(raw, RoleMember(role), Null), routes);
    if route in routes then route else routes[0]
  }

  /** None where an identity cannot be read. */
  function ReviewerFor(env: Env, raw: Fields, routes: seq<string>, primary: string, codexModel: string,
      role: Role): Option<string> {
    var route := Canonical(env, Get(raw, RoleMember(role), Null), routes);
    var identity, primaryIdentity := Identity(env, route, codexModel), Identity(env, primary, codexModel);
    if identity.None? || primaryIdentity.None? then None
    else Some(if route in routes && identity != primaryIdentity then route else "")
  }

  function AdjudicatorFor(env: Env, raw: Fields, routes: seq<string>, primary: string, reviewer: string,
      codexModel: string, role: Role): Option<string> {
    var route := Canonical(env, Get(raw, RoleMember(role), Null), routes);
    var identity := Identity(env, route, codexModel);
    var primaryIdentity, reviewerIdentity := Identity(env, primary, codexModel), Identity(env, reviewer, codexModel);
    if identity.None? || primaryIdentity.None? || reviewerIdentity.None? then None
    else Some(if route in routes && identity != Some("") && identity != primaryIdentity && identity != reviewerIdentity
              then route else "")
  }

  function Collected(f: Role -> Option<string>): Option<Assignments> {
    if exists role <- ROLE_SET :: f(role).None? then None else Some(map role | role in ROLE_SET :: f(role).value)
  }

  function At(a: Assignments, role: Role): string { if role in a then a[role] else "" }

  function Primaries(env: Env, v: Value, routes: seq<string>): Assignments
    requires routes != []
  {
    map role | role in ROLE_SET :: PrimaryFor(env, RawAssignments(v), routes, role)
  }

  function Reviewers(env: Env, v: Value, routes: seq<string>, primary: Assignments,
      codexModel: string): Option<Assignments> {
    Collected(role => ReviewerFor(env, RawAssignments(v), routes, At(primary, role), codexModel, role))
  }

  function Adjudicators(env: Env, v: Value, routes: seq<string>, primary: Assignments, reviewer: Assignments,
      codexModel: string): Option<Assignments> {
    Collected(role => AdjudicatorFor(env, RawAssignments(v), routes, At(primary, role), At(reviewer, role),
        codexModel, role))
  }

  /** _apply_agent_assignments; None where it raises. */
  function Assigned(env: Env, p: Fields, s: Settings): Option<Settings>
    requires EnabledRoutes(s) != []
  {
    var routes := RoutesOf(s);
    var primary := Primaries(env, Get(p, AgentModels, Null), routes);
    var reviewer := Reviewers(env, Get(p, AgentSecondOpinionModels, Null), routes, primary, s.codexModel);
    if reviewer.None? then None
    else
      var adjudicator :=
        Adjudicators(env, Get(p, AgentAdjudicatorModels, Null), routes, primary, reviewer.value, s.codexModel);
      if adjudicator.None? then None
      else Some(s.(primary := primary, reviewer := reviewer.value, adjudicator := adjudicator.value))
  }

  // ----- thresholds, capture loss, paths, compatibility values -----

  const SEVERITIES := {"disabled", "critical", "high", "medium", "low", "informational"}

  function Severity(env: Env, s: string): Option<string> {
    var t := env.LowerCase(Strip(s));
    var u := if t == "info" then "informational" else t;
    if u in SEVERITIES then Some(u) else None
  }

  /** round(r, 4), ties to even. */
  function Round4(r: real): real {
    var x := r * 10000.0;
    var n := x.Floor;
    var d := x - n as real;
    (if d < 0.5 || (d == 0.5 && n % 2 == 0) then n else n + 1) as real / 10000.0
  }

  function CaptureLoss(env: Env, v: Value): Option<real> {
    var r := match v
      case Float(x) => Some(x)
      case Str(s) => env.parseFloat(s)
      case _ => None;
    if r.Some? && 0.1 <= r.value <= 100.0 then Some(Round4(r.value)) else None
  }

  predicate GeoipPathOk(env: Env, s: string) {
    |s| <= 1024 && NoControl(s) && (StartsWith(s, "/") || StartsWith(s, "~/")) && env.mmdbSuffix(s)
  }

  function Shortened(s: Settings): Settings {
    s.(
      ollamaModel := Truncate(s.ollamaModel, 240), ollamaUrl := Truncate(s.ollamaUrl, 240),
      cloudProvider := Truncate(s.cloudProvider, 240), cloudModel := Truncate(s.cloudModel, 240),
      cloudCommand := Truncate(s.cloudCommand, 240), codexModel := Truncate(s.codexModel, 240),
      codexEffort := Truncate(s.codexEffort, 240), hermesModel := Truncate(s.hermesModel, 240),
      hermesEffort := Truncate(s.hermesEffort, 240), openclawModel := Truncate(s.openclawModel, 240),
      openclawEffort := Truncate(s.openclawEffort, 240))
  }

  /** The phases after the assignments. */
  function Finished(env: Env, s: Settings): Option<Settings> {
    var analysis, pcap, incident :=
      Severity(env, s.analysisSeverity), Severity(env, s.pcapSeverity), Severity(env, s.incidentSeverity);
    var loss := CaptureLoss(env, s.captureLoss);
    if analysis.None? || pcap.None? || incident.None? || loss.None? then None
    else if !GeoipPathOk(env, s.asnPath) || !GeoipPathOk(env, s.cityPath) || !GeoipPathOk(env, s.countryPath) then None
    else Some(Shortened(s.(
      analysisSeverity := analysis.value, pcapSeverity := pcap.value, incidentSeverity := incident.value,
      captureLoss := Float(loss.value))))
  }

  /** Some provider is enabled, so there is a first route to fall back on. */
  lemma ProvidedHasRoutes(env: Env, p: Fields)
    ensures Provided(env, p).Some? ==> EnabledRoutes(Provided(env, p).value) != []
  {
    hide Initial, OllamaRoster, CodexSetup, WithProviderValues, ProvidersOk, UrlOk, FirstEnabled, DeriveMode;
    if Provided(env, p).Some? {
      EnabledHasRoutes(Provided(env, p).value.codexModels);
    }
  }

  lemma {:induction false} EnabledHasRoutes(roster: seq<CodexEntry>)
    ensures AnyEnabled(roster) <==> CodexRoutes(roster) != []
  {
    if roster != [] {
      EnabledHasRoutes(roster[1..]);
      assert roster == [roster[0]] + roster[1..];
    }
  }

  /** normalize_soc_ai_settings */
  function Normalize(env: Env, payload: Value): Outcome {
    var p := if payload.Obj? then payload.fields else map[];
    match Provided(env, p)
    case None => Rejected
    case Some(s) =>
      ProvidedHasRoutes(env, p);
      match Assigned(env, p, s) {
        case None => Raised
        case Some(t) => match Finished(env, t) {
          case None => Rejected
          case Some(u) => Accepted(u)
        }
      }
  }

  // ----- the settings rewritten in place -----

  /** The settings dictionary of one normalisation. */
  class SettingsDraft {
    var settings: Settings

    constructor (env: Env, p: Fields)
      ensures settings == Initial(env, p)
    {
      settings := Initial(env, p);
    }

    method ApplyProviderSettings(env: Env, p: Fields, models: seq<string>, path: string, roster: seq<CodexEntry>)
      requires roster != []
      modifies this
      ensures settings == WithProviders(WithProviderValues(env, p, old(settings)), models, path, roster)
    {
      settings := WithProviderValues(env, p, settings);
      var gpt := AnyEnabled(roster);
      settings := settings.(models := models, codexModels := roster, gptEnabled := gpt);
      settings :=
        settings.(mode := DeriveMode(models != [] || settings.openclawEnabled, gpt || settings.hermesEnabled));
      if models != [] { settings := settings.(ollamaModel := models[0]); }
      var enabled := FirstEnabled(roster);
      settings := settings.(codexPath := path, codexModel := enabled.model, codexEffort := enabled.effort);
      settings := settings.(cloudProvider := "codex-cli", cloudModel := enabled.model, cloudCommand := "");
    }

    /** False where an identity raises. */
    method ApplyAgentAssignments(env: Env, p: Fields) returns (ok: bool)
      requires EnabledRoutes(settings) != []
      modifies this
      ensures ok <==> Assigned(env, p, old(settings)).Some?
      ensures settings == if ok then Assigned(env, p, old(settings)).value else old(settings)
    {
      var routes := RoutesOf(settings);
      var primary := Primaries(env, Get(p, AgentModels, Null), routes);
      var reviewer := Reviewers(env, Get(p, AgentSecondOpinionModels, Null), routes, primary, settings.codexModel);
      if reviewer.None? { return false; }
      var adjudicator :=
        Adjudicators(env, Get(p, AgentAdjudicatorModels, Null), routes, primary, reviewer.value, settings.codexModel);
      if adjudicator.None? { return false; }
      settings := settings.(primary := primary);
      settings := settings.(reviewer := reviewer.value);
      settings := settings.(adjudicator := adjudicator.value);
      ok := true;
    }

    /** Thresholds, capture loss, paths, then the cut to 240 characters; false on a validation error. */
    method Finish(env: Env) returns (ok: bool)
      modifies this
      ensures ok <==> Finished(env, old(settings)).Some?
      ensures ok ==> settings == Finished(env, old(settings)).value
    {
      hide Env.LowerCase, Strip, GeoipPathOk, Round4;
      var analysis := Severity(env, settings.analysisSeverity);
      if analysis.None? { return false; }
      settings := settings.(analysisSeverity := analysis.value);
      var pcap := Severity(env, settings.pcapSeverity);
      if pcap.None? { return false; }
      settings := settings.(pcapSeverity := pcap.value);
      var incident := Severity(env, settings.incidentSeverity);
      if incident.None? { return false; }
      settings := settings.(incidentSeverity := incident.value);
      var loss := CaptureLoss(env, settings.captureLoss);
      if loss.None? { return false; }
      settings := settings.(captureLoss := Float(loss.value));
      if !GeoipPathOk(env, settings.asnPath) || !GeoipPathOk(env, settings.cityPath)
        || !GeoipPathOk(env, settings.countryPath) {
        return false;
      }
      settings := Shortened(settings);
      ok := true;
    }
  }

  method NormalizeSettings(env: Env, payload: Value) returns (outcome: Outcome)
    ensures outcome == Normalize(env, payload)
  {
    hide Initial, CodexSetup, WithProviderValues, WithProviders, ProvidersOk, Assigned, Finished, UrlOk,
        EnabledRoutes, ModelList, LegacyMode;
    var p := if payload.Obj? then payload.fields else map[];
    ProvidedHasRoutes(env, p);
    var draft := new SettingsDraft(env, p);
    var models := OllamaRoster(env, p, draft.settings);
    if !UrlOk(draft.settings.ollamaUrl) { return Rejected; }
    var setup := CodexSetup(env, p, draft.settings);
    if setup.None? { return Rejected; }
    var (path, roster) := setup.value;
    var provided := WithProviderValues(env, p, draft.settings);
    if !ProvidersOk(env, provided) { return Rejected; }
    if models == [] && !AnyEnabled(roster) && !provided.hermesEnabled && !provided.openclawEnabled { return Rejected; }
    draft.ApplyProviderSettings(env, p, models, path, roster);
    var placed := draft.ApplyAgentAssignments(env, p);
    if !placed { return Raised; }
    var finished := draft.Finish(env);
    outcome := if finished then Accepted(draft.settings) else Rejected;
  }
}
