/** The stored form of the AI settings, said without the normaliser, and that normalisation leaves exactly the
    settings in this form as they are. */
module AiForms {
  import opened Values
  import opened AiRoutes
  import opened AiSettings
  import opened AiNormal
  import opened AiFixed

  // ----- texts -----

  predicate Printing(s: string) {
    forall i :: 0 <= i < |s| ==> s[i] as int >= 32 && s[i] as int != 127
  }

  /** The program's own name, or an absolute path to it in plain characters. */
  predicate ProgramPath(env: Env, s: string, name: string) {
    && s != "" && |s| <= 1024 && Printing(s) && Tight(s)
    && ((s == name && s[0] != '/')
        || (s[0] == '/' && env.pathName(s) == name
            && forall i :: 0 <= i < |s| ==>
                 || 'a' <= s[i] <= 'z' || 'A' <= s[i] <= 'Z' || '0' <= s[i] <= '9'
                 || s[i] == '.' || s[i] == '_' || s[i] == '/' || s[i] == '+' || s[i] == '-'))
  }

  lemma PathsAreProper(env: Env, s: string, name: string)
    ensures ValidCliPath(env, s, name) && Tight(s) <==> ProgramPath(env, s, name)
  {
    hide Tight;
  }

  /** A GeoIP database: a path from the root or from home, with the suffix of such files. */
  predicate DatabasePath(env: Env, s: string) {
    && 1 <= |s| <= 1024 && Printing(s) && Tight(s) && env.mmdbSuffix(s)
    && (s[0] == '/' || (|s| >= 2 && s[0] == '~' && s[1] == '/'))
  }

  lemma DatabasesAreProper(env: Env, s: string)
    ensures GeoipPathOk(env, s) && Tight(s) <==> DatabasePath(env, s)
  {
    hide Tight;
  }

  /** "ollama/" in any case and a name, of at most 240 letters, digits and the six marks, the first character
      a letter or digit. */
  predicate LocalModelName(env: Env, s: string) {
    && 8 <= |s| <= 240 && "ollama/" <= env.LowerCase(s)
    && ('a' <= s[0] <= 'z' || 'A' <= s[0] <= 'Z' || '0' <= s[0] <= '9')
    && forall i :: 0 <= i < |s| ==>
         || 'a' <= s[i] <= 'z' || 'A' <= s[i] <= 'Z' || '0' <= s[i] <= '9'
         || s[i] == '.' || s[i] == '_' || s[i] == ':' || s[i] == '/' || s[i] == '+' || s[i] == '-'
  }

  lemma LocalNamesAreProper(env: Env, s: string)
    ensures ValidOpenclawModel(env, s) <==> LocalModelName(env, s)
  {
    hide Env.LowerCase;
  }

  /** At most 32 local models, each a printing name of at most 240 characters without blanks around it, and none
      twice. */
  predicate ProperModels(models: seq<string>) {
    && |models| <= 32
    && (forall i :: 0 <= i < |models| ==>
          models[i] != "" && Tight(models[i]) && |models[i]| <= 240 && Printing(models[i]))
    && forall i, j :: 0 <= i < j < |models| ==> models[i] != models[j]
  }

  lemma ModelsAreProper(models: seq<string>)
    ensures ModelsNormal(models) && (forall i :: 0 <= i < |models| ==> Tight(models[i])) <==> ProperModels(models)
  {
  }

  // ----- providers -----

  /** The first enabled row of the roster, or the first if none is. */
  predicate IsChosen(roster: seq<CodexEntry>, e: CodexEntry) {
    || (exists i :: 0 <= i < |roster| && roster[i] == e && e.enabled && forall j :: 0 <= j < i ==> !roster[j].enabled)
    || (roster != [] && e == roster[0] && forall j :: 0 <= j < |roster| ==> !roster[j].enabled)
  }

  lemma {:induction false} ChosenFrom(roster: seq<CodexEntry>, fallback: CodexEntry)
    ensures var e := FirstEnabledOr(roster, fallback);
      || (exists i :: 0 <= i < |roster| && roster[i] == e && e.enabled && forall j :: 0 <= j < i ==> !roster[j].enabled)
      || (e == fallback && forall j :: 0 <= j < |roster| ==> !roster[j].enabled)
  {
    if roster != [] && !roster[0].enabled {
      ChosenFrom(roster[1..], fallback);
      var e := FirstEnabledOr(roster[1..], fallback);
      assert forall j :: 1 <= j < |roster| ==> roster[j] == roster[1..][j - 1];
      if i :| 0 <= i < |roster| - 1 && roster[1..][i] == e && e.enabled
              && forall j :: 0 <= j < i ==> !roster[1..][j].enabled {
        assert roster[i + 1] == e;
        assert forall j :: 0 <= j < i + 1 ==> !roster[j].enabled;
      }
    }
  }

  lemma ChosenIsFirst(roster: seq<CodexEntry>, e: CodexEntry)
    requires roster != []
    ensures IsChosen(roster, e) <==> e == FirstEnabled(roster)
  {
    ChosenFrom(roster, roster[0]);
  }

  /** One row for each model of the catalog, in its order, with a known effort. */
  predicate ProperRoster(roster: seq<CodexEntry>) {
    && |roster| == 4
    && roster[0].model == "gpt-5.5" && roster[1].model == "gpt-5.6-sol" && roster[2].model == "gpt-5.6-terra"
    && roster[3].model == "gpt-5.6-luna"
    && forall i :: 0 <= i < 4 ==> roster[i].effort in {"low", "medium", "high", "xhigh"}
  }

  lemma RostersAreProper(roster: seq<CodexEntry>)
    ensures RosterNormal(roster) <==> ProperRoster(roster)
  {
  }

  /** The address of the local Ollama service, but for slashes at its end. */
  predicate Loopback(url: string) {
    exists n :: 0 <= n <= |url| && (url[..n] == "http://127.0.0.1:11434" || url[..n] == "http://localhost:11434")
                && forall i :: n <= i < |url| ==> url[i] == '/'
  }

  lemma LoopbackExactly(url: string)
    ensures RStripSlashes(url) in LOOPBACK_URLS <==> Loopback(url)
  {
    var base := RStripSlashes(url);
    if base in LOOPBACK_URLS { assert url[..|base|] == base; }
    if Loopback(url) {
      var n :| 0 <= n <= |url| && (url[..n] == "http://127.0.0.1:11434" || url[..n] == "http://localhost:11434")
                && forall i :: n <= i < |url| ==> url[i] == '/';
      LoopbackEnds();
      assert url[n - 1] == url[..n][n - 1] == '4';
      assert |base| == n;
    }
  }

  lemma LoopbackEnds()
    ensures |"http://127.0.0.1:11434"| == 22 && "http://127.0.0.1:11434"[21] == '4'
    ensures |"http://localhost:11434"| == 22 && "http://localhost:11434"[21] == '4'
  {
  }

  predicate ModeOf(mode: string, local: bool, hosted: bool) {
    if local && hosted then mode == "hybrid" else if hosted then mode == "cloud" else mode == "ollama"
  }

  predicate SomeEnabled(roster: seq<CodexEntry>) {
    exists i :: 0 <= i < |roster| && roster[i].enabled
  }

  lemma SomeIsAny(roster: seq<CodexEntry>)
    ensures SomeEnabled(roster) <==> AnyEnabled(roster)
  {
    if SomeEnabled(roster) {
      var i :| 0 <= i < |roster| && roster[i].enabled;
      assert roster[i] in roster;
    }
  }

  /** The three programs, and the models Hermes and OpenClaw are set to. */
  predicate ProperHarnesses(env: Env, t: Settings) {
    && (t.openclawEnabled ==> Loopback(t.ollamaUrl))
    && ProgramPath(env, t.codexPath, "codex") && ProgramPath(env, t.hermesPath, "hermes")
    && ProgramPath(env, t.openclawPath, "openclaw")
    && t.hermesModel in {"gpt-5.5", "gpt-5.6-sol", "gpt-5.6-terra", "gpt-5.6-luna"} && t.hermesEffort == "medium"
    && LocalModelName(env, t.openclawModel) && t.openclawEffort in {"low", "medium", "high", "xhigh"}
  }

  lemma HarnessesAreProper(env: Env, t: Settings)
    ensures ProperHarnesses(env, t) <==>
      && ValidCliPath(env, t.codexPath, "codex") && Tight(t.codexPath)
      && ProvidersOk(env, t) && Tight(t.hermesPath) && Tight(t.openclawPath)
  {
    PathsAreProper(env, t.codexPath, "codex");
    PathsAreProper(env, t.hermesPath, "hermes");
    PathsAreProper(env, t.openclawPath, "openclaw");
    LocalNamesAreProper(env, t.openclawModel);
    LoopbackExactly(t.ollamaUrl);
    CatalogIs(t.hermesModel);
    hide ProgramPath, ValidCliPath, ValidOpenclawModel, LocalModelName, Loopback, RStripSlashes, LOOPBACK_URLS, CATALOG,
      Tight;
  }

  /** The providers: models and roster in order, at least one route, and every derived value derived. */
  predicate ProperProviders(env: Env, t: Settings) {
    var gpt := SomeEnabled(t.codexModels);
    && ProperModels(t.models) && ProperRoster(t.codexModels)
    && t.gptEnabled == gpt
    && (t.models != [] || gpt || t.hermesEnabled || t.openclawEnabled)
    && ModeOf(t.mode, t.models != [] || t.openclawEnabled, gpt || t.hermesEnabled)
    && (t.models != [] ==> t.ollamaModel == t.models[0]) && |t.ollamaModel| <= 240 && Tight(t.ollamaModel)
    && IsChosen(t.codexModels, CodexEntry(t.codexModel, t.codexEffort, gpt))
    && t.cloudProvider == "codex-cli" && t.cloudModel == t.codexModel && t.cloudCommand == ""
    && ("http://" <= t.ollamaUrl || "https://" <= t.ollamaUrl) && |t.ollamaUrl| <= 240 && Tight(t.ollamaUrl)
    && ProperHarnesses(env, t)
  }

  lemma ChosenTexts(roster: seq<CodexEntry>, model: string, effort: string)
    requires roster != []
    ensures IsChosen(roster, CodexEntry(model, effort, SomeEnabled(roster)))
            <==> model == FirstEnabled(roster).model && effort == FirstEnabled(roster).effort
  {
    ChosenIsFirst(roster, CodexEntry(model, effort, SomeEnabled(roster)));
    EnabledOfFirst(roster);
    hide IsChosen, FirstEnabled, SomeEnabled;
  }

  lemma EnabledOfFirst(roster: seq<CodexEntry>)
    requires roster != []
    ensures FirstEnabled(roster).enabled <==> SomeEnabled(roster)
  {
    ChosenFrom(roster, roster[0]);
    hide FirstEnabledOr;
  }

  lemma CatalogIs(model: string)
    ensures model in CATALOG <==> model in {"gpt-5.5", "gpt-5.6-sol", "gpt-5.6-terra", "gpt-5.6-luna"}
  {
  }

  /** The normal form of the providers, with short names and URL that end in no blank, is the proper one. */
  lemma ProvidersAreProper(env: Env, t: Settings)
    ensures ProvidersNormal(env, t) && Settled(t) && |t.ollamaModel| <= 240 && |t.ollamaUrl| <= 240
            <==> ProperProviders(env, t)
  {
    ModelsAreProper(t.models);
    RostersAreProper(t.codexModels);
    HarnessesAreProper(env, t);
    SomeIsAny(t.codexModels);
    ModeIsDerived(t.mode, t.models != [] || t.openclawEnabled, SomeEnabled(t.codexModels) || t.hermesEnabled);
    if t.codexModels != [] { ChosenTexts(t.codexModels, t.codexModel, t.codexEffort); }
    assert RosterNormal(t.codexModels) ==> t.codexModels != [];
    hide ModelsNormal, ProperModels, RosterNormal, ProperRoster, ProperHarnesses, ProvidersOk, ValidCliPath,
      FirstEnabled, IsChosen, Tight, AnyEnabled, SomeEnabled, DeriveMode, ModeOf;
  }

  lemma ModeIsDerived(mode: string, local: bool, hosted: bool)
    ensures mode == DeriveMode(local, hosted) <==> ModeOf(mode, local, hosted)
  {
  }

  // ----- the rest -----

  predicate KnownSeverity(s: string) {
    s in {"disabled", "informational", "low", "medium", "high", "critical"}
  }

  /** Severities, the loss threshold and the database paths. */
  predicate ProperPolicy(env: Env, t: Settings) {
    && KnownSeverity(t.analysisSeverity) && KnownSeverity(t.pcapSeverity) && KnownSeverity(t.incidentSeverity)
    && t.captureLoss.Float? && 0.1 <= t.captureLoss.r <= 100.0 && FourDecimals(t.captureLoss.r)
    && DatabasePath(env, t.asnPath) && DatabasePath(env, t.cityPath) && DatabasePath(env, t.countryPath)
  }

  lemma RoundedIsFourDecimals(r: real)
    ensures Round4(r) == r <==> FourDecimals(r)
  {
    Round4IsRound(r);
    if FourDecimals(r) {
      var x := r * 10000.0;
      assert x - x.Floor as real == 0.0;
    }
  }

  lemma PolicyIsProper(env: Env, t: Settings)
    ensures RestNormal(env, t) <==> ProperPolicy(env, t) && |t.ollamaModel| <= 240 && |t.ollamaUrl| <= 240
  {
    DatabasesAreProper(env, t.asnPath);
    DatabasesAreProper(env, t.cityPath);
    DatabasesAreProper(env, t.countryPath);
    if t.captureLoss.Float? { RoundedIsFourDecimals(t.captureLoss.r); }
    hide GeoipPathOk, DatabasePath, Tight, Round4, FourDecimals;
  }

  /** Settings are stored and read back unchanged exactly when they are proper: providers and policy in stored
      form, and every role assigned enabled routes of different identities. */
  lemma StoredExactlyWhenProper(env: Env, t: Settings)
    requires env.Lawful()
    ensures Normalize(env, StoredJson(t)) == Accepted(t)
            <==> ProperProviders(env, t) && ProperPolicy(env, t) && AssignmentsNormal(env, t)
  {
    hide Normalize, StoredJson, ProvidersNormal, RestNormal, AssignmentsNormal, ProperProviders, ProperPolicy, Settled,
      Env.Lawful;
    ProvidersAreProper(env, t);
    PolicyIsProper(env, t);
    if Normalize(env, StoredJson(t)) == Accepted(t) {
      AcceptedIsNormal(env, StoredJson(t));
      FixedExactlyWhenSettled(env, StoredJson(t));
      NamesFit(env, t);
    } else if ProvidersNormal(env, t) && RestNormal(env, t) && AssignmentsNormal(env, t) && Settled(t) {
      SettledIsFixed(env, t);
    }
  }

  lemma NamesFit(env: Env, t: Settings)
    requires RestNormal(env, t)
    ensures |t.ollamaModel| <= 240 && |t.ollamaUrl| <= 240
  {
  }
}
