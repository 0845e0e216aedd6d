/** What accepted AI settings and per-agent saves mean in terms of routes and the models they run. */
module AiAgents {
  import opened Prelude
  import opened Values
  import opened AiRoutes
  import opened AiSettings
  import opened AiNormal
  import opened AiStore
  import opened AiRoster

  // ----- the mode -----

  ghost predicate SomeLocal(env: Env, routes: seq<Route>) {
    exists r :: r in routes && Runs(env, r).Local?
  }

  ghost predicate SomeHosted(env: Env, routes: seq<Route>) {
    exists r :: r in routes && Runs(env, r).Hosted?
  }

  lemma {:induction false} CodexRoutesAreHosted(env: Env, roster: seq<CodexEntry>, r: Route)
    requires r in CodexRoutes(roster)
    ensures Runs(env, r).Hosted?
  {
    if !(roster[0].enabled && r == CliRoute(CodexCli, roster[0].model, roster[0].effort)) {
      CodexRoutesAreHosted(env, roster[1..], r);
    }
  }

  /** Local models run where an Ollama model or OpenClaw is enabled, hosted ones where Codex or Hermes is. */
  lemma RoutesBySort(env: Env, t: Settings)
    ensures SomeLocal(env, EnabledRoutes(t)) <==> t.models != [] || t.openclawEnabled
    ensures SomeHosted(env, EnabledRoutes(t)) <==> AnyEnabled(t.codexModels) || t.hermesEnabled
  {
    hide AnyEnabled, CodexRoutes, Env.LowerCase, TrimEnd;
    var routes := EnabledRoutes(t);
    EnabledHasRoutes(t.codexModels);
    forall r | r in CodexRoutes(t.codexModels) ensures Runs(env, r).Hosted? {
      CodexRoutesAreHosted(env, t.codexModels, r);
    }
    if t.models != [] { assert routes[0] == OllamaRoute(t.models[0]) && routes[0] in routes; }
    if t.openclawEnabled {
      assert routes[|routes| - 1] == CliRoute(OpenClaw, t.openclawModel, t.openclawEffort);
      assert routes[|routes| - 1] in routes;
    }
    if AnyEnabled(t.codexModels) {
      assert CodexRoutes(t.codexModels)[0] in routes;
    }
    if t.hermesEnabled {
      assert CliRoute(HermesAgent, t.hermesModel, t.hermesEffort) in routes;
    }
    forall r | r in routes
      ensures Runs(env, r).Local? ==> t.models != [] || t.openclawEnabled
      ensures Runs(env, r).Hosted? ==> AnyEnabled(t.codexModels) || t.hermesEnabled
    {
      if r in CodexRoutes(t.codexModels) { assert CodexRoutes(t.codexModels) != []; }
    }
  }

  /** The mode of accepted settings says which models their routes run: local ones only, hosted ones only, or
      both. */
  lemma ModeMeans(env: Env, payload: Value)
    requires Normalize(env, payload).Accepted?
    ensures var t := Normalize(env, payload).settings;
      var someLocal, someHosted := SomeLocal(env, EnabledRoutes(t)), SomeHosted(env, EnabledRoutes(t));
      && (t.mode == "ollama" <==> someLocal && !someHosted)
      && (t.mode == "cloud" <==> someHosted && !someLocal)
      && (t.mode == "hybrid" <==> someLocal && someHosted)
      && (t.gptEnabled <==> exists r :: r in EnabledRoutes(t) && r.CliRoute? && r.harness == CodexCli)
  {
    hide Normalize, AssignmentsNormal, RestNormal, ModelsNormal, RosterNormal, FirstEnabled, ProvidersOk, UrlOk, Tight,
      ValidCliPath, EnabledRoutes, SomeLocal, SomeHosted, AnyEnabled;
    AcceptedIsNormal(env, payload);
    var t := Normalize(env, payload).settings;
    RoutesBySort(env, t);
    ModesDiffer();
    CodexIsEnabled(env, t);
  }

  lemma ModesDiffer()
    ensures |"ollama"| == 6 && |"cloud"| == 5 && |"hybrid"| == 6 && "ollama"[0] == 'o' && "hybrid"[0] == 'h'
  {
  }

  lemma CodexIsEnabled(env: Env, t: Settings)
    ensures AnyEnabled(t.codexModels) <==> exists r :: r in EnabledRoutes(t) && r.CliRoute? && r.harness == CodexCli
  {
    hide AnyEnabled, CodexRoutes;
    EnabledHasRoutes(t.codexModels);
    var codex := CodexRoutes(t.codexModels);
    if codex != [] {
      CodexRouteIsCodex(t.codexModels, codex[0]);
      assert codex[0] in EnabledRoutes(t);
    }
  }

  lemma {:induction false} CodexRouteIsCodex(roster: seq<CodexEntry>, r: Route)
    requires r in CodexRoutes(roster)
    ensures r.CliRoute? && r.harness == CodexCli
  {
    if !(roster[0].enabled && r == CliRoute(CodexCli, roster[0].model, roster[0].effort)) {
      CodexRouteIsCodex(roster[1..], r);
    }
  }

  // ----- a request for one agent -----

  lemma RoleNamesDiffer(a: Role, b: Role)
    ensures RoleName(a) == RoleName(b) ==> a == b
  {
    assert |RoleName(SocAnalyst)| == 11 && |RoleName(IncidentResponder)| == 18 && |RoleName(SiemEngineer)| == 13;
    assert |RoleName(CyberThreatIntel)| == 18 && |RoleName(ThreatHunter)| == 13;
    assert RoleName(IncidentResponder)[0] == 'i' && RoleName(CyberThreatIntel)[0] == 'c';
    assert RoleName(SiemEngineer)[0] == 's' && RoleName(ThreatHunter)[0] == 't';
  }

  lemma {:induction false} RoleNamedFrom(name: string, n: nat, role: Role)
    requires n <= |ROLES|
    ensures RoleNamed(name, n) == Some(role) ==> RoleName(role) == name
    ensures role in ROLES[n..] && RoleName(role) == name ==> RoleNamed(name, n) == Some(role)
    decreases |ROLES| - n
  {
    hide RoleName;
    if n < |ROLES| {
      assert ROLES[n..] == [ROLES[n]] + ROLES[n + 1..];
      RoleNamedFrom(name, n + 1, role);
      RoleNamesDiffer(ROLES[n], role);
    }
  }

  /** A text names the role with that name and no other. */
  lemma RoleNamedExactly(name: string, role: Role)
    ensures RoleNamed(name, 0) == Some(role) <==> RoleName(role) == name
  {
    hide RoleName, RoleNamed;
    RoleNamedFrom(name, 0, role);
    assert role in ROLES[0..] by { AllRoles(role); }
  }

  lemma AllRoles(role: Role)
    ensures role in ROLES && ROLES[0..] == ROLES
  {
    assert role == ROLES[match role case SocAnalyst => 0 case IncidentResponder => 1 case SiemEngineer => 2
                         case CyberThreatIntel => 3 case ThreatHunter => 4];
  }

  /** The request is for this role and names these routes, an absent one by an empty text. */
  predicate Requests(env: Env, payload: Value, role: Role, p: Route, r: Option<Route>, a: Option<Route>) {
    && payload.Obj?
    && Get(payload.fields, RoleField, Null) == Str(RoleName(role))
    && Get(payload.fields, ModelRoute, Null) == Str(Print(p))
    && Get(payload.fields, SecondOpinionModelRoute, Null) == Str(OptionalText(r))
    && Get(payload.fields, AdjudicatorModelRoute, Null) == Str(OptionalText(a))
    && (r.None? ==> !Truthy(Get(payload.fields, SecondOpinionModel, Null)))
    && (a.None? ==> !Truthy(Get(payload.fields, AdjudicatorModel, Null)))
  }

  predicate ShortAndTight(x: Option<Route>) {
    x.Some? ==> Tight(Print(x.value)) && Print(x.value) != "" && |Print(x.value)| <= 260
  }

  lemma RouteTextReads(env: Env, text: string, other: Value)
    requires Tight(text) && |text| <= 260
    ensures text != "" ==> RouteText(env, Str(text), other) == text
    ensures text == "" && !Truthy(other) ==> RouteText(env, Str(text), other) == text
  {
    assert Strip("") == "" by { assert |Strip("")| <= 0; }
  }

  lemma RequestReads(env: Env, payload: Value, role: Role, p: Route, r: Option<Route>, a: Option<Route>)
    requires Requests(env, payload, role, p, r, a)
    requires ShortAndTight(Some(p)) && ShortAndTight(r) && ShortAndTight(a)
    ensures AgentRequest(env, payload) == Request(Some(role), Print(p), OptionalText(r), OptionalText(a))
  {
    hide Print, RouteText, RoleName, RoleNamed, Strip, Tight;
    var f := payload.fields;
    RoleNamedExactly(RoleName(role), role);
    assert Strip(env.TextOf(Str(RoleName(role)))) == RoleName(role) by { RoleNameIsText(env, role); }
    assert Tight("") by { NothingIsTight(); }
    RouteTextReads(env, Print(p), Get(f, Model, Null));
    RouteTextReads(env, OptionalText(r), Get(f, SecondOpinionModel, Null));
    RouteTextReads(env, OptionalText(a), Get(f, AdjudicatorModel, Null));
  }

  lemma NothingIsTight()
    ensures Tight("")
  {
  }

  lemma RoleNameIsText(env: Env, role: Role)
    ensures Strip(env.TextOf(Str(RoleName(role)))) == RoleName(role)
  {
    var name := RoleName(role);
    assert name != "" && !IsSpace(name[0]) && !IsSpace(name[|name| - 1]);
    assert Tight(name);
    hide Strip;
  }

  // ----- what a per-agent save does -----

  /** The three routes run pairwise different models. */
  predicate RunApart(env: Env, p: Route, r: Option<Route>, a: Option<Route>) {
    && (r.Some? ==> Runs(env, r.value) != Runs(env, p))
    && (a.Some? ==> Runs(env, a.value) != Runs(env, p))
    && (a.Some? && r.Some? ==> Runs(env, a.value) != Runs(env, r.value))
  }

  lemma IndependentExactly(env: Env, s: Settings, role: Option<Role>, p: Route, r: Option<Route>, a: Option<Route>)
    requires Enableable(env, p) && (r.Some? ==> Enableable(env, r.value)) && (a.Some? ==> Enableable(env, a.value))
    requires ShortAndTight(r) && ShortAndTight(a)
    ensures RoutesIndependent(env, s, Request(role, Print(p), OptionalText(r), OptionalText(a)))
            <==> RunApart(env, p, r, a)
  {
    hide Identity, Print, Runs, Enableable, Tight, ProviderName;
    RouteIdentity(env, Some(p), s.codexModel);
    RouteIdentity(env, r, s.codexModel);
    RouteIdentity(env, a, s.codexModel);
    if r.Some? { IdentityIsWhatRuns(env, r.value, p, s.codexModel); }
    if a.Some? { IdentityIsWhatRuns(env, a.value, p, s.codexModel); }
    if a.Some? && r.Some? { IdentityIsWhatRuns(env, a.value, r.value, s.codexModel); }
    if a.Some? && r.None? { NamesAreNotEmpty(Runs(env, a.value)); }
  }

  lemma NamesAreNotEmpty(p: ProviderModel)
    ensures ProviderName(p) != ""
  {
  }

  /** A per-agent save on a readable, settled file, for routes that are enabled and end in no blank: it stores
      exactly these routes for exactly this role if they run pairwise different models, and refuses otherwise. */
  lemma AgentSaveOfRoutes(env: Env, file: File, payload: Value, c: Circumstance, role: Role,
                          p: Route, r: Option<Route>, a: Option<Route>)
    requires env.Lawful() && RawOf(file).Some? && Normalize(env, RawOf(file).value).Accepted?
    requires Settled(Normalize(env, RawOf(file).value).settings)
    requires c.ready(Normalize(env, RawOf(file).value).settings) && !c.writeFails
    requires var routes := EnabledRoutes(Normalize(env, RawOf(file).value).settings);
      p in routes && (r.Some? ==> r.value in routes) && (a.Some? ==> a.value in routes)
    requires Tight(Print(p)) && (r.Some? ==> Tight(Print(r.value))) && (a.Some? ==> Tight(Print(a.value)))
    requires Requests(env, payload, role, p, r, a)
    ensures var current := Normalize(env, RawOf(file).value).settings;
      SaveAgent(env, file, payload, c) ==
        if RunApart(env, p, r, a) then
          Saved(current.(primary := current.primary[role := Print(p)],
                         reviewer := current.reviewer[role := OptionalText(r)],
                         adjudicator := current.adjudicator[role := OptionalText(a)]))
        else NotIndependent
  {
    hide Normalize, Settled, EnabledRoutes, Print, Requests, RunApart, RoutesIndependent, AgentRequest, Tight, Runs,
      Env.Lawful, Normal, StoredJson, ProvidersNormal, Enableable, RestNormal, AssignmentsNormal;
    var current := Normalize(env, RawOf(file).value).settings;
    var request := Request(Some(role), Print(p), OptionalText(r), OptionalText(a));
    assert ProvidersNormal(env, current) by { AcceptedProviders(env, RawOf(file).value); }
    EnabledText(env, current, p);
    if r.Some? { EnabledText(env, current, r.value); }
    if a.Some? { EnabledText(env, current, a.value); }
    RequestReads(env, payload, role, p, r, a);
    IndependentExactly(env, current, Some(role), p, r, a);
    if RunApart(env, p, r, a) { AgentSaveStoresExactly(env, file, payload, c); }
  }

  lemma AcceptedProviders(env: Env, raw: Value)
    requires Normalize(env, raw).Accepted?
    ensures ProvidersNormal(env, Normalize(env, raw).settings)
  {
    hide Normalize, ProvidersNormal, AssignmentsNormal, RestNormal;
    AcceptedIsNormal(env, raw);
  }

  lemma EnabledText(env: Env, t: Settings, x: Route)
    requires ProvidersNormal(env, t) && x in EnabledRoutes(t)
    ensures Enableable(env, x) && Print(x) in RoutesOf(t) && Print(x) != "" && |Print(x)| <= 260
  {
    hide ProvidersNormal, EnabledRoutes, Print, Enableable;
    RoutesEnableable(env, t, x);
    PrintedShape(env, x);
    var i :| 0 <= i < |EnabledRoutes(t)| && EnabledRoutes(t)[i] == x;
    assert RoutesOf(t)[i] == Print(x);
  }
}
