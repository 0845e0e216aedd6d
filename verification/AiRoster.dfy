/** What a save of the global roster does to the agents' assignments. */
module AiRoster {
  import opened Prelude
  import opened Values
  import opened AiRoutes
  import opened AiSettings
  import opened AiNormal
  import opened AiFixed
  import opened AiStore

  // ----- the assignments of a save -----

  lemma SavedRosterIs(env: Env, raw: Value, payload: Value, c: Circumstance)
    requires SaveRoster(env, Document(raw), payload, c).Saved?
    ensures Normalize(env, raw).Accepted?
    ensures var current := Normalize(env, raw).settings;
      var incoming := WithAssignmentsOf(if payload.Obj? then payload.fields else map[], current);
      Normalize(env, Obj(incoming)) == Accepted(SaveRoster(env, Document(raw), payload, c).settings)
  {
    hide Normalize, WithAssignmentsOf;
  }

  /** The assignments of accepted settings, from the payload's. */
  lemma AcceptedAssignments(env: Env, p: Fields, role: Role)
    requires Normalize(env, Obj(p)).Accepted?
    ensures var t := Normalize(env, Obj(p)).settings;
      && RoutesOf(t) != [] && {role} <= t.primary.Keys && {role} <= t.reviewer.Keys && {role} <= t.adjudicator.Keys
      && t.primary[role] == PrimaryFor(env, RawAssignments(Get(p, AgentModels, Null)), RoutesOf(t), role)
      && ReviewerFor(env, RawAssignments(Get(p, AgentSecondOpinionModels, Null)), RoutesOf(t), t.primary[role],
                     t.codexModel, role) == Some(t.reviewer[role])
      && AdjudicatorFor(env, RawAssignments(Get(p, AgentAdjudicatorModels, Null)), RoutesOf(t), t.primary[role],
                        t.reviewer[role], t.codexModel, role)
         == Some(t.adjudicator[role])
  {
    hide Provided, EnabledRoutes, Canonical, Identity, PrimaryFor, ReviewerFor, AdjudicatorFor, Collected,
        Finished, RawAssignments;
    ProvidedHasRoutes(env, p);
    EveryRole(role);
    var s := Provided(env, p).value;
    var a := Assigned(env, p, s).value;
    var t := Normalize(env, Obj(p)).settings;
    FinishedKeepsAssignments(env, p, s, a, t);
    SameRoutes(s, t);
    var rawR, rawA :=
      RawAssignments(Get(p, AgentSecondOpinionModels, Null)), RawAssignments(Get(p, AgentAdjudicatorModels, Null));
    CollectedAt(role => ReviewerFor(env, rawR, RoutesOf(s), At(a.primary, role), s.codexModel, role), role);
    CollectedAt(role => AdjudicatorFor(env, rawA, RoutesOf(s), At(a.primary, role), At(a.reviewer, role),
        s.codexModel, role), role);
  }

  lemma FinishedKeepsAssignments(env: Env, p: Fields, s: Settings, a: Settings, t: Settings)
    requires Provided(env, p) == Some(s) && EnabledRoutes(s) != [] && Assigned(env, p, s) == Some(a)
    requires Finished(env, a) == Some(t)
    ensures t.primary == a.primary && t.reviewer == a.reviewer && t.adjudicator == a.adjudicator
    ensures t.models == s.models && t.codexModels == s.codexModels && t.codexModel == s.codexModel
    ensures t.hermesEnabled == s.hermesEnabled && t.hermesModel == s.hermesModel && t.hermesEffort == s.hermesEffort
    ensures t.openclawEnabled == s.openclawEnabled && t.openclawModel == s.openclawModel
    ensures t.openclawEffort == s.openclawEffort
  {
    hide Provided, EnabledRoutes, Primaries, Reviewers, Adjudicators, Severity, CaptureLoss, GeoipPathOk,
        Shortened, ProvidersNormal;
    ProvidedNormal(env, p);
    var m := a.(
      analysisSeverity := Severity(env, a.analysisSeverity).value,
      pcapSeverity := Severity(env, a.pcapSeverity).value,
      incidentSeverity := Severity(env, a.incidentSeverity).value,
      captureLoss := Float(CaptureLoss(env, a.captureLoss).value));
    AssignmentsMove(env, s, m);
    ShortenedChanges(env, m);
  }

  /** The stored assignment of a role as the new normalisation finds it. */
  lemma IncomingAssignments(incoming: Fields, current: Settings, role: Role)
    ensures var p := WithAssignmentsOf(incoming, current);
      && Get(RawAssignments(Get(p, AgentModels, Null)), RoleMember(role), Null) == Str(At(current.primary, role))
      && Get(RawAssignments(Get(p, AgentSecondOpinionModels, Null)), RoleMember(role), Null)
         == Str(At(current.reviewer, role))
      && Get(RawAssignments(Get(p, AgentAdjudicatorModels, Null)), RoleMember(role), Null)
         == Str(At(current.adjudicator, role))
  {
    hide AssignmentsJson, RawAssignments;
    StoredAssignment(current.primary, role);
    StoredAssignment(current.reviewer, role);
    StoredAssignment(current.adjudicator, role);
  }

  // ----- where a route that is no longer enabled moves -----

  /** The routes that take over from one that is no longer enabled: the same Codex model at another
      effort, or the same other harness. */
  predicate Succeeds(former: Route, r: Route) {
    && former.CliRoute? && r.CliRoute? && r.harness == former.harness
    && (former.harness == CodexCli ==> r.model == former.model)
  }

  /** The first route that takes over, or the first route. */
  function Heir(routes: seq<Route>, former: Route): (r: Route)
    requires routes != []
    ensures r in routes && (r == routes[0] || Succeeds(former, r))
  {
    HeirOr(routes, former, routes[0])
  }

  function HeirOr(routes: seq<Route>, former: Route, fallback: Route): (r: Route)
    ensures r == fallback || (r in routes && Succeeds(former, r))
  {
    if routes == [] then fallback
    else if Succeeds(former, routes[0]) then routes[0]
    else HeirOr(routes[1..], former, fallback)
  }

  function SuccessorPrefix(r: Route): string
    requires r.CliRoute?
  {
    if r.harness == CodexCli then Prefix(CodexCli) + (r.model + ":") else Prefix(r.harness)
  }

  lemma CatalogHasNoColon(model: string)
    requires model in CATALOG
    ensures ':' !in model
  {
  }

  /** Text up to its first colon. */
  lemma FirstColon(a: string, b: string, x: string)
    requires ':' !in a && ':' !in b && a + ":" <= b + ":" + x
    ensures a == b
  {
    var s, t := a + ":", b + ":" + x;
    assert s[|a|] == ':' && t[|a|] == s[|a|];
    assert t[|b|] == ':' && forall i :: 0 <= i < |b| ==> t[i] == b[i] && b[i] in b;
    assert forall i :: 0 <= i < |a| ==> t[i] == s[i] && s[i] == a[i] && a[i] in a;
    assert |a| == |b|;
    assert a == s[..|a|] && b == t[..|b|];
  }

  /** A printed route carries the successor prefix exactly when it takes over. */
  lemma PrefixIsSuccession(env: Env, former: Route, r: Route)
    requires Enableable(env, former) && Enableable(env, r) && former.CliRoute?
    ensures StartsWith(Print(r), SuccessorPrefix(former)) <==> Succeeds(former, r)
  {
    hide Prefix, ValidOpenclawModel, HarnessOf;
    var text := Print(r);
    if r.OllamaRoute? {
      OllamaTextIsPlain(r.model);
      PrefixNeedsHarness(text, former);
    } else {
      PrefixDecides(r.harness, r.model + ":" + r.effort);
      PrefixNeedsHarness(text, former);
      if r.harness == former.harness && r.harness == CodexCli {
        CodexPrefixNamesModel(former.model, r.model, r.effort);
      }
    }
  }

  lemma CodexPrefixNamesModel(a: string, model: string, effort: string)
    requires a in CATALOG && model in CATALOG
    ensures StartsWith(Prefix(CodexCli) + (model + ":" + effort), Prefix(CodexCli) + (a + ":")) <==> a == model
  {
    hide Prefix;
    var p := Prefix(CodexCli);
    var text, prefix := p + (model + ":" + effort), p + (a + ":");
    CatalogHasNoColon(model);
    CatalogHasNoColon(a);
    if a == model { assert text == prefix + effort; }
    if StartsWith(text, prefix) {
      assert text[|p|..] == model + ":" + effort && prefix[|p|..] == a + ":";
      assert prefix[|p|..] <= text[|p|..];
      FirstColon(a, model, effort);
    }
  }

  lemma PrefixNeedsHarness(text: string, former: Route)
    requires former.CliRoute?
    ensures StartsWith(text, SuccessorPrefix(former)) ==> HarnessOf(text) == Some(former.harness)
    ensures HarnessOf(text) == Some(former.harness) && former.harness != CodexCli
            ==> StartsWith(text, SuccessorPrefix(former))
  {
    hide HarnessOf, Prefix;
    if StartsWith(text, SuccessorPrefix(former)) {
      var rest := text[|SuccessorPrefix(former)|..];
      assert text == SuccessorPrefix(former) + rest;
      if former.harness == CodexCli {
        assert text == Prefix(CodexCli) + ((former.model + ":") + rest);
        PrefixDecides(CodexCli, (former.model + ":") + rest);
      } else {
        PrefixDecides(former.harness, rest);
      }
    }
  }

  lemma {:induction false} FirstRouteIsHeir(env: Env, routes: seq<Route>, former: Route, fallback: Route)
    requires former.CliRoute? && Enableable(env, former) && forall r :: r in routes ==> Enableable(env, r)
    ensures FirstRoute(Printed(routes), SuccessorPrefix(former), Print(fallback))
            == Print(HeirOr(routes, former, fallback))
  {
    hide Print, SuccessorPrefix, Succeeds, Enableable;
    if routes == [] {
      assert Printed(routes) == [];
    } else {
      PrefixIsSuccession(env, former, routes[0]);
      assert Printed(routes)[1..] == Printed(routes[1..]);
      FirstRouteIsHeir(env, routes[1..], former, fallback);
    }
  }

  /** A route text that is not enabled any more becomes the heir of its route, or is not enabled. */
  lemma CanonicalOfDisabled(env: Env, routes: seq<Route>, former: Route)
    requires Enableable(env, former) && Tight(Print(former)) && Print(former) !in Printed(routes)
    requires forall r :: r in routes ==> Enableable(env, r)
    ensures Canonical(env, Str(Print(former)), Printed(routes)) == Print(HeirOr(routes, former, former))
  {
    hide Print, Prefix, Enableable, FirstRoute, HarnessOf, Tight, RSplit, Strip, Printed, Env.TextOf;
    var text := Print(former);
    PrintedShape(env, former);
    assert env.TextOf(Str(text)) == text by { PlainText(env, text); }
    assert Truncate(Strip(text), 260) == text;
    if former.OllamaRoute? {
      NoHarness(former);
      OllamaHasNoHeir(routes, former);
    } else {
      FirstRouteIsHeir(env, routes, former, former);
      CliText(env, former);
      HeirIsEnabledOrOld(routes, former);
    }
  }

  lemma HeirIsEnabledOrOld(routes: seq<Route>, former: Route)
    ensures HeirOr(routes, former, former) == former || Print(HeirOr(routes, former, former)) in Printed(routes)
    ensures former.CliRoute?
            ==> HeirOr(routes, former, former).CliRoute? && HeirOr(routes, former, former).harness == former.harness
  {
    hide Print;
    var r := HeirOr(routes, former, former);
    if r != former {
      var i :| 0 <= i < |routes| && routes[i] == r;
      assert Printed(routes)[i] == Print(r);
    }
  }

  lemma NoHarness(r: Route)
    requires r.OllamaRoute?
    ensures forall h :: !StartsWith(Print(r), Prefix(h))
  {
    hide HarnessOf, Prefix;
    OllamaTextIsPlain(r.model);
  }

  lemma {:induction false} OllamaHasNoHeir(routes: seq<Route>, former: Route)
    requires former.OllamaRoute?
    ensures HeirOr(routes, former, former) == former
  {
    if routes != [] { OllamaHasNoHeir(routes[1..], former); }
  }

  /** How the migration reads a printed harness route. */
  lemma CliText(env: Env, r: Route)
    requires r.CliRoute? && Enableable(env, r)
    ensures forall h :: StartsWith(Print(r), Prefix(h)) <==> h == r.harness
    ensures r.harness == CodexCli ==> RSplit(Print(r)[|Prefix(CodexCli)|..]) == Some((r.model, r.effort))
  {
    hide HarnessOf, Prefix, RSplit, ValidOpenclawModel;
    var rest := r.model + ":" + r.effort;
    PrefixDecides(r.harness, rest);
    EffortsHaveNoColon(r.effort);
    RSplitJoined(r.model, r.effort);
    forall h | StartsWith(Print(r), Prefix(h)) ensures h == r.harness {
      var other := Print(r)[|Prefix(h)|..];
      assert Print(r) == Prefix(h) + other;
      PrefixDecides(h, other);
    }
    assert Prefix(r.harness) <= Print(r);
  }

  lemma AllEnableable(env: Env, t: Settings)
    requires ProvidersNormal(env, t)
    ensures forall r :: r in EnabledRoutes(t) ==> Enableable(env, r)
  {
    hide ProvidersNormal, EnabledRoutes, Enableable;
    forall r | r in EnabledRoutes(t) ensures Enableable(env, r) { RoutesEnableable(env, t, r); }
  }

  lemma {:induction false} HeirOrIsHeir(routes: seq<Route>, former: Route, fallback: Route)
    ensures (exists r :: r in routes && Succeeds(former, r))
            ==> HeirOr(routes, former, fallback) == HeirOr(routes, former, former)
    ensures !(exists r :: r in routes && Succeeds(former, r)) ==> HeirOr(routes, former, fallback) == fallback
  {
    hide Succeeds;
    if routes != [] && !Succeeds(former, routes[0]) {
      HeirOrIsHeir(routes[1..], former, fallback);
      HeirOrIsHeir(routes[1..], former, former);
      assert routes == [routes[0]] + routes[1..];
    }
  }

  lemma PrimaryOfDisabled(env: Env, t: Settings, former: Route, raw: Fields, role: Role)
    requires ProvidersNormal(env, t) && EnabledRoutes(t) != []
    requires Enableable(env, former) && Tight(Print(former)) && Print(former) !in RoutesOf(t)
    requires Get(raw, RoleMember(role), Null) == Str(Print(former))
    ensures PrimaryFor(env, raw, RoutesOf(t), role) == Print(Heir(EnabledRoutes(t), former))
  {
    hide ProvidersNormal, EnabledRoutes, Print, Enableable, Canonical, Tight, Succeeds;
    var routes := EnabledRoutes(t);
    AllEnableable(env, t);
    CanonicalOfDisabled(env, routes, former);
    HeirIsEnabledOrOld(routes, former);
    HeirOrIsHeir(routes, former, routes[0]);
    if exists r :: r in routes && Succeeds(former, r) {
      var r :| r in routes && Succeeds(former, r);
      SuccessorIsEnabled(routes, former, r);
    } else {
      HeirOrIsHeir(routes, former, former);
    }
  }

  lemma {:induction false} SuccessorIsEnabled(routes: seq<Route>, former: Route, r: Route)
    requires r in routes && Succeeds(former, r)
    ensures HeirOr(routes, former, former) in routes && Print(HeirOr(routes, former, former)) in Printed(routes)
  {
    hide Succeeds, Print;
    if Succeeds(former, routes[0]) {
      assert Printed(routes)[0] == Print(routes[0]);
    } else {
      SuccessorIsEnabled(routes[1..], former, r);
      assert Printed(routes)[1..] == Printed(routes[1..]);
    }
  }

  // ----- where any stored route moves -----

  /** The route without the blanks that cutting its model can have left at the end. */
  function Trimmed(r: Route): Route {
    if r.OllamaRoute? then OllamaRoute(TrimEnd(r.model)) else r
  }

  lemma TrimmedModel(s: string)
    requires StartsTight(s)
    ensures StartsTight(TrimEnd(s)) && TrimEnd(TrimEnd(s)) == TrimEnd(s) && (Tight(s) ==> TrimEnd(s) == s)
  {
    assert s == [s[0]] + s[1..];
    TrimEndAppend([s[0]], s[1..]);
  }

  /** Stripping the text of a route is trimming the route; it runs the same model. */
  lemma TrimmedText(env: Env, r: Route)
    requires Enableable(env, r)
    ensures Enableable(env, Trimmed(r)) && Runs(env, Trimmed(r)) == Runs(env, r)
    ensures Strip(Print(r)) == Print(Trimmed(r)) && Tight(Print(Trimmed(r)))
    ensures Tight(Print(r)) <==> Trimmed(r) == r
  {
    hide ValidOpenclawModel, Prefix, TrimEnd, TrimStart, Env.LowerCase;
    PrintedShape(env, r);
    if r.OllamaRoute? {
      TrimmedModel(r.model);
      StripKeepsStart(Print(r));
      TrimEndAppend("ollama:", r.model);
      if Tight(Print(r)) { assert Print(Trimmed(r))[7..] == Print(r)[7..]; }
    }
  }

  /** Where a stored route goes under new routes: it stays, or its heir takes over if there is one. */
  function Moved(routes: seq<Route>, x: Route): Route {
    if Print(Trimmed(x)) in Printed(routes) then Trimmed(x) else HeirOr(routes, Trimmed(x), Trimmed(x))
  }

  lemma CanonicalOfText(env: Env, a: string, b: string, routes: seq<string>)
    requires Strip(a) == Strip(b)
    ensures Canonical(env, Str(a), routes) == Canonical(env, Str(b), routes)
  {
    hide Strip, MigrateCodexRoute, FirstRoute;
    PlainText(env, a);
    PlainText(env, b);
  }

  lemma CanonicalIsMoved(env: Env, routes: seq<Route>, x: Route)
    requires Enableable(env, x) && forall r :: r in routes ==> Enableable(env, r)
    ensures Canonical(env, Str(Print(x)), Printed(routes)) == Print(Moved(routes, x))
    ensures Enableable(env, Moved(routes, x))
  {
    hide Print, Enableable, Canonical, Strip, Tight, Trimmed, Printed, Succeeds, Runs;
    var y := Trimmed(x);
    TrimmedText(env, x);
    CanonicalOfText(env, Print(x), Print(y), Printed(routes));
    PrintedShape(env, y);
    if Print(y) in Printed(routes) {
      EnabledIsCanonical(env, Print(y), Printed(routes));
    } else {
      CanonicalOfDisabled(env, routes, y);
    }
  }

  /** The primary of a role after a roster save: its own route if that is enabled, otherwise its heir. */
  function NewPrimary(routes: seq<Route>, x: Route): Route
    requires routes != []
  {
    if Print(Trimmed(x)) in Printed(routes) then Trimmed(x) else Heir(routes, Trimmed(x))
  }

  lemma PrimaryIsNew(env: Env, t: Settings, x: Route, raw: Fields, role: Role)
    requires ProvidersNormal(env, t) && EnabledRoutes(t) != [] && Enableable(env, x)
    requires Get(raw, RoleMember(role), Null) == Str(Print(x))
    ensures PrimaryFor(env, raw, RoutesOf(t), role) == Print(NewPrimary(EnabledRoutes(t), x))
    ensures Enableable(env, NewPrimary(EnabledRoutes(t), x))
  {
    hide ProvidersNormal, EnabledRoutes, Print, Enableable, Canonical, Tight, Trimmed, Strip, Runs, Get;
    var routes := EnabledRoutes(t);
    AllEnableable(env, t);
    CanonicalIsMoved(env, routes, x);
    TrimmedText(env, x);
    if Print(Trimmed(x)) !in Printed(routes) {
      var own := map[RoleMember(role) := Str(Print(Trimmed(x)))];
      assert Get(own, RoleMember(role), Null) == Str(Print(Trimmed(x))) by { OneMember(role, Str(Print(Trimmed(x)))); }
      PrimaryOfDisabled(env, t, Trimmed(x), own, role);
      CanonicalOfDisabled(env, routes, Trimmed(x));
    }
  }

  lemma OneMember(role: Role, v: Value)
    ensures Get(map[RoleMember(role) := v], RoleMember(role), Null) == v
  {
  }

  // ----- reviewers and adjudicators -----

  function OptionalText(x: Option<Route>): string {
    if x.Some? then Print(x.value) else ""
  }

  function ModelsOf(env: Env, x: Option<Route>): set<ProviderModel> {
    if x.Some? then {Runs(env, x.value)} else {}
  }

  /** An optional route after a roster save: where it moved if that is enabled and runs none of the models
      already taken, otherwise none. */
  function NewOptional(env: Env, routes: seq<Route>, x: Option<Route>, taken: set<ProviderModel>): Option<Route> {
    if x.None? then None
    else if Print(Moved(routes, x.value)) in Printed(routes) && Runs(env, Moved(routes, x.value)) !in taken
    then Some(Moved(routes, x.value))
    else None
  }

  lemma RouteIdentity(env: Env, x: Option<Route>, codexModel: string)
    requires x.Some? ==> Enableable(env, x.value)
    ensures Identity(env, OptionalText(x), codexModel) == Some(if x.Some? then ProviderName(Runs(env, x.value)) else "")
  {
    hide Identity, Print, Enableable, Runs, ProviderName;
    if x.Some? { IdentityIsWhatRuns(env, x.value, x.value, codexModel); } else { NothingIdentity(env, codexModel); }
  }

  /** The canonical form of a stored optional route, and its identity. */
  lemma OptionalCanonical(env: Env, t: Settings, x: Option<Route>)
    requires ProvidersNormal(env, t) && (x.Some? ==> Enableable(env, x.value))
    ensures var routes := EnabledRoutes(t);
      var m := if x.Some? then Some(Moved(routes, x.value)) else None;
      && Canonical(env, Str(OptionalText(x)), RoutesOf(t)) == OptionalText(m)
      && (m.Some? ==> Enableable(env, m.value))
      && Identity(env, OptionalText(m), t.codexModel) == Some(if m.Some? then ProviderName(Runs(env, m.value)) else "")
      && "" !in RoutesOf(t)
  {
    hide ProvidersNormal, EnabledRoutes, Print, Enableable, Canonical, Identity, Moved, Runs, ProviderName;
    AllEnableable(env, t);
    NoRouteIsEmpty(env, t);
    if x.Some? {
      CanonicalIsMoved(env, EnabledRoutes(t), x.value);
      RouteIdentity(env, Some(Moved(EnabledRoutes(t), x.value)), t.codexModel);
    } else {
      NothingIsCanonical(env, RoutesOf(t));
      RouteIdentity(env, None, t.codexModel);
    }
  }

  lemma NamesDiffer(a: ProviderModel, b: ProviderModel)
    ensures ProviderName(a) == ProviderName(b) <==> a == b
    ensures ProviderName(a) != ""
  {
    if ProviderName(a) == ProviderName(b) { ProviderNameIsInjective(a, b); }
  }

  lemma ReviewerIsNew(env: Env, t: Settings, q: Route, x: Option<Route>, raw: Fields, role: Role)
    requires ProvidersNormal(env, t) && Enableable(env, q) && (x.Some? ==> Enableable(env, x.value))
    requires Get(raw, RoleMember(role), Null) == Str(OptionalText(x))
    ensures ReviewerFor(env, raw, RoutesOf(t), Print(q), t.codexModel, role)
         == Some(OptionalText(NewOptional(env, EnabledRoutes(t), x, {Runs(env, q)})))
  {
    hide ProvidersNormal, EnabledRoutes, Print, Enableable, Canonical, Identity, Moved, Runs, ProviderName, Get;
    OptionalCanonical(env, t, x);
    RouteIdentity(env, Some(q), t.codexModel);
    if x.Some? { NamesDiffer(Runs(env, Moved(EnabledRoutes(t), x.value)), Runs(env, q)); }
  }

  lemma AdjudicatorIsNew(env: Env, t: Settings, q: Route, r: Option<Route>, x: Option<Route>, raw: Fields, role: Role)
    requires ProvidersNormal(env, t) && Enableable(env, q)
    requires (r.Some? ==> Enableable(env, r.value)) && (x.Some? ==> Enableable(env, x.value))
    requires Get(raw, RoleMember(role), Null) == Str(OptionalText(x))
    ensures AdjudicatorFor(env, raw, RoutesOf(t), Print(q), OptionalText(r), t.codexModel, role)
         == Some(OptionalText(NewOptional(env, EnabledRoutes(t), x, {Runs(env, q)} + ModelsOf(env, r))))
  {
    hide ProvidersNormal, EnabledRoutes, Print, Enableable, Canonical, Identity, Moved, Runs, ProviderName, Get;
    OptionalCanonical(env, t, x);
    RouteIdentity(env, Some(q), t.codexModel);
    RouteIdentity(env, r, t.codexModel);
    if x.Some? {
      var m := Moved(EnabledRoutes(t), x.value);
      NamesDiffer(Runs(env, m), Runs(env, q));
      if r.Some? { NamesDiffer(Runs(env, m), Runs(env, r.value)); }
    }
  }

  // ----- every role after a roster save -----

  /** The routes a role's assignments name. */
  predicate Named(s: Settings, role: Role, p: Route, r: Option<Route>, a: Option<Route>) {
    && p in EnabledRoutes(s) && At(s.primary, role) == Print(p)
    && (r.Some? ==> r.value in EnabledRoutes(s)) && At(s.reviewer, role) == OptionalText(r)
    && (a.Some? ==> a.value in EnabledRoutes(s)) && At(s.adjudicator, role) == OptionalText(a)
  }

  /** Accepted settings name enabled routes for every role. */
  lemma EveryRoleIsNamed(env: Env, raw: Value, role: Role) returns (p: Route, r: Option<Route>, a: Option<Route>)
    requires Normalize(env, raw).Accepted?
    ensures Named(Normalize(env, raw).settings, role, p, r, a)
  {
    hide Normalize, ProvidersNormal, RestNormal, EnabledRoutes, Identity, Print, Enableable, RoutesOf, Runs,
      ProviderName;
    AcceptedIsNormal(env, raw);
    EveryRole(role);
    var s := Normalize(env, raw).settings;
    assert RoleNormal(env, RoutesOf(s), s.primary[role], s.reviewer[role], s.adjudicator[role], s.codexModel);
    p := PrintedIsEnabled(env, s, s.primary[role]);
    r, a := None, None;
    if s.reviewer[role] != "" {
      var x := PrintedIsEnabled(env, s, s.reviewer[role]);
      r := Some(x);
    }
    if s.adjudicator[role] != "" {
      var x := PrintedIsEnabled(env, s, s.adjudicator[role]);
      a := Some(x);
    }
  }

  /** All three assignments of a role, as one normalisation under new routes gives them. */
  ghost predicate Reassigned(env: Env, t: Settings, role: Role, p: Route, r: Option<Route>, a: Option<Route>) {
    var routes := EnabledRoutes(t);
    && routes != []
    && var q := NewPrimary(routes, p);
       var reviewer := NewOptional(env, routes, r, {Runs(env, q)});
       && At(t.primary, role) == Print(q)
       && At(t.reviewer, role) == OptionalText(reviewer)
       && At(t.adjudicator, role) == OptionalText(NewOptional(env, routes, a, {Runs(env, q)} + ModelsOf(env, reviewer)))
  }

  lemma NamedAreEnableable(env: Env, s: Settings, role: Role, p: Route, r: Option<Route>, a: Option<Route>)
    requires ProvidersNormal(env, s) && Named(s, role, p, r, a)
    ensures Enableable(env, p) && (r.Some? ==> Enableable(env, r.value)) && (a.Some? ==> Enableable(env, a.value))
  {
    hide ProvidersNormal, EnabledRoutes, Enableable, Print;
    AllEnableable(env, s);
  }

  lemma NewOptionalIsEnableable(env: Env, t: Settings, x: Option<Route>, taken: set<ProviderModel>)
    requires ProvidersNormal(env, t) && (x.Some? ==> Enableable(env, x.value))
    ensures var m := NewOptional(env, EnabledRoutes(t), x, taken); m.Some? ==> Enableable(env, m.value)
  {
    hide ProvidersNormal, EnabledRoutes, Print, Enableable, Moved, Runs;
    AllEnableable(env, t);
    if x.Some? { CanonicalIsMoved(env, EnabledRoutes(t), x.value); }
  }

  lemma ReassignedForRole(env: Env, t: Settings, role: Role, p: Route, r: Option<Route>, a: Option<Route>,
                          rawP: Fields, rawR: Fields, rawA: Fields)
    requires ProvidersNormal(env, t) && EnabledRoutes(t) != []
    requires Enableable(env, p) && (r.Some? ==> Enableable(env, r.value)) && (a.Some? ==> Enableable(env, a.value))
    requires Get(rawP, RoleMember(role), Null) == Str(Print(p))
    requires Get(rawR, RoleMember(role), Null) == Str(OptionalText(r))
    requires Get(rawA, RoleMember(role), Null) == Str(OptionalText(a))
    requires At(t.primary, role) == PrimaryFor(env, rawP, RoutesOf(t), role)
    requires ReviewerFor(env, rawR, RoutesOf(t), At(t.primary, role), t.codexModel, role) == Some(At(t.reviewer, role))
    requires AdjudicatorFor(env, rawA, RoutesOf(t), At(t.primary, role), At(t.reviewer, role), t.codexModel, role)
      == Some(At(t.adjudicator, role))
    ensures Reassigned(env, t, role, p, r, a)
  {
    hide ProvidersNormal, EnabledRoutes, RoutesOf, Print, Enableable, NewPrimary, NewOptional, PrimaryFor, ReviewerFor,
      AdjudicatorFor, Runs, Get, At;
    PrimaryIsNew(env, t, p, rawP, role);
    var q := NewPrimary(EnabledRoutes(t), p);
    ReviewerIsNew(env, t, q, r, rawR, role);
    NewOptionalIsEnableable(env, t, r, {Runs(env, q)});
    AdjudicatorIsNew(env, t, q, NewOptional(env, EnabledRoutes(t), r, {Runs(env, q)}), a, rawA, role);
  }

  /** A successful roster save leaves every role, whatever happens to its routes, with exactly these: its
      primary or the primary's heir; its reviewer and adjudicator, or their heirs, where those are enabled and
      run other models. */
  lemma RosterSaveReassigns(env: Env, raw: Value, payload: Value, c: Circumstance, role: Role,
                            p: Route, r: Option<Route>, a: Option<Route>)
    requires SaveRoster(env, Document(raw), payload, c).Saved? && Normalize(env, raw).Accepted?
    requires Named(Normalize(env, raw).settings, role, p, r, a)
    ensures Reassigned(env, SaveRoster(env, Document(raw), payload, c).settings, role, p, r, a)
  {
    hide Normalize, ProvidersNormal, RestNormal, AssignmentsNormal, Named, Reassigned, EnabledRoutes, WithAssignmentsOf,
      PrimaryFor, ReviewerFor, AdjudicatorFor, RawAssignments, Get, Enableable, Print;
    var current, t := Normalize(env, raw).settings, SaveRoster(env, Document(raw), payload, c).settings;
    SavedRosterIs(env, raw, payload, c);
    var incoming := if payload.Obj? then payload.fields else map[];
    var f := WithAssignmentsOf(incoming, current);
    AcceptedIsNormal(env, raw);
    AcceptedIsNormal(env, Obj(f));
    NamedAreEnableable(env, current, role, p, r, a);
    NamedTexts(current, role, p, r, a);
    IncomingAssignments(incoming, current, role);
    AcceptedAssignments(env, f, role);
    ReassignedForRole(env, t, role, p, r, a, RawAssignments(Get(f, AgentModels, Null)),
      RawAssignments(Get(f, AgentSecondOpinionModels, Null)), RawAssignments(Get(f, AgentAdjudicatorModels, Null)));
  }

  lemma NamedTexts(s: Settings, role: Role, p: Route, r: Option<Route>, a: Option<Route>)
    requires Named(s, role, p, r, a)
    ensures At(s.primary, role) == Print(p) && At(s.reviewer, role) == OptionalText(r)
    ensures At(s.adjudicator, role) == OptionalText(a)
  {
    hide EnabledRoutes, Print;
  }

  /** The primary of every role: kept if its route is still enabled, whatever happens to the role's other
      routes; otherwise the same Codex model at its new effort, the same harness's route, or the first. */
  lemma RosterSaveMovesPrimary(env: Env, raw: Value, payload: Value, c: Circumstance, role: Role, former: Route)
    requires SaveRoster(env, Document(raw), payload, c).Saved? && Normalize(env, raw).Accepted?
    requires former in EnabledRoutes(Normalize(env, raw).settings)
    requires Print(former) == At(Normalize(env, raw).settings.primary, role)
    ensures var t := SaveRoster(env, Document(raw), payload, c).settings;
      && EnabledRoutes(t) != []
      && At(t.primary, role) ==
           if Print(Trimmed(former)) in RoutesOf(t) then Print(Trimmed(former))
           else Print(Heir(EnabledRoutes(t), Trimmed(former)))
  {
    hide Normalize, SaveRoster, EnabledRoutes, Print, Heir, Trimmed, NewOptional, Runs;
    var p, r, a := EveryRoleIsNamed(env, raw, role);
    RosterSaveReassigns(env, raw, payload, c, role, former, r, a);
  }

  /** The role's texts are enabled under new routes, the optional ones where present. */
  predicate RoleEnabled(routes: seq<string>, p: Route, r: Option<Route>, a: Option<Route>) {
    && Print(p) in routes && (r.Some? ==> Print(r.value) in routes) && (a.Some? ==> Print(a.value) in routes)
  }

  /** The optional route keeps its text exactly when the text has no blank at its end. */
  lemma OptionalKept(env: Env, routes: seq<Route>, x: Option<Route>, taken: set<ProviderModel>)
    requires x.Some? ==> Enableable(env, x.value) && Print(x.value) in Printed(routes) && Runs(env, x.value) !in taken
    ensures OptionalText(NewOptional(env, routes, x, taken)) == OptionalText(x) <==> x.None? || Tight(Print(x.value))
    ensures x.Some? && Tight(Print(x.value)) ==> NewOptional(env, routes, x, taken) == x
  {
    hide Print, Enableable, Runs, Tight, Trimmed, HeirOr;
    if x.Some? {
      TrimmedText(env, x.value);
      PrintedShape(env, x.value);
      MovedIsTrimmed(env, routes, x.value);
    }
  }

  /** An enabled text with a blank at its end moves to its trimmed route, enabled or not. */
  lemma MovedIsTrimmed(env: Env, routes: seq<Route>, x: Route)
    requires Enableable(env, x) && Print(x) in Printed(routes)
    ensures Moved(routes, x) == Trimmed(x)
  {
    hide Print, Enableable;
    if x.CliRoute? {
      assert Trimmed(x) == x;
    } else {
      OllamaHasNoHeir(routes, Trimmed(x));
    }
  }

  /** A roster save keeps all three assignments of a role whose routes stay enabled, exactly when none of the
      texts was cut just after a blank; a primary so cut is kept only as the first route to fall back on. */
  lemma RosterSaveKeepsEnabledRoles(env: Env, raw: Value, payload: Value, c: Circumstance, role: Role,
                                    p: Route, r: Option<Route>, a: Option<Route>)
    requires SaveRoster(env, Document(raw), payload, c).Saved? && Normalize(env, raw).Accepted?
    requires Named(Normalize(env, raw).settings, role, p, r, a)
    requires RoleEnabled(RoutesOf(SaveRoster(env, Document(raw), payload, c).settings), p, r, a)
    ensures var current, t := Normalize(env, raw).settings, SaveRoster(env, Document(raw), payload, c).settings;
      && RoutesOf(t) != []
      && (At(t.primary, role) == At(current.primary, role) && At(t.reviewer, role) == At(current.reviewer, role)
          && At(t.adjudicator, role) == At(current.adjudicator, role)
          <==>
          && (Tight(Print(p)) || (Print(Trimmed(p)) !in RoutesOf(t) && RoutesOf(t)[0] == Print(p)))
          && (r.Some? ==> Tight(Print(r.value)))
          && (a.Some? ==> Tight(Print(a.value))))
  {
    hide Normalize, SaveRoster, EnabledRoutes, Print, Trimmed, NewOptional, NewPrimary, Runs, Tight, Named,
      RoleEnabled, Reassigned;
    RosterSaveReassigns(env, raw, payload, c, role, p, r, a);
    var current, t := Normalize(env, raw).settings, SaveRoster(env, Document(raw), payload, c).settings;
    NamedTexts(current, role, p, r, a);
    NamedRunApart(env, raw, role, p, r, a);
    SavedRosterIsNormal(env, raw, payload, c);
    KeptExactly(env, t, role, p, r, a);
  }

  lemma SavedRosterIsNormal(env: Env, raw: Value, payload: Value, c: Circumstance)
    requires SaveRoster(env, Document(raw), payload, c).Saved?
    ensures ProvidersNormal(env, SaveRoster(env, Document(raw), payload, c).settings)
  {
    hide Normalize, SaveRoster, ProvidersNormal, RestNormal, AssignmentsNormal, WithAssignmentsOf;
    SavedRosterIs(env, raw, payload, c);
    var incoming := if payload.Obj? then payload.fields else map[];
    AcceptedIsNormal(env, Obj(WithAssignmentsOf(incoming, Normalize(env, raw).settings)));
  }

  /** The routes of a role run three different models. */
  lemma NamedRunApart(env: Env, raw: Value, role: Role, p: Route, r: Option<Route>, a: Option<Route>)
    requires Normalize(env, raw).Accepted? && Named(Normalize(env, raw).settings, role, p, r, a)
    ensures Enableable(env, p) && (r.Some? ==> Enableable(env, r.value)) && (a.Some? ==> Enableable(env, a.value))
    ensures r.Some? ==> Runs(env, r.value) != Runs(env, p)
    ensures a.Some? ==> Runs(env, a.value) !in {Runs(env, p)} + ModelsOf(env, r)
  {
    hide Normalize, ProvidersNormal, RestNormal, AssignmentsNormal, EnabledRoutes, Print, Enableable, Runs, RoutesOf;
    var s := Normalize(env, raw).settings;
    AcceptedIsNormal(env, raw);
    NamedAreEnableable(env, s, role, p, r, a);
    AssignmentsAreIndependent(env, raw, role);
    if r.Some? { PrintedShape(env, r.value); }
    if a.Some? { PrintedShape(env, a.value); }
  }

  lemma KeptExactly(env: Env, t: Settings, role: Role, p: Route, r: Option<Route>, a: Option<Route>)
    requires ProvidersNormal(env, t) && Reassigned(env, t, role, p, r, a) && RoleEnabled(RoutesOf(t), p, r, a)
    requires Enableable(env, p) && (r.Some? ==> Enableable(env, r.value)) && (a.Some? ==> Enableable(env, a.value))
    requires r.Some? ==> Runs(env, r.value) != Runs(env, p)
    requires a.Some? ==> Runs(env, a.value) !in {Runs(env, p)} + ModelsOf(env, r)
    ensures RoutesOf(t) != []
    ensures At(t.primary, role) == Print(p) && At(t.reviewer, role) == OptionalText(r)
        && At(t.adjudicator, role) == OptionalText(a)
      <==> PrimaryStays(RoutesOf(t), p) && (r.Some? ==> Tight(Print(r.value))) && (a.Some? ==> Tight(Print(a.value)))
  {
    hide ProvidersNormal, EnabledRoutes, Print, Enableable, NewPrimary, NewOptional, Runs, Tight, Trimmed, At,
      PrimaryStays;
    var routes := EnabledRoutes(t);
    var q := NewPrimary(routes, p);
    PrimaryKept(env, t, p);
    if Print(q) == Print(p) {
      SameTextRunsSame(env, q, p);
      OptionalKept(env, routes, r, {Runs(env, q)});
      if OptionalText(NewOptional(env, routes, r, {Runs(env, q)})) == OptionalText(r) {
        assert NewOptional(env, routes, r, {Runs(env, q)}) == r by { NoneStaysNone(env, routes, r, {Runs(env, q)}); }
        OptionalKept(env, routes, a, {Runs(env, q)} + ModelsOf(env, r));
      }
    }
  }

  lemma NoneStaysNone(env: Env, routes: seq<Route>, x: Option<Route>, taken: set<ProviderModel>)
    ensures x.None? ==> NewOptional(env, routes, x, taken) == x
  {
  }

  lemma SameTextRunsSame(env: Env, a: Route, b: Route)
    requires Enableable(env, a) && Enableable(env, b) && Print(a) == Print(b)
    ensures Runs(env, a) == Runs(env, b)
  {
    hide Enableable, Print, Runs, Identity;
    IdentityIsWhatRuns(env, a, b, "");
  }

  predicate PrimaryStays(routes: seq<string>, p: Route)
    requires routes != []
  {
    Tight(Print(p)) || (Print(Trimmed(p)) !in routes && routes[0] == Print(p))
  }

  lemma PrimaryKept(env: Env, t: Settings, p: Route)
    requires ProvidersNormal(env, t) && EnabledRoutes(t) != [] && Enableable(env, p) && Print(p) in RoutesOf(t)
    ensures var q := NewPrimary(EnabledRoutes(t), p);
      Enableable(env, q) && (Print(q) == Print(p) <==> PrimaryStays(RoutesOf(t), p))
  {
    hide ProvidersNormal, EnabledRoutes, Print, Enableable, Tight, Trimmed, Runs, Strip, Succeeds;
    var routes := EnabledRoutes(t);
    AllEnableable(env, t);
    TrimmedText(env, p);
    if Print(Trimmed(p)) !in Printed(routes) { NoHeirForTrimmed(env, routes, p); }
  }

  /** A text cut at a blank is an Ollama route's, which has no heir but the first route. */
  lemma NoHeirForTrimmed(env: Env, routes: seq<Route>, p: Route)
    requires Enableable(env, p) && routes != [] && Print(p) in Printed(routes) && Print(Trimmed(p)) !in Printed(routes)
    ensures Heir(routes, Trimmed(p)) == routes[0] && !Tight(Print(p))
  {
    hide Print, Enableable, Tight, Strip, Runs, TrimEnd;
    TrimmedText(env, p);
    assert p.OllamaRoute?;
    HeirOrIsHeir(routes, Trimmed(p), routes[0]);
  }
}
