/** The AI settings store: saving the global roster and saving one agent's routes. */
module AiStore {
  import opened Prelude
  import opened Values
  import opened AiRoutes
  import opened AiSettings
  import opened AiNormal
  import opened AiFixed

  /** The settings file: absent, not readable as JSON, or a document. */
  datatype File = Missing | Unreadable | Document(v: Value)

  datatype StoreOutcome =
    | ReadFailed | Invalid | Crashed | NotReady | BadRole | NotEnabled | NotIndependent | WriteFailed
    | Saved(settings: Settings)

  /** Harness readiness and the write are the environment's. */
  datatype Circumstance = Circumstance(ready: Settings -> bool, writeFails: bool)

  function Written(outcome: Outcome, c: Circumstance, checkReady: bool): StoreOutcome {
    match outcome
    case Rejected => Invalid
    case Raised => Crashed
    case Accepted(t) => if checkReady && !c.ready(t) then NotReady else if c.writeFails then WriteFailed else Saved(t)
  }

  function FileAfter(file: File, outcome: StoreOutcome): File {
    if outcome.Saved? then Document(StoredJson(outcome.settings)) else file
  }

  /** The raw document, an absent file reading as an empty object. */
  function RawOf(file: File): Option<Value> {
    match file
    case Missing => Some(Obj(map[]))
    case Unreadable => None
    case Document(v) => Some(v)
  }

  // ----- the global roster -----

  /** The stored assignments replace whatever the request says of them. */
  function WithAssignmentsOf(incoming: Fields, current: Settings): Fields {
    incoming[AgentModels := AssignmentsJson(current.primary)]
            [AgentSecondOpinionModels := AssignmentsJson(current.reviewer)]
            [AgentAdjudicatorModels := AssignmentsJson(current.adjudicator)]
  }

  /** save_soc_ai_settings */
  function SaveRoster(env: Env, file: File, payload: Value, c: Circumstance): StoreOutcome {
    var incoming := if payload.Obj? then payload.fields else map[];
    match file
    case Missing => Written(Normalize(env, Obj(incoming)), c, true)
    case Unreadable => ReadFailed
    case Document(raw) =>
      match Normalize(env, raw) {
        case Rejected => Invalid
        case Raised => Crashed
        case Accepted(current) => Written(Normalize(env, Obj(WithAssignmentsOf(incoming, current))), c, true)
      }
  }

  // ----- one agent -----

  function RoleName(role: Role): string {
    match role
    case SocAnalyst => "soc-analyst"
    case IncidentResponder => "incident-responder"
    case SiemEngineer => "siem-engineer"
    case CyberThreatIntel => "cyber-threat-intel"
    case ThreatHunter => "threat-hunter"
  }

  function RoleNamed(name: string, n: nat): Option<Role>
    requires n <= |ROLES|
    decreases |ROLES| - n
  {
    if n == |ROLES| then None else if RoleName(ROLES[n]) == name then Some(ROLES[n]) else RoleNamed(name, n + 1)
  }

  /** `str(first or second or "").strip()[:260]` */
  function RouteText(env: Env, first: Value, second: Value): string {
    Truncate(Strip(env.TextOf(if Truthy(first) then first else second)), 260)
  }

  datatype Request = Request(role: Option<Role>, primary: string, reviewer: string, adjudicator: string)

  /** _agent_routes */
  function AgentRequest(env: Env, payload: Value): Request {
    var p := if payload.Obj? then payload.fields else map[];
    Request(
      RoleNamed(Strip(env.TextOf(Get(p, RoleField, Null))), 0),
      RouteText(env, Get(p, ModelRoute, Null), Get(p, Model, Null)),
      RouteText(env, Get(p, SecondOpinionModelRoute, Null), Get(p, SecondOpinionModel, Null)),
      RouteText(env, Get(p, AdjudicatorModelRoute, Null), Get(p, AdjudicatorModel, Null)))
  }

  /** _validate_enabled_routes */
  predicate RoutesEnabled(routes: seq<string>, r: Request) {
    && r.primary in routes
    && (r.reviewer != "" ==> r.reviewer in routes)
    && (r.adjudicator != "" ==> r.adjudicator in routes)
  }

  /** _validate_independent_routes */
  predicate RoutesIndependent(env: Env, s: Settings, r: Request) {
    var primary, reviewer, adjudicator :=
      Identity(env, r.primary, s.codexModel), Identity(env, r.reviewer, s.codexModel), Identity(env, r.adjudicator,
          s.codexModel);
    && (r.reviewer != "" ==> reviewer != primary)
    && (r.adjudicator != "" ==> adjudicator != primary && adjudicator != reviewer)
  }

  /** The three routes of one role replaced. */
  function WithRoutes(s: Settings, role: Role, r: Request): Settings {
    s.(primary := s.primary[role := r.primary], reviewer := s.reviewer[role := r.reviewer],
       adjudicator := s.adjudicator[role := r.adjudicator])
  }

  /** save_soc_agent_model */
  function SaveAgent(env: Env, file: File, payload: Value, c: Circumstance): StoreOutcome {
    var r := AgentRequest(env, payload);
    if r.role.None? then BadRole
    else if RawOf(file).None? then ReadFailed
    else match Normalize(env, RawOf(file).value)
      case Rejected => Invalid
      case Raised => Crashed
      case Accepted(current) =>
        if !c.ready(current) then NotReady
        else if !RoutesEnabled(RoutesOf(current), r) then NotEnabled
        else if !RoutesIndependent(env, current, r) then NotIndependent
        else Written(Normalize(env, StoredJson(WithRoutes(current, r.role.value, r))), c, false)
  }

  /** The store while its lock is held. */
  class SettingsStore {
    var file: File

    constructor (initial: File)
      ensures file == initial
    {
      file := initial;
    }

    method WriteSettings(t: Settings, c: Circumstance) returns (saved: bool)
      modifies this
      ensures saved <==> !c.writeFails
      ensures file == if saved then Document(StoredJson(t)) else old(file)
    {
      if c.writeFails { return false; }
      file := Document(StoredJson(t));
      saved := true;
    }

    method SaveSettings(env: Env, payload: Value, c: Circumstance) returns (outcome: StoreOutcome)
      modifies this
      ensures outcome == SaveRoster(env, old(file), payload, c)
      ensures file == FileAfter(old(file), outcome)
    {
      hide Normalize, StoredJson, AssignmentsJson;
      var incoming := if payload.Obj? then payload.fields else map[];
      if !file.Missing? {
        var raw := RawOf(file);
        if raw.None? { return ReadFailed; }
        var current := Normalize(env, raw.value);
        if current.Rejected? { return Invalid; }
        if current.Raised? { return Crashed; }
        incoming := incoming[AgentModels := AssignmentsJson(current.settings.primary)];
        incoming := incoming[AgentSecondOpinionModels := AssignmentsJson(current.settings.reviewer)];
        incoming := incoming[AgentAdjudicatorModels := AssignmentsJson(current.settings.adjudicator)];
      }
      var normalized := Normalize(env, Obj(incoming));
      if normalized.Rejected? { return Invalid; }
      if normalized.Raised? { return Crashed; }
      if !c.ready(normalized.settings) { return NotReady; }
      var saved := WriteSettings(normalized.settings, c);
      outcome := if saved then Saved(normalized.settings) else WriteFailed;
    }

    method SaveAgentModel(env: Env, payload: Value, c: Circumstance) returns (outcome: StoreOutcome)
      modifies this
      ensures outcome == SaveAgent(env, old(file), payload, c)
      ensures file == FileAfter(old(file), outcome)
    {
      hide Normalize, StoredJson, AgentRequest, RoutesEnabled, RoutesIndependent, RoutesOf;
      var r := AgentRequest(env, payload);
      if r.role.None? { return BadRole; }
      var raw := RawOf(file);
      if raw.None? { return ReadFailed; }
      var read := Normalize(env, raw.value);
      if read.Rejected? { return Invalid; }
      if read.Raised? { return Crashed; }
      var current := read.settings;
      if !c.ready(current) { return NotReady; }
      if !RoutesEnabled(RoutesOf(current), r) { return NotEnabled; }
      if !RoutesIndependent(env, current, r) { return NotIndependent; }
      current := current.(primary := current.primary[r.role.value := r.primary]);
      current := current.(reviewer := current.reviewer[r.role.value := r.reviewer]);
      current := current.(adjudicator := current.adjudicator[r.role.value := r.adjudicator]);
      var normalized := Normalize(env, StoredJson(current));
      if normalized.Rejected? { return Invalid; }
      if normalized.Raised? { return Crashed; }
      var saved := WriteSettings(normalized.settings, c);
      outcome := if saved then Saved(normalized.settings) else WriteFailed;
    }
  }

  // ----- one agent: nothing accepted is dropped -----

  lemma RequestedRoleIsNormal(env: Env, s: Settings, r: Request)
    requires RoutesEnabled(RoutesOf(s), r) && RoutesIndependent(env, s, r)
    ensures RoleNormal(env, RoutesOf(s), r.primary, r.reviewer, r.adjudicator, s.codexModel)
  {
    hide Identity, RoutesOf;
  }

  lemma UpdatedAssignments(env: Env, s: Settings, role: Role, r: Request)
    requires AssignmentsNormal(env, s) && RoutesEnabled(RoutesOf(s), r) && RoutesIndependent(env, s, r)
    ensures AssignmentsNormal(env, WithRoutes(s, role, r))
  {
    hide RoleNormal, EnabledRoutes, RoutesEnabled, RoutesIndependent;
    EveryRole(role);
    RequestedRoleIsNormal(env, s, r);
    SameRoutes(s, WithRoutes(s, role, r));
  }

  lemma UpdatedIsNormal(env: Env, s: Settings, role: Role, r: Request)
    requires Normal(env, s) && RoutesEnabled(RoutesOf(s), r) && RoutesIndependent(env, s, r)
    ensures Normal(env, WithRoutes(s, role, r))
    ensures Settled(WithRoutes(s, role, r)) <==> Settled(s)
  {
    hide ProvidersNormal, AssignmentsNormal, RoutesEnabled, RoutesIndependent, RoutesOf, Tight, GeoipPathOk, Round4;
    UpdatedAssignments(env, s, role, r);
    AssignmentsMove(env, s, WithRoutes(s, role, r));
  }

  /** Past the enabled and independence checks, the save stores exactly the three requested routes and
      changes nothing else, exactly when the current settings hold no value cut just after a blank. */
  lemma AgentSaveStoresExactly(env: Env, file: File, payload: Value, c: Circumstance)
    requires env.Lawful() && RawOf(file).Some? && Normalize(env, RawOf(file).value).Accepted?
    requires var current, r := Normalize(env, RawOf(file).value).settings, AgentRequest(env, payload);
      r.role.Some? && c.ready(current) && RoutesEnabled(RoutesOf(current), r) && RoutesIndependent(env, current, r)
    requires !c.writeFails
    ensures var current, r := Normalize(env, RawOf(file).value).settings, AgentRequest(env, payload);
      SaveAgent(env, file, payload, c) == Saved(WithRoutes(current, r.role.value, r)) <==> Settled(current)
  {
    hide Normalize, Normal, Settled, RoutesEnabled, RoutesIndependent, AgentRequest, RoutesOf, Env.Lawful, StoredJson;
    var current, r := Normalize(env, RawOf(file).value).settings, AgentRequest(env, payload);
    AcceptedIsNormal(env, RawOf(file).value);
    UpdatedIsNormal(env, current, r.role.value, r);
    var updated := WithRoutes(current, r.role.value, r);
    if Settled(current) {
      SettledIsFixed(env, updated);
    } else if Normalize(env, StoredJson(updated)).Accepted? {
      FirstModelIsTheModel(env, updated);
      NormalModelsFit(updated.models);
      RereadIsSettled(env, updated);
    }
  }

  lemma NormalModelsFit(models: seq<string>)
    requires ModelsNormal(models)
    ensures forall i :: 0 <= i < |models| ==> |models[i]| <= 240
  {
  }

  lemma AssignmentsMove(env: Env, s: Settings, t: Settings)
    requires ProvidersNormal(env, s)
    requires t == s.(analysisSeverity := t.analysisSeverity, pcapSeverity := t.pcapSeverity,
                     incidentSeverity := t.incidentSeverity, captureLoss := t.captureLoss,
                     primary := t.primary, reviewer := t.reviewer, adjudicator := t.adjudicator)
    ensures ProvidersNormal(env, t)
  {
    hide ModelsNormal, RosterNormal, ValidOpenclawModel, ValidCliPath, AnyEnabled, DeriveMode, UrlOk,
        RStripSlashes, FirstEnabled, Tight;
  }
}
