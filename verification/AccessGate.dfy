/** The access gate in front of classified portal writes: the phased decision, the precommitted
    audit receipt, and the observation that each response closes. */
module AccessGate {
  import opened AuditChain
  import opened AuditLedger
  import opened Bytes
  import opened Prelude
  import opened Values

  datatype Mode = Legacy | Observe | AdminEnforce | RbacEnforce

  datatype PostRoute = PostRoute(
    path: string,
    accepted: bool,
    operation: Option<string>,
    resourceId: Option<string>,
    ctiProgramWrite: bool,
    assetWrite: bool,
    promptWrite: bool,
    resourceWrite: bool,
    jsonRequest: bool)

  datatype Principal = Principal(kind: string, id: string, role: string)

  datatype Decision = Decision(
    mode: Mode,
    permission: Option<string>,
    allowed: bool,
    enforced: bool,
    wouldAuthorize: bool,
    reason: string)

  const AUTHENTICATION_PERMISSION := "authentication.login"
  const ADMIN_ENFORCED_PERMISSIONS: set<string> := ADMINISTRATOR_PERMISSIONS - ANALYST_PERMISSIONS

  predicate Enforcing(mode: Mode) {
    mode == AdminEnforce || mode == RbacEnforce
  }

  // ----- the policy -----

  /** A missing permission is the login boundary; an error is a write without a mapping. */
  datatype Required = PolicyError | Needs(name: Option<string>)

  const PATH_PERMISSIONS: map<string, Option<string>> := map[
    "/admin/login" := None,
    "/admin/logout" := Some("session.logout"),
    "/admin/action" := Some("privileged-action.execute"),
    "/api/admin/start-service" := Some("integration.manage"),
    "/api/ac-hunter/refresh" := Some("integration.manage"),
    "/api/soc-alerts/status" := Some("incident.status")]

  const OPERATION_PERMISSIONS: map<string, string> := map[
    "soc_alert_ack" := "alert.acknowledge",
    "soc_alert_pcap" := "evidence.capture-request",
    "soc_alert_analyze" := "case.reanalyze",
    "soc_alert_escalate" := "alert.escalate",
    "soc_alert_adjudicate" := "alert.adjudicate",
    "soc_incident_adjudicate" := "incident.adjudicate",
    "soc_incident_status" := "incident.status",
    "soc_incident_reanalyze" := "case.reanalyze",
    "soc_incident_reanalyze_all" := "case.reanalyze"]

  const SOC_SETTINGS_PREFIX := "/api/soc-settings/"

  function ClassifiedPermission(route: PostRoute): Option<string> {
    if route.promptWrite || SOC_SETTINGS_PREFIX <= route.path then Some("settings.manage")
    else if route.resourceWrite then Some("resource.manage")
    else if route.assetWrite then Some("asset.manage")
    else if route.ctiProgramWrite then Some("cti.manage")
    else
      var operation := if route.operation.Some? then route.operation.value else "";
      if operation in OPERATION_PERMISSIONS then Some(OPERATION_PERMISSIONS[operation]) else None
  }

  function RequiredPermission(route: PostRoute): Required {
    if !route.accepted then PolicyError
    else if route.path in PATH_PERMISSIONS then Needs(PATH_PERMISSIONS[route.path])
    else if ClassifiedPermission(route).None? then PolicyError
    else Needs(ClassifiedPermission(route))
  }

  function RolePermissions(role: string): set<string> {
    if role == "viewer" then VIEWER_PERMISSIONS
    else if role == "analyst" then ANALYST_PERMISSIONS
    else if role == "administrator" then ADMINISTRATOR_PERMISSIONS
    else {}
  }

  predicate IsAuthorized(principal: Principal, permission: string) {
    && principal.kind == "human_session"
    && permission in ADMINISTRATOR_PERMISSIONS
    && permission in RolePermissions(principal.role)
  }

  /** Everything a candidate write must show. */
  predicate Entitled(principal: Option<Principal>, permission: string, sameOrigin: bool, csrf: bool) {
    principal.Some? && IsAuthorized(principal.value, permission) && sameOrigin && csrf
  }

  function CandidateReason(principal: Option<Principal>, permission: string, sameOrigin: bool, csrf: bool): string {
    if principal.None? then "unauthenticated"
    else if !IsAuthorized(principal.value, permission) then "role_denied"
    else if !sameOrigin then "origin_denied"
    else if !csrf then "csrf_denied"
    else "authorized"
  }

  function DecideWriteAccess(route: PostRoute, mode: Mode, principal: Option<Principal>, sameOrigin: bool, csrf: bool)
    : Option<Decision>
  {
    match RequiredPermission(route)
    case PolicyError => None
    case Needs(None) => Some(Decision(mode, None, true, false, true, "authentication_boundary"))
    case Needs(Some(permission)) =>
      var candidate := Entitled(principal, permission, sameOrigin, csrf);
      var reason := CandidateReason(principal, permission, sameOrigin, csrf);
      if mode == Legacy || mode == Observe || (mode == AdminEnforce && permission !in ADMIN_ENFORCED_PERMISSIONS)
      then Some(Decision(mode, Some(permission), true, false, candidate, reason))
      else Some(Decision(mode, Some(permission), candidate, true, candidate, reason))
  }

  /** The writes an enforcing mode protects, by route alone. */
  predicate Protected(mode: Mode, route: PostRoute) {
    match RequiredPermission(route)
    case Needs(Some(permission)) =>
      mode == RbacEnforce || (mode == AdminEnforce && permission in ADMIN_ENFORCED_PERMISSIONS)
    case _ => false
  }

  /** A decision is enforced exactly on protected writes, and then allows exactly what is entitled. */
  lemma DecisionFollowsPolicy(route: PostRoute, mode: Mode, principal: Option<Principal>, sameOrigin: bool, csrf: bool)
    requires DecideWriteAccess(route, mode, principal, sameOrigin, csrf).Some?
    ensures var d := DecideWriteAccess(route, mode, principal, sameOrigin, csrf).value;
            && (d.enforced <==> Protected(mode, route))
            && (d.enforced ==> d.permission.Some? && RequiredPermission(route) == Needs(d.permission))
            && (d.enforced ==> (d.allowed <==> Entitled(principal, d.permission.value, sameOrigin, csrf)))
            && (!d.enforced ==> d.allowed)
  {
  }

  // ----- observations -----

  datatype Observation = Observation(
    requestId: string,
    fingerprint: string,
    role: string,
    permission: string,
    action: string,
    targetType: string,
    targetDigest: string,
    decision: Decision)

  /** Keyed principal fingerprint and target digest, beside the store's parameters. */
  datatype GateEnv = GateEnv(store: StoreEnv, bounds: Bounds, fingerprint: Option<Principal> -> string,
                             sha256: string -> string)

  function TextOrElse(text: Option<string>, otherwise: string): string {
    if text.Some? && text.value != "" then text.value else otherwise
  }

  function BeginObservation(env: GateEnv, route: PostRoute, mode: Mode, session: Session, sameOrigin: bool,
                            requestId: string): Option<Observation>
  {
    match DecideWriteAccess(route, mode, session.principal, sameOrigin, session.csrfAuthorized)
    case None => None
    case Some(decision) =>
      var permission := TextOrElse(decision.permission, AUTHENTICATION_PERMISSION);
      Some(Observation(
        requestId,
        env.fingerprint(session.principal),
        if session.principal.Some? then session.principal.value.role else "unauthenticated",
        permission,
        TextOrElse(route.operation, permission),
        if route.resourceId.Some? then "resource" else "route",
        env.sha256(if route.resourceId.Some? then route.resourceId.value else route.path),
        decision))
  }

  function OutcomeOf(status: int): string {
    if status >= 500 then "error" else if status >= 400 then "denied" else "allowed"
  }

  function ReasonOf(d: Decision): string {
    if d.mode == Legacy || d.mode == Observe then
      if d.reason == "authentication_boundary" then "observe_authentication_boundary"
      else if d.wouldAuthorize then "observe_would_allow"
      else "observe_would_deny_" + d.reason
    else if d.reason == "authentication_boundary" then "authentication_boundary"
    else if d.allowed then "enforce_authorized"
    else "enforce_denied_" + d.reason
  }

  function FinalFields(o: Observation, status: int, occurredAt: string): Event {
    map[OccurredAt := Str(occurredAt),
        RequestId := Str(o.requestId),
        PrincipalFingerprint := Str(o.fingerprint),
        Role := Str(o.role),
        Permission := Str(o.permission),
        Action := Str(o.action),
        TargetType := Str(o.targetType),
        TargetDigest := Str(o.targetDigest),
        Outcome := Str(OutcomeOf(status)),
        HttpStatus := Int(status),
        ReasonCode := Str(ReasonOf(o.decision))]
  }

  /** The durable admission receipt: status 100 and its own reason. */
  function ReceiptFields(o: Observation, occurredAt: string): Event {
    FinalFields(o, 100, occurredAt)[ReasonCode := Str("enforce_authorized_precommit")]
  }

  // ----- the observer's ledger and counters -----

  datatype Observer = Observer(file: Bytes, eventCount: nat, failureCount: nat)

  function RecordFailure(o: Observer): Observer {
    o.(failureCount := o.failureCount + 1)
  }

  /** Append and count: an event when it is reported, a failure otherwise. */
  function Record(env: GateEnv, observer: Observer, fields: Event, fault: Fault): (Observer, bool) {
    var r := Append(env.store, env.bounds, observer.file, Obj(fields), fault);
    if r.event.Some? then (observer.(file := r.file, eventCount := observer.eventCount + 1), true)
    else (RecordFailure(observer.(file := r.file)), false)
  }

  /** `precommit` refuses by exception anything but an allowed, enforced decision. */
  function Precommit(env: GateEnv, mode: Mode, observer: Observer, o: Observation, occurredAt: string, fault: Fault)
    : (Observer, bool)
  {
    if !Enforcing(mode) then (observer, true)
    else if !o.decision.enforced || !o.decision.allowed then (RecordFailure(observer), false)
    else Record(env, observer, ReceiptFields(o, occurredAt), fault)
  }

  function Finalize(env: GateEnv, observer: Observer, o: Observation, status: int, occurredAt: string, fault: Fault)
    : (Observer, bool)
  {
    Record(env, observer, FinalFields(o, status, occurredAt), fault)
  }

  // ----- admission -----

  datatype Session = Session(reason: string, principal: Option<Principal>, csrfAuthorized: bool)

  /** What one POST brings along. A missing value is a step that raised an exception. */
  datatype Request = Request(
    controlledEvaluation: bool,
    route: Option<PostRoute>,
    sameOrigin: Option<bool>,
    session: Option<Session>,
    requestId: string,
    occurredAt: string)

  datatype Admission = Admission(allowed: bool, status: nat, reason: string)

  datatype Begun = Begun(observer: Observer, admission: Admission, observation: Option<Observation>)

  const ADMITTED := Admission(true, 0, "not_enforced")

  function Denied(reason: string, unavailable: bool): Admission {
    Admission(false, if unavailable then 503 else if reason == "unauthenticated" then 401 else 403, reason)
  }

  function Boundary(mode: Mode, observer: Observer): Begun {
    Begun(RecordFailure(observer),
          if Enforcing(mode) then Denied("access_boundary_failed", true) else ADMITTED, None)
  }

  predicate SessionFailed(session: Session) {
    session.reason == "session_observation_failed" || session.reason == "session_touch_conflict"
  }

  function DecisionAdmission(env: GateEnv, mode: Mode, observer: Observer, o: Observation, occurredAt: string,
                             fault: Fault): Begun
  {
    if !o.decision.enforced then Begun(observer, ADMITTED, Some(o))
    else if !o.decision.allowed then Begun(observer, Denied(o.decision.reason, false), Some(o))
    else
      var (next, committed) := Precommit(env, mode, observer, o, occurredAt, fault);
      Begun(next, if committed then ADMITTED else Denied("audit_precommit_failed", true), Some(o))
  }

  /** `begin_access_observation` */
  function Begin(env: GateEnv, mode: Mode, observer: Observer, request: Request, fault: Fault): Begun {
    if request.controlledEvaluation || mode == Legacy then Begun(observer, ADMITTED, None)
    else if request.route.None? then Boundary(mode, observer)
    else if !request.route.value.accepted then Begun(observer, ADMITTED, None)
    else if request.sameOrigin.None? || request.session.None? then Boundary(mode, observer)
    else if Enforcing(mode) && SessionFailed(request.session.value) then
      Begun(observer, Denied(request.session.value.reason, true), None)
    else
      match BeginObservation(env, request.route.value, mode, request.session.value, request.sameOrigin.value,
                             request.requestId)
      case None => Boundary(mode, observer)
      case Some(o) => DecisionAdmission(env, mode, observer, o, request.occurredAt, fault)
  }

  // ----- runs over many connections -----

  /** A POST on a connection, or a response sent on it. */
  datatype Step =
    | Post(connection: nat, request: Request, fault: Fault)
    | Respond(connection: nat, status: int, occurredAt: string, fault: Fault)

  datatype Ticket = Ticket(serial: nat, observation: Observation)

  /** `dispatched` lists the requests that went past the gate; `finalized` the observations whose
      closing event was attempted. */
  datatype World = World(
    observer: Observer,
    open: map<nat, Ticket>,
    nextSerial: nat,
    dispatched: seq<Request>,
    finalized: seq<nat>)

  function Start(file: Bytes, events: nat): World {
    World(Observer(file, events, 0), map[], 0, [], [])
  }

  function Next(env: GateEnv, mode: Mode, w: World, step: Step): World {
    match step
    case Post(c, request, fault) =>
      var b := Begin(env, mode, w.observer, request, fault);
      World(b.observer,
            if b.observation.Some? then w.open[c := Ticket(w.nextSerial, b.observation.value)] else w.open - {c},
            w.nextSerial + 1,
            if b.admission.allowed then w.dispatched + [request] else w.dispatched,
            w.finalized)
    case Respond(c, status, occurredAt, fault) =>
      if c !in w.open then w
      else
        var ticket := w.open[c];
        w.(observer := Finalize(env, w.observer, ticket.observation, status, occurredAt, fault).0,
           open := w.open - {c},
           finalized := w.finalized + [ticket.serial])
  }

  function Run(env: GateEnv, mode: Mode, w: World, steps: seq<Step>): World
    decreases |steps|
  {
    if steps == [] then w else Run(env, mode, Next(env, mode, w, steps[0]), steps[1..])
  }

  /** The ledger holds the receipt of this request's observation at this position. */
  ghost predicate HasReceipt(env: GateEnv, mode: Mode, file: Bytes, request: Request, at: nat)
    requires request.route.Some? && request.sameOrigin.Some? && request.session.Some?
  {
    var o := BeginObservation(env, request.route.value, mode, request.session.value, request.sameOrigin.value,
                              request.requestId);
    var events := VerifiedEvents(env.store, env.bounds, file);
    && o.Some? && events.Some?
    && at < |events.value| && FieldsOf(events.value[at]) == ReceiptFields(o.value, request.occurredAt)
  }

  /** A request that an enforcing gate must not let through on trust. */
  predicate Guarded(mode: Mode, request: Request) {
    !request.controlledEvaluation && request.route.Some? && Protected(mode, request.route.value)
  }

  /** It was entitled to its permission and its receipt is in the verified ledger. */
  ghost predicate Justified(env: GateEnv, mode: Mode, file: Bytes, request: Request, at: nat) {
    && request.route.Some? && request.sameOrigin.Some? && request.session.Some?
    && (match RequiredPermission(request.route.value)
        case Needs(Some(permission)) =>
          Entitled(request.session.value.principal, permission, request.sameOrigin.value,
              request.session.value.csrfAuthorized)
        case _ => false)
    && HasReceipt(env, mode, file, request, at)
  }

  /** Every guarded request dispatched is justified by a receipt of its own: their positions, at or above
      `from`, grow with the order of dispatch. */
  ghost predicate AllJustified(env: GateEnv, mode: Mode, from: nat, w: World, at: seq<nat>) {
    && |at| == |w.dispatched|
    && (forall i :: 0 <= i < |at| && Guarded(mode, w.dispatched[i]) ==>
          Justified(env, mode, w.observer.file, w.dispatched[i], at[i]) && at[i] >= from)
    && (forall i, j :: 0 <= i < j < |at| && Guarded(mode, w.dispatched[i]) && Guarded(mode, w.dispatched[j]) ==>
          at[i] < at[j])
  }

  ghost function LedgerLength(env: GateEnv, file: Bytes): nat {
    var events := VerifiedEvents(env.store, env.bounds, file);
    if events.Some? then |events.value| else 0
  }

  /** Events reported never outnumber those in the ledger; the difference was counted as failures. */
  ghost predicate Counted(env: GateEnv, o: Observer) {
    var events := VerifiedEvents(env.store, env.bounds, o.file);
    events.Some? && o.eventCount <= |events.value| <= o.eventCount + o.failureCount
  }

  /** The ledger of `after` continues that of `before`. */
  ghost predicate Continues(env: GateEnv, before: Bytes, after: Bytes) {
    var earlier, later := VerifiedEvents(env.store, env.bounds, before), VerifiedEvents(env.store, env.bounds, after);
    earlier.Some? && later.Some? && earlier.value <= later.value
  }

  lemma RecordContinues(env: GateEnv, observer: Observer, fields: Event, fault: Fault)
    requires Lawful(env.store) && Counted(env, observer)
    ensures var (next, committed) := Record(env, observer, fields, fault);
            && Counted(env, next)
            && Continues(env, observer.file, next.file)
            && (committed ==> LedgerLength(env, next.file) == LedgerLength(env, observer.file) + 1)
            && (committed ==> var events := VerifiedEvents(env.store, env.bounds, next.file).value;
                              FieldsOf(events[LedgerLength(env, observer.file)]) == fields)
  {
    hide VerifiedEvents, Prepared, FieldsOf;
    AttemptHolds(env.store, env.bounds, observer.file, Attempt(Obj(fields), fault));
    if Prepared(env.store, env.bounds, observer.file, Obj(fields)).Some? {
      PreparedGrows(env.store, env.bounds, observer.file, Obj(fields));
    }
  }

  lemma ReceiptsStay(env: GateEnv, mode: Mode, before: Bytes, after: Bytes, request: Request, at: nat)
    requires Justified(env, mode, before, request, at) && Continues(env, before, after)
    ensures Justified(env, mode, after, request, at)
    ensures at < LedgerLength(env, before) <= LedgerLength(env, after)
  {
    hide VerifiedEvents, BeginObservation;
    var earlier := VerifiedEvents(env.store, env.bounds, before).value;
    var later := VerifiedEvents(env.store, env.bounds, after).value;
    assert later[at] == earlier[at];
  }

  lemma FailureContinues(env: GateEnv, observer: Observer, next: Observer)
    requires Counted(env, observer) && (next == observer || next == RecordFailure(observer))
    ensures Counted(env, next) && Continues(env, observer.file, next.file)
  {
    hide VerifiedEvents;
  }

  /** Admission leaves the observer as it was, counts a failure, or attempts one event. */
  lemma BeginObserver(env: GateEnv, mode: Mode, observer: Observer, request: Request, fault: Fault)
    ensures var next := Begin(env, mode, observer, request, fault).observer;
            || next == observer || next == RecordFailure(observer)
            || exists fields :: next == Record(env, observer, fields, fault).0
  {
    hide Record, BeginObservation, Entitled, DecideWriteAccess;
  }

  lemma BeginContinues(env: GateEnv, mode: Mode, observer: Observer, request: Request, fault: Fault)
    requires Lawful(env.store) && Counted(env, observer)
    ensures Counted(env, Begin(env, mode, observer, request, fault).observer)
    ensures Continues(env, observer.file, Begin(env, mode, observer, request, fault).observer.file)
  {
    hide Begin, Record, RecordFailure, Counted, Continues;
    BeginObserver(env, mode, observer, request, fault);
    var next := Begin(env, mode, observer, request, fault).observer;
    if next == observer || next == RecordFailure(observer) {
      FailureContinues(env, observer, next);
    } else {
      var fields :| next == Record(env, observer, fields, fault).0;
      RecordContinues(env, observer, fields, fault);
    }
  }

  lemma ObservationDecides(env: GateEnv, route: PostRoute, mode: Mode, session: Session, sameOrigin: bool,
      requestId: string)
    requires BeginObservation(env, route, mode, session, sameOrigin, requestId).Some?
    ensures DecideWriteAccess(route, mode, session.principal, sameOrigin, session.csrfAuthorized)
            == Some(BeginObservation(env, route, mode, session, sameOrigin, requestId).value.decision)
  {
  }

  /** A guarded request that is let through reached a decision that allowed it, and its receipt
      was committed. */
  lemma AdmittedWasCommitted(env: GateEnv, mode: Mode, observer: Observer, request: Request, fault: Fault)
    requires Guarded(mode, request) && Begin(env, mode, observer, request, fault).admission.allowed
    ensures request.sameOrigin.Some? && request.session.Some?
    ensures var o := BeginObservation(env, request.route.value, mode, request.session.value,
                                      request.sameOrigin.value, request.requestId);
            && o.Some? && o.value.decision.enforced && o.value.decision.allowed
            && Record(env, observer, ReceiptFields(o.value, request.occurredAt), fault)
               == (Begin(env, mode, observer, request, fault).observer, true)
  {
    hide Record, BeginObservation, DecideWriteAccess, Entitled;
    assert Enforcing(mode) && request.route.value.accepted;
    var session := request.session.value;
    var o := BeginObservation(env, request.route.value, mode, session, request.sameOrigin.value, request.requestId);
    assert o.Some?;
    ObservationDecides(env, request.route.value, mode, session, request.sameOrigin.value, request.requestId);
    DecisionFollowsPolicy(request.route.value, mode, session.principal, request.sameOrigin.value,
        session.csrfAuthorized);
  }

  /** One admission: a guarded request is let through only if it is justified, by the event just appended. */
  lemma AdmittedIsJustified(env: GateEnv, mode: Mode, observer: Observer, request: Request, fault: Fault)
    requires Lawful(env.store) && Counted(env, observer) && Guarded(mode, request)
    ensures var b := Begin(env, mode, observer, request, fault);
            b.admission.allowed ==> Justified(env, mode, b.observer.file, request, LedgerLength(env, observer.file))
  {
    hide Begin, VerifiedEvents, Record, BeginObservation, DecideWriteAccess, Entitled, FieldsOf, ReceiptFields;
    var b := Begin(env, mode, observer, request, fault);
    if b.admission.allowed {
      AdmittedWasCommitted(env, mode, observer, request, fault);
      var session := request.session.value;
      var o :=
        BeginObservation(env, request.route.value, mode, session, request.sameOrigin.value, request.requestId).value;
      ObservationDecides(env, request.route.value, mode, session, request.sameOrigin.value, request.requestId);
      DecisionFollowsPolicy(request.route.value, mode, session.principal, request.sameOrigin.value,
        session.csrfAuthorized);
      RecordContinues(env, observer, ReceiptFields(o, request.occurredAt), fault);
    }
  }

  lemma JustifiedAfter(env: GateEnv, mode: Mode, from: nat, w: World, at: seq<nat>, after: Bytes)
    requires AllJustified(env, mode, from, w, at) && Continues(env, w.observer.file, after)
    ensures AllJustified(env, mode, from, w.(observer := w.observer.(file := after)), at)
    ensures forall i :: 0 <= i < |at| && Guarded(mode, w.dispatched[i]) ==> at[i] < LedgerLength(env, w.observer.file)
    ensures LedgerLength(env, w.observer.file) <= LedgerLength(env, after)
  {
    hide Justified, VerifiedEvents, Guarded;
    forall i | 0 <= i < |at| && Guarded(mode, w.dispatched[i])
      ensures Justified(env, mode, after, w.dispatched[i], at[i]) && at[i] < LedgerLength(env, w.observer.file)
    {
      ReceiptsStay(env, mode, w.observer.file, after, w.dispatched[i], at[i]);
    }
  }

  /** A dispatched request adds its position. */
  lemma DispatchedIsJustified(env: GateEnv, mode: Mode, from: nat, w: World, at: seq<nat>, request: Request,
                              position: nat)
    requires AllJustified(env, mode, from, w, at)
    requires forall i :: 0 <= i < |at| && Guarded(mode, w.dispatched[i]) ==> at[i] < position
    requires Guarded(mode, request) ==> Justified(env, mode, w.observer.file, request, position) && position >= from
    ensures AllJustified(env, mode, from, w.(dispatched := w.dispatched + [request]), at + [position])
  {
    hide Justified, Guarded;
    var longer := w.dispatched + [request];
    assert forall i :: 0 <= i < |at| ==> longer[i] == w.dispatched[i] && (at + [position])[i] == at[i];
  }

  lemma OtherFieldsDoNotMatter(env: GateEnv, mode: Mode, from: nat, a: World, b: World, at: seq<nat>)
    requires AllJustified(env, mode, from, a, at) && a.dispatched == b.dispatched && a.observer.file == b.observer.file
    ensures AllJustified(env, mode, from, b, at)
  {
    hide Justified, Guarded;
  }

  /** What one step does to the receipts. */
  ghost function PositionsAfter(env: GateEnv, mode: Mode, w: World, at: seq<nat>, step: Step): seq<nat> {
    if step.Post? && Begin(env, mode, w.observer, step.request, step.fault).admission.allowed
    then at + [LedgerLength(env, w.observer.file)]
    else at
  }

  lemma PostKeepsJustified(env: GateEnv, mode: Mode, from: nat, w: World, at: seq<nat>, step: Step)
    requires Lawful(env.store) && Counted(env, w.observer) && AllJustified(env, mode, from, w, at)
    requires from <= LedgerLength(env, w.observer.file) && step.Post?
    ensures var next := Next(env, mode, w, step);
            && Counted(env, next.observer) && from <= LedgerLength(env, next.observer.file)
            && AllJustified(env, mode, from, next, PositionsAfter(env, mode, w, at, step))
  {
    hide Begin, Counted, Continues, AllJustified, Justified, Guarded, LedgerLength;
    var next, file := Next(env, mode, w, step), Begin(env, mode, w.observer, step.request, step.fault).observer.file;
    BeginContinues(env, mode, w.observer, step.request, step.fault);
    JustifiedAfter(env, mode, from, w, at, file);
    var moved := w.(observer := w.observer.(file := file));
    if Begin(env, mode, w.observer, step.request, step.fault).admission.allowed {
      if Guarded(mode, step.request) { AdmittedIsJustified(env, mode, w.observer, step.request, step.fault); }
      EarlierPositions(env, mode, from, moved, at);
      var position := LedgerLength(env, w.observer.file);
      DispatchedIsJustified(env, mode, from, moved, at, step.request, position);
      OtherFieldsDoNotMatter(env, mode, from, moved.(dispatched := moved.dispatched + [step.request]), next,
                             at + [position]);
    } else {
      OtherFieldsDoNotMatter(env, mode, from, moved, next, at);
    }
  }

  lemma EarlierPositions(env: GateEnv, mode: Mode, from: nat, w: World, at: seq<nat>)
    requires AllJustified(env, mode, from, w, at)
    ensures |at| == |w.dispatched|
  {
    hide Justified, Guarded;
  }

  lemma RespondKeepsJustified(env: GateEnv, mode: Mode, from: nat, w: World, at: seq<nat>, step: Step)
    requires Lawful(env.store) && Counted(env, w.observer) && AllJustified(env, mode, from, w, at)
    requires from <= LedgerLength(env, w.observer.file) && step.Respond?
    ensures var next := Next(env, mode, w, step);
            && Counted(env, next.observer) && from <= LedgerLength(env, next.observer.file)
            && AllJustified(env, mode, from, next, at)
  {
    hide Record, Counted, Continues, AllJustified, LedgerLength;
    if step.connection in w.open {
      var next := Next(env, mode, w, step);
      var fields := FinalFields(w.open[step.connection].observation, step.status, step.occurredAt);
      RecordContinues(env, w.observer, fields, step.fault);
      JustifiedAfter(env, mode, from, w, at, next.observer.file);
      OtherFieldsDoNotMatter(env, mode, from, w.(observer := w.observer.(file := next.observer.file)), next, at);
    }
  }

  lemma {:induction false} RunKeepsJustified(env: GateEnv, mode: Mode, from: nat, w: World, at: seq<nat>,
                                             steps: seq<Step>)
    returns (positions: seq<nat>)
    requires Lawful(env.store) && Counted(env, w.observer) && AllJustified(env, mode, from, w, at)
    requires from <= LedgerLength(env, w.observer.file)
    ensures Counted(env, Run(env, mode, w, steps).observer)
    ensures AllJustified(env, mode, from, Run(env, mode, w, steps), positions)
    decreases |steps|
  {
    hide Next, Counted, AllJustified, LedgerLength, PositionsAfter;
    if steps == [] {
      positions := at;
    } else {
      if steps[0].Post? {
        PostKeepsJustified(env, mode, from, w, at, steps[0]);
        positions := RunKeepsJustified(env, mode, from, Next(env, mode, w, steps[0]),
                                       PositionsAfter(env, mode, w, at, steps[0]), steps[1..]);
      } else {
        RespondKeepsJustified(env, mode, from, w, at, steps[0]);
        positions := RunKeepsJustified(env, mode, from, Next(env, mode, w, steps[0]), at, steps[1..]);
      }
    }
  }

  /** In every run on a verified ledger, with any append failing anywhere, whatever guarded write was
      dispatched had been entitled and has a receipt of its own, appended in this run, in the ledger, which
      still verifies; and the counters bracket the ledger's length. */
  lemma NoGuardedWriteWithoutReceipt(env: GateEnv, mode: Mode, file: Bytes, steps: seq<Step>)
    requires Lawful(env.store) && VerifiedEvents(env.store, env.bounds, file).Some?
    ensures var from := |VerifiedEvents(env.store, env.bounds, file).value|;
            var w := Run(env, mode, Start(file, from), steps);
            && Counted(env, w.observer)
            && exists at :: AllJustified(env, mode, from, w, at)
  {
    hide Run, VerifiedEvents;
    var from := |VerifiedEvents(env.store, env.bounds, file).value|;
    assert AllJustified(env, mode, from, Start(file, from), []);
    var at := RunKeepsJustified(env, mode, from, Start(file, from), [], steps);
  }

  // ----- each observation is closed at most once -----

  /** Open tickets have distinct serials not yet finalized, and no serial was finalized twice. */
  ghost predicate TicketsFresh(w: World) {
    && (forall c :: c in w.open ==> w.open[c].serial < w.nextSerial && w.open[c].serial !in w.finalized)
    && (forall c, d :: c in w.open && d in w.open && c != d ==> w.open[c].serial != w.open[d].serial)
    && (forall i :: 0 <= i < |w.finalized| ==> w.finalized[i] < w.nextSerial)
    && (forall i, j :: 0 <= i < j < |w.finalized| ==> w.finalized[i] != w.finalized[j])
  }

  lemma {:induction false} EachObservationFinalizedOnce(env: GateEnv, mode: Mode, w: World, steps: seq<Step>)
    requires TicketsFresh(w)
    ensures TicketsFresh(Run(env, mode, w, steps))
    decreases |steps|
  {
    hide Begin, Finalize;
    if steps != [] {
      var next := Next(env, mode, w, steps[0]);
      assert TicketsFresh(next);
      EachObservationFinalizedOnce(env, mode, next, steps[1..]);
    }
  }

  // ----- the runtime objects -----

  /** One HTTP handler; it carries at most one open observation. */
  class Handler {
    var observation: Option<Observation>

    constructor ()
      ensures observation == None
    {
      observation := None;
    }
  }

  class AccessObserverRuntime {
    const mode: Mode
    const store: AuditStore
    var eventCount: nat
    var failureCount: nat

    constructor (mode: Mode, store: AuditStore, initialEventCount: nat)
      ensures this.mode == mode && this.store == store
      ensures State() == Observer(store.file, initialEventCount, 0)
    {
      this.mode, this.store := mode, store;
      eventCount, failureCount := initialEventCount, 0;
    }

    function State(): Observer
      reads this, store
    {
      Observer(store.file, eventCount, failureCount)
    }

    method CountFailure()
      modifies this
      ensures State() == RecordFailure(old(State()))
    {
      failureCount := failureCount + 1;
    }

    method AppendAndCount(env: GateEnv, fields: Event, fault: Fault) returns (done: bool)
      modifies this, store
      ensures (State(), done) == Record(env, old(State()), fields, fault)
    {
      hide Append;
      var event := store.AppendVerifiedEvent(env.store, env.bounds, Obj(fields), fault);
      if event.None? {
        CountFailure();
        return false;
      }
      eventCount := eventCount + 1;
      return true;
    }

    method PrecommitObservation(env: GateEnv, o: Observation, occurredAt: string, fault: Fault) returns (done: bool)
      modifies this, store
      ensures (State(), done) == Precommit(env, mode, old(State()), o, occurredAt, fault)
    {
      if !Enforcing(mode) { return true; }
      if !o.decision.enforced || !o.decision.allowed {
        CountFailure();
        return false;
      }
      done := AppendAndCount(env, ReceiptFields(o, occurredAt), fault);
    }

    /** `begin_access_observation` on a handler. */
    method BeginAccess(env: GateEnv, handler: Handler, request: Request, fault: Fault) returns (admission: Admission)
      modifies this, store, handler
      ensures Begun(State(), admission, handler.observation) == Begin(env, mode, old(State()), request, fault)
    {
      handler.observation := None;
      if request.controlledEvaluation || mode == Legacy { return ADMITTED; }
      if request.route.Some? && !request.route.value.accepted { return ADMITTED; }
      if request.route.None? || request.sameOrigin.None? || request.session.None? {
        admission := RefuseAtBoundary();
        return;
      }
      if Enforcing(mode) && SessionFailed(request.session.value) {
        return Denied(request.session.value.reason, true);
      }
      var begun := BeginObservation(env, request.route.value, mode, request.session.value,
                                    request.sameOrigin.value, request.requestId);
      if begun.None? {
        admission := RefuseAtBoundary();
        return;
      }
      var o := begun.value;
      handler.observation := Some(o);
      if !o.decision.enforced { return ADMITTED; }
      if !o.decision.allowed { return Denied(o.decision.reason, false); }
      var committed := PrecommitObservation(env, o, request.occurredAt, fault);
      return if committed then ADMITTED else Denied("audit_precommit_failed", true);
    }

    method RefuseAtBoundary() returns (admission: Admission)
      modifies this
      ensures Begun(State(), admission, None) == Boundary(mode, old(State()))
    {
      CountFailure();
      admission := if Enforcing(mode) then Denied("access_boundary_failed", true) else ADMITTED;
    }

    /** `finalize_access_observation`: the observation is taken off the handler before its event is
        attempted, so a second response finds nothing to close. */
    method FinalizeAccess(env: GateEnv, handler: Handler, status: int, occurredAt: string, fault: Fault)
      modifies this, store, handler
      ensures handler.observation == None
      ensures State() == if old(handler.observation).None? then old(State())
                         else Finalize(env, old(State()), old(handler.observation).value, status, occurredAt, fault).0
    {
      if handler.observation.None? { return; }
      var o := handler.observation.value;
      handler.observation := None;
      var _ := AppendAndCount(env, FinalFields(o, status, occurredAt), fault);
    }
  }
}
