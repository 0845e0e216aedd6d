/** What the access gate lets through and what it writes down, in terms of the request: who holds which
    permission, which requests are admitted, how the others are refused, and what the ledger says of each. */
module AccessAdmission {
  import opened Prelude
  import opened Values
  import opened AuditChain
  import opened AuditLedger
  import opened Bytes
  import opened AccessGate

  // ----- roles -----

  /** Only human sessions are authorized; a viewer's permissions are every role's, an analyst's are also an
      administrator's, the rest an administrator's alone, and any other role holds none. */
  lemma RolesAreNested(principal: Principal, permission: string)
    ensures IsAuthorized(principal, permission) <==>
      && principal.kind == "human_session"
      && (|| (permission in VIEWER_PERMISSIONS && principal.role in HUMAN_ROLES)
          || (permission in ANALYST_PERMISSIONS && principal.role in {"analyst", "administrator"})
          || (permission in ADMINISTRATOR_PERMISSIONS && principal.role == "administrator"))
  {
    PermissionsAreNested();
    RolesDiffer();
    hide VIEWER_PERMISSIONS, ANALYST_PERMISSIONS, ADMINISTRATOR_PERMISSIONS;
  }

  lemma PermissionsAreNested()
    ensures VIEWER_PERMISSIONS <= ANALYST_PERMISSIONS <= ADMINISTRATOR_PERMISSIONS
  {
  }

  lemma RolesDiffer()
    ensures HUMAN_ROLES == {"viewer", "analyst", "administrator"}
    ensures "viewer" != "analyst" && "viewer" != "administrator" && "analyst" != "administrator"
  {
    assert |"viewer"| == 6 && |"analyst"| == 7 && |"administrator"| == 13;
  }

  // ----- which permission a write needs -----

  /** Any of the flags that mark an administrative write. */
  predicate Administrative(route: PostRoute) {
    || route.promptWrite || SOC_SETTINGS_PREFIX <= route.path
    || route.resourceWrite || route.assetWrite || route.ctiProgramWrite
  }

  predicate NeedsOneOf(route: PostRoute, permissions: set<string>) {
    match RequiredPermission(route)
    case Needs(Some(permission)) => permission in permissions
    case _ => false
  }

  /** An accepted write on no path of its own: an administrative one needs a permission analysts do not hold,
      an alert or incident operation one they do, and any other is a policy error. */
  lemma WritesNeed(route: PostRoute)
    requires route.accepted && route.path !in PATH_PERMISSIONS
    ensures Administrative(route) ==> NeedsOneOf(route, ADMIN_ENFORCED_PERMISSIONS)
    ensures !Administrative(route) && route.operation.Some? && route.operation.value in OPERATION_PERMISSIONS
            ==> NeedsOneOf(route, ANALYST_PERMISSIONS)
    ensures !Administrative(route) && (route.operation.None? || route.operation.value !in OPERATION_PERMISSIONS)
            ==> RequiredPermission(route) == PolicyError
  {
    hide PATH_PERMISSIONS;
    if Administrative(route) {
      AdministrativePermissions();
    } else if route.operation.Some? && route.operation.value in OPERATION_PERMISSIONS {
      OperationPermissions(route.operation.value);
    } else {
      NoOperation();
    }
  }

  lemma AdministrativePermissions()
    ensures {"settings.manage", "resource.manage", "asset.manage", "cti.manage"} <= ADMIN_ENFORCED_PERMISSIONS
  {
    assert forall p :: p in ANALYST_PERMISSIONS ==> |p| != 10 && |p| != 12 && (|p| == 15 ==> p[0] == 'i');
    assert |"settings.manage"| == 15 && |"resource.manage"| == 15 && |"asset.manage"| == 12 && |"cti.manage"| == 10;
  }

  lemma OperationPermissions(operation: string)
    requires operation in OPERATION_PERMISSIONS
    ensures OPERATION_PERMISSIONS[operation] in ANALYST_PERMISSIONS
  {
  }

  lemma NoOperation()
    ensures "" !in OPERATION_PERMISSIONS
  {
    assert forall operation :: operation in OPERATION_PERMISSIONS ==> |operation| > 0;
  }

  /** Signing in is the only write that needs no permission, and whatever another write needs is a permission
      administrators hold. */
  lemma AdministratorsHoldAll(route: PostRoute)
    ensures RequiredPermission(route) == Needs(None) <==> route.accepted && route.path == "/admin/login"
    ensures RequiredPermission(route).Needs? && RequiredPermission(route).name.Some?
            ==> NeedsOneOf(route, ADMINISTRATOR_PERMISSIONS)
  {
    PathPermissions(route.path);
    if route.accepted && route.path !in PATH_PERMISSIONS {
      hide PATH_PERMISSIONS, OPERATION_PERMISSIONS;
      PermissionsAreNested();
      hide VIEWER_PERMISSIONS, ANALYST_PERMISSIONS, ADMINISTRATOR_PERMISSIONS;
      WritesNeed(route);
    }
  }

  lemma PathPermissions(path: string)
    ensures "/admin/login" in PATH_PERMISSIONS
    ensures path in PATH_PERMISSIONS ==>
      (PATH_PERMISSIONS[path].None? <==> path == "/admin/login")
      && (PATH_PERMISSIONS[path].Some? ==> PATH_PERMISSIONS[path].value in ADMINISTRATOR_PERMISSIONS)
  {
  }

  /** Which writes the enforcing modes protect: all that need a permission, or only those whose permission
      analysts lack. */
  lemma ProtectedWrites(route: PostRoute)
    ensures !Protected(Legacy, route) && !Protected(Observe, route)
    ensures Protected(RbacEnforce, route) <==> NeedsOneOf(route, ADMINISTRATOR_PERMISSIONS)
    ensures Protected(AdminEnforce, route)
            <==> NeedsOneOf(route, ADMINISTRATOR_PERMISSIONS) && !NeedsOneOf(route, ANALYST_PERMISSIONS)
  {
    AdministratorsHoldAll(route);
    hide RequiredPermission, VIEWER_PERMISSIONS, ANALYST_PERMISSIONS, ADMINISTRATOR_PERMISSIONS;
  }

  // ----- decisions -----

  /** A decision on a write that needs a permission: it records whether the write would be authorized, and of
      the four things a write must show it names the first that is missing. */
  lemma DecisionTells(route: PostRoute, mode: Mode, principal: Option<Principal>, sameOrigin: bool, csrf: bool,
                      permission: string)
    requires RequiredPermission(route) == Needs(Some(permission))
    ensures var decision := DecideWriteAccess(route, mode, principal, sameOrigin, csrf);
      && decision.Some?
      && var d := decision.value;
         var authorized := principal.Some? && IsAuthorized(principal.value, permission);
         && d.mode == mode && d.permission == Some(permission)
         && (d.wouldAuthorize <==> authorized && sameOrigin && csrf)
         && (d.reason == "unauthenticated" <==> principal.None?)
         && (d.reason == "role_denied" <==> principal.Some? && !authorized)
         && (d.reason == "origin_denied" <==> authorized && !sameOrigin)
         && (d.reason == "csrf_denied" <==> authorized && sameOrigin && !csrf)
         && (d.reason == "authorized" <==> d.wouldAuthorize)
  {
    hide RequiredPermission, IsAuthorized, ADMIN_ENFORCED_PERMISSIONS;
    CausesDiffer();
  }

  lemma CausesDiffer()
    ensures |"unauthenticated"| == 15 && |"role_denied"| == 11 && |"origin_denied"| == 13
    ensures "csrf_denied"[0] == 'c' && "role_denied"[0] == 'r' && |"csrf_denied"| == 11 && |"authorized"| == 10
    ensures |"authentication_boundary"| == 23
  {
  }

  // ----- admission -----

  /** Its route, its origin and its session could be read. */
  predicate IsRead(request: Request) {
    request.route.Some? && request.sameOrigin.Some? && request.session.Some?
  }

  /** The request comes as far as a decision: it was read, and its session did not fail. */
  predicate Reaches(request: Request) {
    && IsRead(request)
    && request.session.value.reason !in {"session_observation_failed", "session_touch_conflict"}
  }

  predicate EntitledRequest(request: Request)
    requires IsRead(request)
  {
    match RequiredPermission(request.route.value)
    case Needs(Some(permission)) =>
      Entitled(request.session.value.principal, permission, request.sameOrigin.value,
               request.session.value.csrfAuthorized)
    case _ => false
  }

  /** The ledger takes the receipt of the request's observation, and nothing fails meanwhile. */
  ghost predicate Receipted(env: GateEnv, mode: Mode, file: Bytes, request: Request, fault: Fault)
    requires IsRead(request)
  {
    var o := BeginObservation(env, request.route.value, mode, request.session.value, request.sameOrigin.value,
                              request.requestId);
    fault == NoFault && o.Some?
    && CanTake(env.store, env.bounds, file, Obj(ReceiptFields(o.value, request.occurredAt)))
  }

  /** The requests an enforcing gate lets through: evaluations under control, writes that are not accepted
      as portal writes, and those that reach a decision on a mapped write and, if the mode protects it, are
      entitled to it and leave a receipt. */
  ghost predicate Passes(env: GateEnv, mode: Mode, file: Bytes, request: Request, fault: Fault) {
    || request.controlledEvaluation
    || (request.route.Some? && !request.route.value.accepted)
    || (&& Reaches(request)
        && RequiredPermission(request.route.value).Needs?
        && (Protected(mode, request.route.value) ==>
              EntitledRequest(request) && Receipted(env, mode, file, request, fault)))
  }

  lemma RecordIsAppend(env: GateEnv, observer: Observer, fields: Event, fault: Fault)
    requires MacIsSha256(env.store.chain)
    ensures Record(env, observer, fields, fault).1
            <==> fault == NoFault && CanTake(env.store, env.bounds, observer.file, Obj(fields))
  {
    hide CanTake, Append;
    AppendSucceedsExactly(env.store, env.bounds, observer.file, Obj(fields), fault);
  }

  /** Who gets in: everybody while the gate only observes, and exactly the requests that pass when it
      enforces. */
  lemma AdmittedExactly(env: GateEnv, mode: Mode, observer: Observer, request: Request, fault: Fault)
    requires MacIsSha256(env.store.chain)
    ensures Begin(env, mode, observer, request, fault).admission.allowed
            <==> !Enforcing(mode) || Passes(env, mode, observer.file, request, fault)
  {
    hide CanTake, EntitledRequest, RequiredPermission, MacIsSha256, BeginObservation, DecisionAdmission, Protected;
    if IsRead(request) {
      ObservationOf(env, mode, request);
      ProtectedIsAccepted(mode, request.route.value);
      ProtectedNeedsEnforcing(mode, request.route.value);
      var o := BeginObservation(env, request.route.value, mode, request.session.value, request.sameOrigin.value,
                                request.requestId);
      if o.Some? { DecisionLetsIn(env, mode, observer, o.value, request.occurredAt, fault); }
    }
  }

  lemma DecisionLetsIn(env: GateEnv, mode: Mode, observer: Observer, o: Observation, occurredAt: string, fault: Fault)
    requires MacIsSha256(env.store.chain)
    ensures DecisionAdmission(env, mode, observer, o, occurredAt, fault).admission.allowed
            <==> || !o.decision.enforced
                 || (o.decision.allowed
                     && (Enforcing(mode) ==>
                           && fault == NoFault
                           && CanTake(env.store, env.bounds, observer.file, Obj(ReceiptFields(o, occurredAt)))))
  {
    hide Record, CanTake, ReceiptFields, MacIsSha256;
    RecordIsAppend(env, observer, ReceiptFields(o, occurredAt), fault);
  }

  lemma ProtectedNeedsEnforcing(mode: Mode, route: PostRoute)
    ensures Protected(mode, route) ==> Enforcing(mode)
  {
  }

  /** What the observation of a request decides. */
  lemma ObservationOf(env: GateEnv, mode: Mode, request: Request)
    requires IsRead(request)
    ensures var o := BeginObservation(env, request.route.value, mode, request.session.value,
                                      request.sameOrigin.value, request.requestId);
      && (o.None? <==> RequiredPermission(request.route.value) == PolicyError)
      && (o.Some? ==>
            var d := o.value.decision;
            && (d.enforced <==> Protected(mode, request.route.value))
            && (d.enforced ==> (d.allowed <==> EntitledRequest(request)))
            && (d.enforced && !d.allowed ==>
                  (d.reason == "unauthenticated" <==> request.session.value.principal.None?)))
  {
    hide RequiredPermission, IsAuthorized, ADMIN_ENFORCED_PERMISSIONS, FinalFields;
    CausesDiffer();
  }

  /** How the others are refused: 401 and 403 for a protected write that is not entitled, without and with a
      principal; 503 where no decision could be made or its receipt could not be written. */
  lemma RefusedWith(env: GateEnv, mode: Mode, observer: Observer, request: Request, fault: Fault)
    requires MacIsSha256(env.store.chain)
    requires !Begin(env, mode, observer, request, fault).admission.allowed
    ensures var status := Begin(env, mode, observer, request, fault).admission.status;
      var refused := Reaches(request) && Protected(mode, request.route.value) && !EntitledRequest(request);
      status == if !refused then 503 else if request.session.value.principal.None? then 401 else 403
  {
    hide Record, Entitled, RequiredPermission, BeginObservation, MacIsSha256, ADMIN_ENFORCED_PERMISSIONS;
    CausesDiffer();
    FailuresAreNotCauses();
    if IsRead(request) { ObservationOf(env, mode, request); }
  }

  /** What admission counts when the gate enforces: an event for a protected write let through; a failure for
      every refusal with 503 but that of a failed session; and nothing otherwise. */
  lemma AdmissionCounts(env: GateEnv, mode: Mode, observer: Observer, request: Request, fault: Fault)
    requires Enforcing(mode) && !request.controlledEvaluation
    ensures var b := Begin(env, mode, observer, request, fault);
      var protected := Reaches(request) && Protected(mode, request.route.value);
      var events, failures := b.observer.eventCount - observer.eventCount,
                              b.observer.failureCount - observer.failureCount;
      && events == (if b.admission.allowed && protected then 1 else 0)
      && failures == (if b.admission.status == 503 && !(IsRead(request) && !Reaches(request)) then 1 else 0)
  {
    hide EntitledRequest, Protected, BeginObservation, DecisionAdmission;
    if IsRead(request) {
      ObservationOf(env, mode, request);
      ProtectedIsAccepted(mode, request.route.value);
      var o := BeginObservation(env, request.route.value, mode, request.session.value, request.sameOrigin.value,
                                request.requestId);
      if o.Some? { DecisionCounts(env, mode, observer, o.value, request.occurredAt, fault); }
    }
  }

  lemma DecisionCounts(env: GateEnv, mode: Mode, observer: Observer, o: Observation, occurredAt: string, fault: Fault)
    requires Enforcing(mode)
    ensures var b := DecisionAdmission(env, mode, observer, o, occurredAt, fault);
      && b.observer.eventCount == observer.eventCount + (if b.admission.allowed && o.decision.enforced then 1 else 0)
      && b.observer.failureCount == observer.failureCount + (if b.admission.status == 503 then 1 else 0)
  {
    hide Record, ReceiptFields;
    RecordCounts(env, observer, ReceiptFields(o, occurredAt), fault);
  }

  lemma RecordCounts(env: GateEnv, observer: Observer, fields: Event, fault: Fault)
    ensures var (next, committed) := Record(env, observer, fields, fault);
      && next.eventCount == observer.eventCount + (if committed then 1 else 0)
      && next.failureCount == observer.failureCount + (if committed then 0 else 1)
  {
    hide Append;
  }

  lemma ProtectedIsAccepted(mode: Mode, route: PostRoute)
    ensures Protected(mode, route) ==> route.accepted
  {
  }

  lemma FailuresAreNotCauses()
    ensures |"session_observation_failed"| == 26 && |"session_touch_conflict"| == 22
  {
  }

  // ----- what the ledger says -----

  /** The reason code of an event tells what was decided, and is never that of a receipt. */
  lemma ReasonCodeTells(route: PostRoute, mode: Mode, principal: Option<Principal>, sameOrigin: bool, csrf: bool)
    requires DecideWriteAccess(route, mode, principal, sameOrigin, csrf).Some?
    ensures var d := DecideWriteAccess(route, mode, principal, sameOrigin, csrf).value;
      var code := ReasonOf(d);
      && code != "enforce_authorized_precommit"
      && (d.permission.None? <==> RequiredPermission(route) == Needs(None))
      && if Enforcing(mode) then
           && (code == "authentication_boundary" <==> d.permission.None?)
           && (code == "enforce_authorized" <==> d.permission.Some? && d.allowed)
           && (!d.allowed ==> code == "enforce_denied_" + d.reason)
         else
           && (code == "observe_authentication_boundary" <==> d.permission.None?)
           && (code == "observe_would_allow" <==> d.permission.Some? && d.wouldAuthorize)
           && (d.permission.Some? && !d.wouldAuthorize ==> code == "observe_would_deny_" + d.reason)
  {
    hide RequiredPermission, IsAuthorized, ADMIN_ENFORCED_PERMISSIONS;
    CausesDiffer();
    CodesDiffer();
    var d := DecideWriteAccess(route, mode, principal, sameOrigin, csrf).value;
    if d.permission.Some? { DecisionTells(route, mode, principal, sameOrigin, csrf, d.permission.value); }
  }

  lemma CodesDiffer()
    ensures |"enforce_authorized_precommit"| == 28 && "enforce_authorized_precommit"[8] == 'a'
    ensures |"enforce_denied_"| == 15 && "enforce_denied_"[8] == 'd'
    ensures |"enforce_authorized"| == 18 && |"observe_would_allow"| == 19 && |"observe_would_deny_"| == 19
    ensures |"observe_authentication_boundary"| == 31
  {
  }

  /** The closing event of a request: how it ended, who sent it and what it was aimed at. */
  lemma ClosingEventTells(env: GateEnv, mode: Mode, request: Request, o: Observation, status: int, occurredAt: string)
    requires IsRead(request)
    requires BeginObservation(env, request.route.value, mode, request.session.value, request.sameOrigin.value,
                              request.requestId) == Some(o)
    ensures var f, route, principal := FinalFields(o, status, occurredAt), request.route.value,
                                       request.session.value.principal;
      && f[HttpStatus] == Int(status) && f[OccurredAt] == Str(occurredAt) && f[RequestId] == Str(request.requestId)
      && (f[Outcome] == Str("allowed") <==> status < 400)
      && (f[Outcome] == Str("denied") <==> 400 <= status < 500)
      && (f[Outcome] == Str("error") <==> 500 <= status)
      && f[PrincipalFingerprint] == Str(env.fingerprint(principal))
      && f[Role] == Str(if principal.Some? then principal.value.role else "unauthenticated")
      && (f[TargetType] == Str("resource") <==> route.resourceId.Some?)
      && (f[TargetType] == Str("route") <==> route.resourceId.None?)
      && f[TargetDigest] == Str(env.sha256(if route.resourceId.Some? then route.resourceId.value else route.path))
      && (forall permission :: permission != "" && RequiredPermission(route) == Needs(Some(permission)) ==>
            f[Permission] == Str(permission))
  {
    FinalMembers(o, status, occurredAt);
    hide RequiredPermission, CandidateReason, Entitled, ADMIN_ENFORCED_PERMISSIONS, ReasonOf, FinalFields;
    OutcomesDiffer();
  }

  lemma OutcomesDiffer()
    ensures |"allowed"| == 7 && |"denied"| == 6 && |"error"| == 5 && |"resource"| == 8 && |"route"| == 5
  {
  }

  /** No receipt reads like the closing event of any request. */
  lemma ReceiptIsNoClosingEvent(env: GateEnv, mode: Mode, request: Request, o: Observation, occurredAt: string,
                                receipt: Observation, status: int, receivedAt: string)
    requires IsRead(request)
    requires BeginObservation(env, request.route.value, mode, request.session.value, request.sameOrigin.value,
                              request.requestId) == Some(o)
    ensures ReceiptFields(receipt, receivedAt) != FinalFields(o, status, occurredAt)
    ensures ReceiptFields(receipt, receivedAt)[HttpStatus] == Int(100)
  {
    hide RequiredPermission, DecideWriteAccess, ReasonOf;
    ReasonCodeTells(request.route.value, mode, request.session.value.principal, request.sameOrigin.value,
                    request.session.value.csrfAuthorized);
    assert ReceiptFields(receipt, receivedAt)[ReasonCode] != FinalFields(o, status, occurredAt)[ReasonCode];
  }

  /** A response on a connection with an open observation, if the ledger can take its event: the event is
      appended, counted, and the observation closed. */
  lemma ResponseIsRecorded(env: GateEnv, mode: Mode, w: World, c: nat, status: int, occurredAt: string)
    requires Lawful(env.store) && c in w.open
    requires CanTake(env.store, env.bounds, w.observer.file,
                     Obj(FinalFields(w.open[c].observation, status, occurredAt)))
    ensures var next := Next(env, mode, w, Respond(c, status, occurredAt, NoFault));
      && c !in next.open && next.observer.eventCount == w.observer.eventCount + 1
      && var before, after := VerifiedEvents(env.store, env.bounds, w.observer.file),
                              VerifiedEvents(env.store, env.bounds, next.observer.file);
         && before.Some? && after.Some? && |after.value| == |before.value| + 1 && before.value <= after.value
         && FieldsOf(after.value[|before.value|]) == FinalFields(w.open[c].observation, status, occurredAt)
  {
    hide CanTake, VerifiedEvents, FinalFields, FieldsOf, GrewBy, Prepared;
    var fields := FinalFields(w.open[c].observation, status, occurredAt);
    AppendSucceedsExactly(env.store, env.bounds, w.observer.file, Obj(fields), NoFault);
    AppendGrowsOrKeeps(env.store, env.bounds, w.observer.file, Obj(fields), NoFault);
    var event := Append(env.store, env.bounds, w.observer.file, Obj(fields), NoFault).event.value;
    GrowthTells(env.store, env.bounds, w.observer.file,
                Append(env.store, env.bounds, w.observer.file, Obj(fields), NoFault).file, event, Obj(fields));
  }

  lemma GrowthTells(env: StoreEnv, bounds: Bounds, before: Bytes, after: Bytes, event: Event, fields: Value)
    requires GrewBy(env, bounds, before, after, event, fields)
    ensures var earlier, later := VerifiedEvents(env, bounds, before), VerifiedEvents(env, bounds, after);
      && earlier.Some? && later.Some? && later.value == earlier.value + [event]
      && fields.Obj? && FieldsOf(event) == fields.fields
  {
  }

  // ----- every event is valid -----

  /** Fingerprints and digests are 64 hexadecimal digits. */
  ghost predicate GateLawful(env: GateEnv) {
    && Lawful(env.store)
    && (forall p :: IsSha256(env.fingerprint(p)))
    && (forall text :: IsSha256(env.sha256(text)))
  }

  predicate IsTimestamp(env: GateEnv, s: string) {
    s != "" && |s| <= 40 && s[|s| - 1] == 'Z' && env.store.chain.isTimestamp(s)
  }

  /** What the gate relies on: a request id of the audit's form, an operation that is a name, a known role. */
  predicate WellFormed(request: Request)
    requires IsRead(request)
  {
    && IsRequestId(request.requestId)
    && (request.route.value.operation.Some? && request.route.value.operation.value != "" ==>
          IsIdentifier(request.route.value.operation.value))
    && (request.session.value.principal.Some? ==> request.session.value.principal.value.role in HUMAN_ROLES)
  }

  predicate NameText(s: string) {
    forall i :: 0 <= i < |s| ==> IsLowerLetter(s[i]) || s[i] == '.' || s[i] == '_' || s[i] == '-'
  }

  lemma NameIsIdentifier(s: string)
    requires NameText(s) && 1 <= |s| <= 128 && IsLowerLetter(s[0])
    ensures IsIdentifier(s)
  {
  }

  lemma ViewerNames(permission: string)
    requires permission in VIEWER_PERMISSIONS || permission == AUTHENTICATION_PERMISSION
    ensures NameText(permission) && 1 <= |permission| <= 128 && IsLowerLetter(permission[0])
  {
  }

  lemma AnalystNames(permission: string)
    requires permission in ANALYST_PERMISSIONS && permission !in VIEWER_PERMISSIONS
    ensures NameText(permission) && 1 <= |permission| <= 128 && IsLowerLetter(permission[0])
  {
    hide VIEWER_PERMISSIONS;
  }

  lemma AdministratorNames(permission: string)
    requires permission in ADMINISTRATOR_PERMISSIONS && permission !in ANALYST_PERMISSIONS
    ensures NameText(permission) && 1 <= |permission| <= 128 && IsLowerLetter(permission[0])
  {
    hide ANALYST_PERMISSIONS;
  }

  lemma PermissionsAreNames(permission: string)
    requires permission in ADMINISTRATOR_PERMISSIONS || permission == AUTHENTICATION_PERMISSION
    ensures IsIdentifier(permission) && permission in AUDIT_PERMISSIONS && permission != ""
  {
    hide VIEWER_PERMISSIONS, ANALYST_PERMISSIONS, ADMINISTRATOR_PERMISSIONS, NameText, IsIdentifier;
    if permission in VIEWER_PERMISSIONS || permission == AUTHENTICATION_PERMISSION {
      ViewerNames(permission);
    } else if permission in ANALYST_PERMISSIONS {
      AnalystNames(permission);
    } else {
      AdministratorNames(permission);
    }
    NameIsIdentifier(permission);
  }

  lemma EnforcingCodesAreNames(code: string)
    requires code in {"enforce_authorized_precommit", "enforce_authorized", "authentication_boundary"}
    ensures IsIdentifier(code)
  {
    hide IsIdentifier;
    NameIsIdentifier(code);
  }

  lemma ObservingCodesAreNames(code: string)
    requires code in {"observe_would_allow", "observe_authentication_boundary", "resource", "route"}
    ensures IsIdentifier(code)
  {
    hide IsIdentifier;
    NameIsIdentifier(code);
  }

  lemma CausesAreNames(cause: string)
    requires cause in {"unauthenticated", "role_denied", "origin_denied", "csrf_denied"}
    ensures NameText(cause) && 11 <= |cause| <= 15
  {
  }

  lemma PrefixesAreNames()
    ensures NameText("enforce_denied_") && IsLowerLetter("enforce_denied_"[0]) && |"enforce_denied_"| == 15
    ensures NameText("observe_would_deny_") && IsLowerLetter("observe_would_deny_"[0])
    ensures |"observe_would_deny_"| == 19
  {
  }

  lemma JoinedIsName(prefix: string, cause: string)
    requires NameText(prefix) && NameText(cause) && prefix != "" && IsLowerLetter(prefix[0])
    requires |prefix| + |cause| <= 128
    ensures IsIdentifier(prefix + cause)
  {
    hide IsIdentifier;
    NameIsIdentifier(prefix + cause);
  }

  lemma ReasonCodeIsName(route: PostRoute, mode: Mode, principal: Option<Principal>, sameOrigin: bool, csrf: bool)
    requires DecideWriteAccess(route, mode, principal, sameOrigin, csrf).Some?
    ensures IsIdentifier(ReasonOf(DecideWriteAccess(route, mode, principal, sameOrigin, csrf).value))
  {
    hide RequiredPermission, IsAuthorized, ADMIN_ENFORCED_PERMISSIONS, NameText, IsIdentifier;
    var d := DecideWriteAccess(route, mode, principal, sameOrigin, csrf).value;
    var code := ReasonOf(d);
    if code in {"enforce_authorized", "authentication_boundary"} {
      EnforcingCodesAreNames(code);
    } else if code in {"observe_would_allow", "observe_authentication_boundary"} {
      ObservingCodesAreNames(code);
    } else {
      CausesAreNames(d.reason);
      PrefixesAreNames();
      JoinedIsName("enforce_denied_", d.reason);
      JoinedIsName("observe_would_deny_", d.reason);
    }
  }

  /** An observation made of names, digests and known values. */
  predicate Nameable(o: Observation) {
    && IsRequestId(o.requestId) && IsSha256(o.fingerprint) && IsSha256(o.targetDigest)
    && o.role in AUDIT_ROLES && o.permission in AUDIT_PERMISSIONS
    && IsIdentifier(o.action) && IsIdentifier(o.targetType) && IsIdentifier(ReasonOf(o.decision))
  }

  lemma ObservedIsNameable(env: GateEnv, mode: Mode, request: Request, o: Observation)
    requires GateLawful(env) && IsRead(request) && WellFormed(request)
    requires BeginObservation(env, request.route.value, mode, request.session.value, request.sameOrigin.value,
                              request.requestId) == Some(o)
    ensures Nameable(o)
  {
    var route, session := request.route.value, request.session.value;
    AdministratorsHoldAll(route);
    ReasonCodeTells(route, mode, session.principal, request.sameOrigin.value, session.csrfAuthorized);
    ReasonCodeIsName(route, mode, session.principal, request.sameOrigin.value, session.csrfAuthorized);
    ObservingCodesAreNames("resource");
    ObservingCodesAreNames("route");
    hide ReasonOf, IsIdentifier, IsRequestId, IsSha256, AUDIT_PERMISSIONS, ADMINISTRATOR_PERMISSIONS,
      RequiredPermission, AUTHENTICATION_PERMISSION, Lawful;
    var d := DecideWriteAccess(route, mode, session.principal, request.sameOrigin.value, session.csrfAuthorized).value;
    DecisionNeeds(route, mode, session.principal, request.sameOrigin.value, session.csrfAuthorized);
    PermissionsAreNames(TextOrElse(d.permission, AUTHENTICATION_PERMISSION));
  }

  lemma DecisionNeeds(route: PostRoute, mode: Mode, principal: Option<Principal>, sameOrigin: bool, csrf: bool)
    requires DecideWriteAccess(route, mode, principal, sameOrigin, csrf).Some?
    ensures RequiredPermission(route)
            == Needs(DecideWriteAccess(route, mode, principal, sameOrigin, csrf).value.permission)
  {
    hide RequiredPermission, Entitled, ADMIN_ENFORCED_PERMISSIONS;
  }

  lemma NameableFields(env: GateEnv, o: Observation, status: int, occurredAt: string)
    requires Nameable(o) && IsTimestamp(env, occurredAt) && 100 <= status <= 599
    ensures ValidFields(env.store.chain, FinalFields(o, status, occurredAt))
    ensures ValidFields(env.store.chain, ReceiptFields(o, occurredAt))
  {
    EnforcingCodesAreNames("enforce_authorized_precommit");
    FinalKeys(o, status, occurredAt);
    FinalKeys(o, 100, occurredAt);
    FinalMembers(o, status, occurredAt);
    FinalMembers(o, 100, occurredAt);
    hide FinalFields, ReasonOf, OutcomeOf, IsIdentifier, ValidFields, Nameable, IsTimestamp, AUDIT_FIELDS,
      AUDIT_OUTCOMES;
    assert IsIdentifier(ReasonOf(o.decision)) by { NameableReason(o); }
    MembersAreValid(env, o, FinalFields(o, status, occurredAt), status, occurredAt, ReasonOf(o.decision));
    MembersAreValid(env, o, ReceiptFields(o, occurredAt), 100, occurredAt, "enforce_authorized_precommit");
  }

  lemma NameableReason(o: Observation)
    requires Nameable(o)
    ensures IsIdentifier(ReasonOf(o.decision))
  {
  }

  /** The members of an event made from an observation. */
  predicate Describes(f: Event, o: Observation, status: int, occurredAt: string, code: string) {
    && {OccurredAt, RequestId, PrincipalFingerprint, Role, Permission, Action, TargetType, TargetDigest, Outcome,
        HttpStatus, ReasonCode} <= f.Keys
    && f[OccurredAt] == Str(occurredAt) && f[RequestId] == Str(o.requestId)
    && f[PrincipalFingerprint] == Str(o.fingerprint) && f[Role] == Str(o.role) && f[Permission] == Str(o.permission)
    && f[Action] == Str(o.action) && f[TargetType] == Str(o.targetType) && f[TargetDigest] == Str(o.targetDigest)
    && f[Outcome] == Str(OutcomeOf(status)) && f[HttpStatus] == Int(status)
    && f[ReasonCode] == Str(code)
  }

  lemma MembersAreValid(env: GateEnv, o: Observation, f: Event, status: int, occurredAt: string, code: string)
    requires Nameable(o) && IsTimestamp(env, occurredAt) && 100 <= status <= 599 && IsIdentifier(code)
    requires f.Keys == AUDIT_FIELDS && Describes(f, o, status, occurredAt, code)
    requires OutcomeOf(status) in AUDIT_OUTCOMES
    ensures ValidFields(env.store.chain, f)
  {
    hide ReasonOf, OutcomeOf, IsIdentifier, IsRequestId, IsSha256, AUDIT_FIELDS, AUDIT_PERMISSIONS, AUDIT_ROLES,
      AUDIT_OUTCOMES;
  }

  lemma FinalMembers(o: Observation, status: int, occurredAt: string)
    ensures Describes(FinalFields(o, status, occurredAt), o, status, occurredAt, ReasonOf(o.decision))
  {
    hide ReasonOf, OutcomeOf;
  }

  lemma FinalKeys(o: Observation, status: int, occurredAt: string)
    ensures FinalFields(o, status, occurredAt).Keys == AUDIT_FIELDS
    ensures OutcomeOf(status) in AUDIT_OUTCOMES
  {
  }

  /** Whatever the gate writes down about a well-formed request at a proper time is a valid event, so that no
      receipt and no closing event is refused for its contents. */
  lemma EventsAreValid(env: GateEnv, mode: Mode, request: Request, o: Observation, status: int, occurredAt: string)
    requires GateLawful(env) && IsRead(request) && WellFormed(request)
    requires IsTimestamp(env, occurredAt) && 100 <= status <= 599
    requires BeginObservation(env, request.route.value, mode, request.session.value, request.sameOrigin.value,
                              request.requestId) == Some(o)
    ensures ValidFields(env.store.chain, FinalFields(o, status, occurredAt))
    ensures ValidFields(env.store.chain, ReceiptFields(o, occurredAt))
  {
    hide *;
    ObservedIsNameable(env, mode, request, o);
    NameableFields(env, o, status, occurredAt);
  }
}
