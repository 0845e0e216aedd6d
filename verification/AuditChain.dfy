/** The keyed chain of administrative audit events: what an event is, how one is built on its
    predecessor, and what verification accepts. */
module AuditChain {
  import opened Prelude
  import opened Values

  datatype AuditKey =
    | Schema | Sequence | PreviousDigest | EventDigest
    | OccurredAt | RequestId | PrincipalFingerprint | Role | Permission | Action
    | TargetType | TargetDigest | Outcome | HttpStatus | ReasonCode
    | Other(name: string)

  type Value = Json<AuditKey>
  type Event = map<AuditKey, Value>

  const AUDIT_SCHEMA := "onion-sentinel-admin-audit-event-v1"
  const ZERO_DIGEST: string := "0000000000000000000000000000000000000000000000000000000000000000"

  const AUDIT_FIELDS: set<AuditKey> :=
    {OccurredAt, RequestId, PrincipalFingerprint, Role, Permission, Action, TargetType, TargetDigest,
     Outcome, HttpStatus, ReasonCode}
  const EVENT_FIELDS: set<AuditKey> := AUDIT_FIELDS + {Schema, Sequence, PreviousDigest, EventDigest}

  const HUMAN_ROLES := {"viewer", "analyst", "administrator"}
  const AUDIT_ROLES := HUMAN_ROLES + {"unauthenticated", "unknown"}
  const VIEWER_PERMISSIONS := {"evidence.view", "session.logout"}
  const ANALYST_PERMISSIONS := VIEWER_PERMISSIONS +
    {"alert.acknowledge", "alert.adjudicate", "alert.escalate", "case.reanalyze",
     "evidence.capture-request", "incident.adjudicate", "incident.status"}
  const ADMINISTRATOR_PERMISSIONS := ANALYST_PERMISSIONS +
    {"asset.manage", "cti.manage", "integration.manage", "privileged-action.execute",
     "resource.manage", "settings.manage"}
  const AUDIT_PERMISSIONS := ADMINISTRATOR_PERMISSIONS + {"authentication.login"}
  const AUDIT_OUTCOMES := {"allowed", "denied", "error"}

  /** The keyed MAC of a payload under the store's one key, and which texts are UTC timestamps. */
  datatype ChainEnv = ChainEnv(mac: Event -> string, isTimestamp: string -> bool)

  ghost predicate MacIsSha256(env: ChainEnv) {
    forall payload: Event :: IsSha256(env.mac(payload))
  }

  // ----- field validation -----

  predicate IsText(v: Value, accept: string -> bool) {
    v.Str? && accept(v.s)
  }

  predicate IsIdentifier(s: string) {
    Matches(s, c => IsLowerLetter(c) || IsDigit(c),
            c => IsLowerLetter(c) || IsDigit(c) || c in "._-", 1, 128)
  }

  predicate IsRequestId(s: string) {
    Matches(s, c => IsLowerLetter(c) || IsUpperLetter(c) || IsDigit(c),
            c => IsLowerLetter(c) || IsUpperLetter(c) || IsDigit(c) || c in "_.:-", 1, 128)
  }

  predicate ValidFields(env: ChainEnv, fields: Event) {
    && fields.Keys == AUDIT_FIELDS
    && IsText(fields[Role], s => s in AUDIT_ROLES)
    && IsText(fields[Permission], s => s in AUDIT_PERMISSIONS)
    && IsText(fields[Outcome], s => s in AUDIT_OUTCOMES)
    && IsText(fields[RequestId], IsRequestId)
    && IsText(fields[OccurredAt], s => |s| <= 40 && s != "" && s[|s| - 1] == 'Z' && env.isTimestamp(s))
    && IsText(fields[PrincipalFingerprint], IsSha256)
    && IsText(fields[Action], IsIdentifier)
    && IsText(fields[TargetType], IsIdentifier)
    && IsText(fields[TargetDigest], IsSha256)
    && fields[HttpStatus].Int? && 100 <= fields[HttpStatus].n <= 599
    && IsText(fields[ReasonCode], IsIdentifier)
  }

  // ----- building -----

  function Payload(event: Event): Event {
    event - {EventDigest}
  }

  /** The fields an event carries. */
  function FieldsOf(event: Event): Event {
    map k | k in AUDIT_FIELDS && k in event :: event[k]
  }

  /** `_previous`: the next sequence number and the digest to link to. */
  function Link(previous: Option<Event>): Option<(nat, string)> {
    if previous.None? then Some((1, ZERO_DIGEST))
    else
      var sequence := Get(previous.value, Sequence, Null);
      var digest := Get(previous.value, EventDigest, Null);
      if sequence.Int? && sequence.n >= 1 && IsText(digest, IsSha256) then Some((sequence.n + 1, digest.s))
      else None
  }

  function Sealed(env: ChainEnv, unsigned: Event): Event {
    unsigned[EventDigest := Str(env.mac(unsigned))]
  }

  function Unsigned(sequence: nat, previousDigest: string, fields: Event): Event {
    fields[Schema := Str(AUDIT_SCHEMA)][Sequence := Int(sequence)][PreviousDigest := Str(previousDigest)]
  }

  function BuildEvent(env: ChainEnv, previous: Option<Event>, fields: Value): Option<Event> {
    match Link(previous)
    case None => None
    case Some((sequence, digest)) =>
      if fields.Obj? && ValidFields(env, fields.fields)
      then Some(Sealed(env, Unsigned(sequence, digest, fields.fields)))
      else None
  }

  // ----- verifying -----

  datatype Reason = Verified | InvalidChain | InvalidEvent | SequenceMismatch | PreviousDigestMismatch | DigestMismatch

  datatype Verification = Verification(valid: bool, eventCount: nat, headDigest: string, reason: Reason,
                                       failedIndex: Option<nat>)

  /** Python equality of a JSON value with a whole number. */
  predicate EqualsNumber(v: Value, n: int) {
    match v
    case Int(m) => m == n
    case Float(r) => r == n as real
    case Bool(b) => n == if b then 1 else 0
    case _ => false
  }

  function FailureReason(env: ChainEnv, event: Value, index: nat, previousDigest: string): Option<Reason> {
    if !event.Obj? || event.fields.Keys != EVENT_FIELDS then Some(InvalidEvent)
    else if !ValidFields(env, FieldsOf(event.fields)) then Some(InvalidEvent)
    else if !EqualsNumber(event.fields[Sequence], index + 1) then Some(SequenceMismatch)
    else if event.fields[PreviousDigest] != Str(previousDigest) then Some(PreviousDigestMismatch)
    else if event.fields[EventDigest] != Str(env.mac(Payload(event.fields))) then Some(DigestMismatch)
    else None
  }

  function DigestOf(event: Value): string {
    if event.Obj? then
      var d := Get(event.fields, EventDigest, Null);
      if d.Str? then d.s else ""
    else ""
  }

  function Head(events: seq<Value>): string {
    if events == [] then ZERO_DIGEST else DigestOf(events[|events| - 1])
  }

  /** Every event is acceptable in its place. */
  predicate Chained(env: ChainEnv, events: seq<Value>) {
    forall i :: 0 <= i < |events| ==> FailureReason(env, events[i], i, Head(events[..i])).None?
  }

  function Verify(env: ChainEnv, events: seq<Value>): Verification {
    VerifyFrom(env, events, 0, ZERO_DIGEST)
  }

  function VerifyFrom(env: ChainEnv, events: seq<Value>, index: nat, previousDigest: string): Verification
    requires index <= |events|
    decreases |events| - index
  {
    if index == |events| then Verification(true, |events|, previousDigest, Verified, None)
    else
      match FailureReason(env, events[index], index, previousDigest)
      case Some(reason) => Verification(false, |events|, previousDigest, reason, Some(index))
      case None => VerifyFrom(env, events, index + 1, DigestOf(events[index]))
  }

  /** `verify_chain` on a list of decoded events. */
  method VerifyChain(env: ChainEnv, events: seq<Value>) returns (v: Verification)
    ensures v == Verify(env, events)
  {
    var previousDigest := ZERO_DIGEST;
    for index := 0 to |events|
      invariant Verify(env, events) == VerifyFrom(env, events, index, previousDigest)
    {
      var reason := FailureReason(env, events[index], index, previousDigest);
      if reason.Some? {
        return Verification(false, |events|, previousDigest, reason.value, Some(index));
      }
      previousDigest := DigestOf(events[index]);
    }
    return Verification(true, |events|, previousDigest, Verified, None);
  }

  /** What a verification says: valid exactly for chained events; otherwise the index is the first
      bad position, everything before it is chained, and the head is the last good digest. */
  lemma VerificationMeans(env: ChainEnv, events: seq<Value>)
    ensures var v := Verify(env, events);
            && (v.valid <==> Chained(env, events))
            && v.eventCount == |events|
            && (v.valid ==> v.headDigest == Head(events) && v.reason == Verified && v.failedIndex == None)
            && (!v.valid ==>
                  && v.failedIndex.Some? && v.failedIndex.value < |events|
                  && Chained(env, events[..v.failedIndex.value])
                  && v.headDigest == Head(events[..v.failedIndex.value])
                  && FailureReason(env, events[v.failedIndex.value], v.failedIndex.value, v.headDigest)
                     == Some(v.reason))
  {
    assert events[..0] == [];
    VerifyFromMeans(env, events, 0);
  }

  ghost predicate Says(env: ChainEnv, events: seq<Value>, v: Verification) {
    if v.valid then
      Chained(env, events) && v == Verification(true, |events|, Head(events), Verified, None)
    else
      && v.eventCount == |events|
      && v.failedIndex.Some? && v.failedIndex.value < |events|
      && Chained(env, events[..v.failedIndex.value])
      && v.headDigest == Head(events[..v.failedIndex.value])
      && FailureReason(env, events[v.failedIndex.value], v.failedIndex.value, v.headDigest) == Some(v.reason)
  }

  lemma {:induction false} VerifyFromMeans(env: ChainEnv, events: seq<Value>, index: nat)
    requires index <= |events| && Chained(env, events[..index])
    ensures Says(env, events, VerifyFrom(env, events, index, Head(events[..index])))
    decreases |events| - index
  {
    hide FailureReason;
    var head := Head(events[..index]);
    if index == |events| {
      assert events[..index] == events;
    } else if FailureReason(env, events[index], index, head).None? {
      ChainedExtends(env, events[..index], events[index]);
      assert events[..index + 1] == events[..index] + [events[index]];
      VerifyFromMeans(env, events, index + 1);
    }
  }

  lemma ChainedExtends(env: ChainEnv, events: seq<Value>, event: Value)
    ensures Chained(env, events + [event]) <==>
            Chained(env, events) && FailureReason(env, event, |events|, Head(events)).None?
  {
    hide FailureReason;
    var longer := events + [event];
    forall i | 0 <= i <= |events|
      ensures longer[..i] == events[..i]
    {
    }
    assert events[..|events|] == events;
    assert longer[|events|] == event;
    assert forall i :: 0 <= i < |events| ==> longer[i] == events[i];
  }

  lemma ChainedIsPrefixClosed(env: ChainEnv, events: seq<Value>, n: nat)
    requires Chained(env, events) && n <= |events|
    ensures Chained(env, events[..n])
  {
    hide FailureReason, Head;
    forall i | 0 <= i < n
      ensures FailureReason(env, events[..n][i], i, Head(events[..n][..i])).None?
    {
      assert events[..n][..i] == events[..i];
    }
  }

  /** In a chain the events are numbered from one on; a number may also be written as a float, and the first
      as true. */
  lemma ChainedNumbers(env: ChainEnv, events: seq<Value>, i: nat)
    requires Chained(env, events) && i < |events|
    ensures events[i].Obj? && Sequence in events[i].fields
    ensures var number := events[i].fields[Sequence];
            number == Int(i + 1) || number == Float((i + 1) as real) || (i == 0 && number == Bool(true))
  {
    hide ValidFields, FieldsOf, Payload, Head;
    assert FailureReason(env, events[i], i, Head(events[..i])).None?;
    assert Sequence in EVENT_FIELDS;
  }

  /** Identifiers and request ids, character by character. */
  lemma NamesExactly(s: string)
    ensures IsIdentifier(s) <==>
      && 0 < |s| < 129 && s[0] != '.' && s[0] != '_' && s[0] != '-'
      && forall i :: 0 <= i < |s| ==>
           'a' <= s[i] <= 'z' || '0' <= s[i] <= '9' || s[i] == '.' || s[i] == '_' || s[i] == '-'
    ensures IsRequestId(s) <==>
      && 0 < |s| < 129 && s[0] != '_' && s[0] != '.' && s[0] != ':' && s[0] != '-'
      && forall i :: 0 <= i < |s| ==>
           || 'a' <= s[i] <= 'z' || 'A' <= s[i] <= 'Z' || '0' <= s[i] <= '9'
           || s[i] == '_' || s[i] == '.' || s[i] == ':' || s[i] == '-'
  {
  }

  /** An event built on the last event of a verified chain extends it. */
  lemma BuiltEventExtends(env: ChainEnv, events: seq<Value>, fields: Value)
    requires Chained(env, events)
    requires var previous := if events == [] then None else Some(events[|events| - 1].fields);
             BuildEvent(env, previous, fields).Some?
    ensures var previous := if events == [] then None else Some(events[|events| - 1].fields);
            var event := BuildEvent(env, previous, fields).value;
            Chained(env, events + [Obj(event)]) && FieldsOf(event) == fields.fields
  {
    var previous := if events == [] then None else Some(events[|events| - 1].fields);
    var event := BuildEvent(env, previous, fields).value;
    var link := Link(previous).value;
    if events != [] {
      assert events[|events| - 1].Obj? by {
        assert FailureReason(env, events[|events| - 1], |events| - 1, Head(events[..|events| - 1])).None?;
      }
    }
    assert link.0 == |events| + 1 && link.1 == Head(events);
    hide ValidFields, FailureReason, Sealed, Unsigned, FieldsOf;
    SealedEventIsAccepted(env, link.0, link.1, fields.fields);
    ChainedExtends(env, events, Obj(event));
  }

  lemma SealedShape(unsigned: Event, fields: Event, sequence: nat, digest: string, mac: string)
    requires fields.Keys == AUDIT_FIELDS && unsigned == Unsigned(sequence, digest, fields)
    ensures var event := unsigned[EventDigest := Str(mac)];
            && event.Keys == EVENT_FIELDS && Payload(event) == unsigned
            && event[Sequence] == Int(sequence) && event[PreviousDigest] == Str(digest)
            && event[EventDigest] == Str(mac)
  {
    var event := unsigned[EventDigest := Str(mac)];
    assert EventDigest !in unsigned;
    assert event.Keys == fields.Keys + {Schema, Sequence, PreviousDigest, EventDigest};
  }

  lemma SealedKeepsFields(unsigned: Event, fields: Event, sequence: nat, digest: string, mac: string)
    requires fields.Keys == AUDIT_FIELDS && unsigned == Unsigned(sequence, digest, fields)
    ensures FieldsOf(unsigned[EventDigest := Str(mac)]) == fields
  {
    var kept := FieldsOf(unsigned[EventDigest := Str(mac)]);
    forall k | k in fields
      ensures k in kept && kept[k] == fields[k]
    {
    }
    assert kept.Keys == AUDIT_FIELDS;
  }

  lemma SealedEventIsAccepted(env: ChainEnv, sequence: nat, digest: string, fields: Event)
    requires sequence >= 1 && ValidFields(env, fields)
    ensures var event := Sealed(env, Unsigned(sequence, digest, fields));
            && FieldsOf(event) == fields
            && FailureReason(env, Obj(event), sequence - 1, digest).None?
  {
    var unsigned := Unsigned(sequence, digest, fields);
    SealedShape(unsigned, fields, sequence, digest, env.mac(unsigned));
    SealedKeepsFields(unsigned, fields, sequence, digest, env.mac(unsigned));
  }

  // ----- the head fixes the chain -----

  /** The one way two chains can share a head: the MAC maps two payloads to one value, or one
      payload to the zero digest. */
  ghost predicate MacBroken(env: ChainEnv, a: seq<Value>, b: seq<Value>) {
    || (exists i, j :: 0 <= i < |a| && 0 <= j < |b| && a[i].Obj? && b[j].Obj?
                       && Payload(a[i].fields) != Payload(b[j].fields)
                       && env.mac(Payload(a[i].fields)) == env.mac(Payload(b[j].fields)))
    || ZeroMac(env, a)
    || ZeroMac(env, b)
  }

  ghost predicate ZeroMac(env: ChainEnv, a: seq<Value>) {
    exists i :: 0 <= i < |a| && a[i].Obj? && env.mac(Payload(a[i].fields)) == ZERO_DIGEST
  }

  lemma LastIsSealed(env: ChainEnv, events: seq<Value>)
    requires Chained(env, events) && events != []
    ensures var last := events[|events| - 1];
            && last.Obj? && last.fields.Keys == EVENT_FIELDS
            && Head(events) == env.mac(Payload(last.fields))
            && last.fields[EventDigest] == Str(Head(events))
            && last.fields[PreviousDigest] == Str(Head(events[..|events| - 1]))
            && EqualsNumber(last.fields[Sequence], |events|)
  {
    assert FailureReason(env, events[|events| - 1], |events| - 1, Head(events[..|events| - 1])).None?;
  }

  lemma SamePayloadSameEvent(x: Event, y: Event)
    requires x.Keys == y.Keys && EventDigest in x
    requires Payload(x) == Payload(y) && x[EventDigest] == y[EventDigest]
    ensures x == y
  {
    forall k | k in x
      ensures x[k] == y[k]
    {
      if k != EventDigest {
        assert Payload(x)[k] == x[k] && Payload(y)[k] == y[k];
      }
    }
  }

  lemma WidenBreak(env: ChainEnv, a: seq<Value>, b: seq<Value>, m: nat, n: nat)
    requires m <= |a| && n <= |b| && MacBroken(env, a[..m], b[..n])
    ensures MacBroken(env, a, b)
  {
    if ZeroMac(env, a[..m]) {
      var i :| 0 <= i < m && a[..m][i].Obj? && env.mac(Payload(a[..m][i].fields)) == ZERO_DIGEST;
      assert a[..m][i] == a[i];
    } else if ZeroMac(env, b[..n]) {
      var i :| 0 <= i < n && b[..n][i].Obj? && env.mac(Payload(b[..n][i].fields)) == ZERO_DIGEST;
      assert b[..n][i] == b[i];
    } else {
      var i, j :| 0 <= i < m && 0 <= j < n && a[..m][i].Obj? && b[..n][j].Obj?
                  && Payload(a[..m][i].fields) != Payload(b[..n][j].fields)
                  && env.mac(Payload(a[..m][i].fields)) == env.mac(Payload(b[..n][j].fields));
      assert a[..m][i] == a[i] && b[..n][j] == b[j];
    }
  }

  lemma SameHeadSameLast(env: ChainEnv, a: seq<Value>, b: seq<Value>)
    requires Chained(env, a) && Chained(env, b) && Head(a) == Head(b) && a != [] && b != []
    ensures MacBroken(env, a, b)
            || (a[|a| - 1] == b[|b| - 1] && Head(a[..|a| - 1]) == Head(b[..|b| - 1]))
  {
    hide FailureReason, Chained, Head, Payload, EqualsNumber;
    var m, n := |a| - 1, |b| - 1;
    LastIsSealed(env, a);
    LastIsSealed(env, b);
    if Payload(a[m].fields) == Payload(b[n].fields) {
      SamePayloadSameEvent(a[m].fields, b[n].fields);
    }
  }

  lemma ZeroHeadBreaks(env: ChainEnv, events: seq<Value>)
    requires Chained(env, events) && events != [] && Head(events) == ZERO_DIGEST
    ensures ZeroMac(env, events)
  {
    LastIsSealed(env, events);
  }

  /** Two verified chains with the same head digest are the same chain, unless the MAC is broken
      on events they contain. */
  lemma {:induction false} HeadFixesChain(env: ChainEnv, a: seq<Value>, b: seq<Value>)
    requires Chained(env, a) && Chained(env, b) && Head(a) == Head(b)
    ensures a == b || MacBroken(env, a, b)
    decreases |a|
  {
    hide FailureReason, Chained, ZeroMac;
    if a == [] || b == [] {
      if b != [] { ZeroHeadBreaks(env, b); }
      if a != [] { ZeroHeadBreaks(env, a); }
    } else {
      hide MacBroken, Head;
      SameHeadSameLast(env, a, b);
      if !MacBroken(env, a, b) {
        var m, n := |a| - 1, |b| - 1;
        ChainedIsPrefixClosed(env, a, m);
        ChainedIsPrefixClosed(env, b, n);
        HeadFixesChain(env, a[..m], b[..n]);
        if a[..m] != b[..n] { WidenBreak(env, a, b, m, n); }
        assert a == a[..m] + [a[m]] && b == b[..n] + [b[n]];
      }
    }
  }
}
