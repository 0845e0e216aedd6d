/** The persistent ledger of the audit chain: line framing, bounds, verified append under the
    store lock, and every run of such appends with failures at any step. */
module AuditLedger {
  import opened AuditChain
  import opened Bytes
  import opened Prelude
  import opened Values

  /** The JSON codec of one event, beside the chain's own parameters. */
  datatype StoreEnv = StoreEnv(chain: ChainEnv, dumps: Event -> Bytes, loads: Bytes -> Option<Value>)

  /** Values whose JSON text is exact: no floating-point numbers, nothing nested. */
  predicate IsPlain(event: Event) {
    forall k :: k in event ==> event[k].Str? || event[k].Int? || event[k].Bool? || event[k].Null?
  }

  /** Compact ASCII JSON has no raw line breaks; parsing undoes printing for plain events and for
      whatever parsing itself returned; the MAC prints as 64 hex digits. */
  ghost predicate Lawful(env: StoreEnv) {
    && MacIsSha256(env.chain)
    && (forall e: Event :: NoLineBreak(env.dumps(e)))
    && (forall e: Event :: IsPlain(e) ==> env.loads(env.dumps(e)) == Some(Obj(e)))
    && (forall line: Bytes :: env.loads(line).Some? && env.loads(line).value.Obj?
                              ==> env.loads(env.dumps(env.loads(line).value.fields)) == env.loads(line))
  }

  // ----- framing -----

  function Lines(env: StoreEnv, events: seq<Event>): (lines: seq<Bytes>)
    ensures |lines| == |events|
    ensures forall i :: 0 <= i < |events| ==> lines[i] == env.dumps(events[i])
  {
    if events == [] then [] else [env.dumps(events[0])] + Lines(env, events[1..])
  }

  /** `_encoded_ledger` without its bound. */
  function EncodeLedger(env: StoreEnv, events: seq<Event>): Bytes {
    Terminated(Lines(env, events))
  }

  function DecodeLines(env: StoreEnv, lines: seq<Bytes>): Option<seq<Event>> {
    if lines == [] then Some([])
    else
      var first := env.loads(lines[0]);
      var rest := DecodeLines(env, lines[1..]);
      if first.Some? && first.value.Obj? && rest.Some? then Some([first.value.fields] + rest.value) else None
  }

  /** `_decoded_events` for a file within its byte bound. */
  function DecodeLedger(env: StoreEnv, payload: Bytes): Option<seq<Event>> {
    if payload != [] && payload[|payload| - 1] != NEWLINE then None
    else DecodeLines(env, SplitLines(payload))
  }

  function Objects(events: seq<Event>): (values: seq<Value>)
    ensures |values| == |events|
    ensures forall i :: 0 <= i < |events| ==> values[i] == Obj(events[i])
  {
    if events == [] then [] else [Obj(events[0])] + Objects(events[1..])
  }

  /** An event that survives being printed and parsed. */
  ghost predicate Printable(env: StoreEnv, event: Event) {
    NoLineBreak(env.dumps(event)) && env.loads(env.dumps(event)) == Some(Obj(event))
  }

  lemma {:induction false} DecodeOfLines(env: StoreEnv, events: seq<Event>)
    requires forall i :: 0 <= i < |events| ==> Printable(env, events[i])
    ensures DecodeLines(env, Lines(env, events)) == Some(events)
  {
    if events != [] {
      DecodeOfLines(env, events[1..]);
      assert Lines(env, events)[1..] == Lines(env, events[1..]);
      assert [events[0]] + events[1..] == events;
    }
  }

  /** The framing decodes back to exactly the encoded events. */
  lemma FramingRoundTrip(env: StoreEnv, events: seq<Event>)
    requires forall i :: 0 <= i < |events| ==> Printable(env, events[i])
    ensures DecodeLedger(env, EncodeLedger(env, events)) == Some(events)
  {
    var lines := Lines(env, events);
    forall i | 0 <= i < |lines|
      ensures NoLineBreak(lines[i])
    {
      assert Printable(env, events[i]);
    }
    TerminatedLinesRoundTrip(lines);
    if events == [] {
      assert lines == [];
    } else {
      TerminatedEndsWithNewline(lines);
    }
    DecodeOfLines(env, events);
  }

  lemma {:induction false} DecodedIsPrintable(env: StoreEnv, lines: seq<Bytes>)
    requires Lawful(env) && DecodeLines(env, lines).Some?
    ensures forall i :: 0 <= i < |DecodeLines(env, lines).value| ==> Printable(env, DecodeLines(env, lines).value[i])
  {
    if lines != [] {
      DecodedIsPrintable(env, lines[1..]);
      assert env.loads(lines[0]).Some?;
    }
  }

  // ----- one append -----

  /** Where an append may be stopped by the operating system: before it holds the lock, before the
      new file replaced the old one, or after that, while the directory is being synced. */
  datatype Fault = NoFault | NoLock | BeforeReplace | AfterReplace

  datatype Bounds = Bounds(maximumBytes: int, maximumEvents: int)

  /** The verified events of a ledger file: what `_verified_events` returns, or its error. */
  function VerifiedEvents(env: StoreEnv, bounds: Bounds, file: Bytes): Option<seq<Event>> {
    if |file| > bounds.maximumBytes || |SplitLines(file)| > bounds.maximumEvents then None
    else
      match DecodeLedger(env, file)
      case None => None
      case Some(events) => if Verify(env.chain, Objects(events)).valid then Some(events) else None
  }

  function LastOf(events: seq<Event>): Option<Event> {
    if events == [] then None else Some(events[|events| - 1])
  }

  /** The event and the payload an append would write; nothing when it refuses. */
  function Prepared(env: StoreEnv, bounds: Bounds, file: Bytes, fields: Value): Option<(Event, Bytes)> {
    if bounds.maximumBytes < 1 || bounds.maximumEvents < 1 || BuildEvent(env.chain, None, fields).None? then None
    else
      match VerifiedEvents(env, bounds, file)
      case None => None
      case Some(events) =>
        if |events| >= bounds.maximumEvents then None
        else
          match BuildEvent(env.chain, LastOf(events), fields)
          case None => None
          case Some(event) =>
            var payload := EncodeLedger(env, events + [event]);
            if |payload| > bounds.maximumBytes then None else Some((event, payload))
  }

  datatype Appended = Appended(file: Bytes, event: Option<Event>)

  /** `append_verified_event`: the file afterwards and the returned event, or an error. */
  function Append(env: StoreEnv, bounds: Bounds, file: Bytes, fields: Value, fault: Fault): Appended {
    match Prepared(env, bounds, file, fields)
    case None => Appended(file, None)
    case Some((event, payload)) =>
      match fault
      case NoLock => Appended(file, None)
      case BeforeReplace => Appended(file, None)
      case AfterReplace => Appended(payload, None)
      case NoFault => Appended(payload, Some(event))
  }

  /** The ledger went from `before` to one more event that carries these fields. */
  ghost predicate GrewBy(env: StoreEnv, bounds: Bounds, before: Bytes, after: Bytes, event: Event, fields: Value) {
    && VerifiedEvents(env, bounds, before).Some?
    && VerifiedEvents(env, bounds, after) == Some(VerifiedEvents(env, bounds, before).value + [event])
    && |after| <= bounds.maximumBytes
    && |VerifiedEvents(env, bounds, after).value| <= bounds.maximumEvents
    && fields.Obj? && FieldsOf(event) == fields.fields
  }

  lemma BuiltEventIsPlain(env: ChainEnv, previous: Option<Event>, fields: Value)
    requires BuildEvent(env, previous, fields).Some?
    ensures IsPlain(BuildEvent(env, previous, fields).value)
  {
    var event := BuildEvent(env, previous, fields).value;
    forall k | k in event
      ensures event[k].Str? || event[k].Int?
    {
      assert k in AUDIT_FIELDS || k == Schema || k == Sequence || k == PreviousDigest || k == EventDigest;
    }
  }

  lemma ObjectsAppend(events: seq<Event>, event: Event)
    ensures Objects(events + [event]) == Objects(events) + [Obj(event)]
  {
  }

  lemma {:induction false} LengthOfDecoded(env: StoreEnv, lines: seq<Bytes>)
    requires DecodeLines(env, lines).Some?
    ensures |DecodeLines(env, lines).value| == |lines|
  {
    if lines != [] { LengthOfDecoded(env, lines[1..]); }
  }

  lemma NextChainVerifies(env: ChainEnv, events: seq<Event>, fields: Value)
    requires Verify(env, Objects(events)).valid && BuildEvent(env, LastOf(events), fields).Some?
    ensures var event := BuildEvent(env, LastOf(events), fields).value;
            && Verify(env, Objects(events + [event])).valid
            && IsPlain(event) && fields.Obj? && FieldsOf(event) == fields.fields
  {
    var event := BuildEvent(env, LastOf(events), fields).value;
    var objects := Objects(events);
    VerificationMeans(env, objects);
    assert LastOf(events) == if objects == [] then None else Some(objects[|events| - 1].fields);
    BuiltEventExtends(env, objects, fields);
    ObjectsAppend(events, event);
    VerificationMeans(env, objects + [Obj(event)]);
    BuiltEventIsPlain(env, LastOf(events), fields);
  }

  lemma PreparedGrows(env: StoreEnv, bounds: Bounds, file: Bytes, fields: Value)
    requires Lawful(env) && Prepared(env, bounds, file, fields).Some?
    ensures var (event, payload) := Prepared(env, bounds, file, fields).value;
            GrewBy(env, bounds, file, payload, event, fields)
  {
    var events := VerifiedEvents(env, bounds, file).value;
    var (event, payload) := Prepared(env, bounds, file, fields).value;
    assert BuildEvent(env.chain, LastOf(events), fields) == Some(event);
    NextChainVerifies(env.chain, events, fields);
    NewLedgerReadsBack(env, bounds, file, events, event);
  }

  lemma PlainIsPrintable(env: StoreEnv, event: Event)
    requires Lawful(env) && IsPlain(event)
    ensures Printable(env, event)
  {
  }

  lemma NewLedgerReadsBack(env: StoreEnv, bounds: Bounds, file: Bytes, events: seq<Event>, event: Event)
    requires Lawful(env) && IsPlain(event)
    requires VerifiedEvents(env, bounds, file) == Some(events) && |events| < bounds.maximumEvents
    requires Verify(env.chain, Objects(events + [event])).valid
    requires |EncodeLedger(env, events + [event])| <= bounds.maximumBytes
    ensures VerifiedEvents(env, bounds, EncodeLedger(env, events + [event])) == Some(events + [event])
  {
    hide Verify, Printable, EncodeLedger, IsPlain;
    var longer := events + [event];
    PlainIsPrintable(env, event);
    DecodedIsPrintable(env, SplitLines(file));
    assert forall i :: 0 <= i < |longer| ==> Printable(env, longer[i]);
    FramingRoundTrip(env, longer);
    LengthOfDecoded(env, SplitLines(EncodeLedger(env, longer)));
  }

  /** One append, whatever fails: the file is untouched, or it grew by one verified event at the
      end; a returned event is that event. */
  lemma AppendGrowsOrKeeps(env: StoreEnv, bounds: Bounds, file: Bytes, fields: Value, fault: Fault)
    requires Lawful(env)
    ensures var r := Append(env, bounds, file, fields, fault);
            && (r.event.None? && fault != AfterReplace ==> r.file == file)
            && (r.event.Some? ==> fault == NoFault && GrewBy(env, bounds, file, r.file, r.event.value, fields))
            && (r.file != file ==> exists event :: GrewBy(env, bounds, file, r.file, event, fields))
  {
    hide GrewBy, Prepared;
    if Prepared(env, bounds, file, fields).Some? {
      PreparedGrows(env, bounds, file, fields);
    }
  }

  // ----- which appends succeed -----

  /** The event that continues a verified ledger: the next number, on the digest of the last event. */
  function NextEvent(env: ChainEnv, events: seq<Event>, fields: Event): Event {
    Sealed(env, Unsigned(|events| + 1, Head(Objects(events)), fields))
  }

  /** The ledger verifies and has room for one more event, whose fields are valid. A last event numbered by
      1.0 or true verifies but cannot be continued. */
  ghost predicate CanTake(env: StoreEnv, bounds: Bounds, file: Bytes, fields: Value) {
    && fields.Obj? && ValidFields(env.chain, fields.fields)
    && VerifiedEvents(env, bounds, file).Some?
    && var events := VerifiedEvents(env, bounds, file).value;
       && |events| < bounds.maximumEvents
       && (events == [] || Get(events[|events| - 1], Sequence, Null).Int?)
       && |EncodeLedger(env, events)| + |env.dumps(NextEvent(env.chain, events, fields.fields))| + 1
          <= bounds.maximumBytes
  }

  lemma NextIsBuilt(env: ChainEnv, events: seq<Event>, fields: Value)
    requires MacIsSha256(env) && Verify(env, Objects(events)).valid
    ensures BuildEvent(env, LastOf(events), fields) ==
      if fields.Obj? && ValidFields(env, fields.fields)
         && (events == [] || Get(events[|events| - 1], Sequence, Null).Int?)
      then Some(NextEvent(env, events, fields.fields)) else None
  {
    hide ValidFields, Sealed, Unsigned, Verify, Link, Head, MacIsSha256;
    LinkOfVerified(env, events);
  }

  lemma LinkOfVerified(env: ChainEnv, events: seq<Event>)
    requires MacIsSha256(env) && Verify(env, Objects(events)).valid
    ensures Link(LastOf(events)) ==
      if events == [] || Get(events[|events| - 1], Sequence, Null).Int?
      then Some((|events| + 1, Head(Objects(events)))) else None
  {
    hide Verify, Link, Objects, Head, Chained, MacIsSha256, FailureReason;
    if events == [] {
      LinkOfNothing();
    } else {
      VerificationMeans(env, Objects(events));
      LinkOfChain(env, Objects(events), events[|events| - 1]);
    }
  }

  lemma LinkOfChain(env: ChainEnv, chain: seq<Value>, last: Event)
    requires MacIsSha256(env) && Chained(env, chain)
    requires chain != [] && chain[|chain| - 1] == Obj(last)
    ensures Link(Some(last)) == if Get(last, Sequence, Null).Int? then Some((|chain| + 1, Head(chain))) else None
  {
    hide Chained, IsSha256, Link, Head, Payload, EqualsNumber;
    LastIsSealed(env, chain);
    SealedMembers(last);
    LinkOfSealed(last, |chain|, Head(chain));
  }

  lemma LinkOfNothing()
    ensures Link(LastOf([])) == Some((1, Head(Objects([]))))
  {
  }

  lemma LinkOfSealed(event: Event, n: nat, digest: string)
    requires Sequence in event && EventDigest in event && n >= 1
    requires EqualsNumber(event[Sequence], n) && event[EventDigest] == Str(digest) && IsSha256(digest)
    ensures Link(Some(event)) == if event[Sequence].Int? then Some((n + 1, digest)) else None
  {
    hide IsSha256;
  }

  lemma SealedMembers(event: Event)
    requires event.Keys == EVENT_FIELDS
    ensures Sequence in event && EventDigest in event
  {
    assert Sequence in event.Keys && EventDigest in event.Keys;
  }

  lemma OneMoreLineLength(env: StoreEnv, events: seq<Event>, event: Event)
    ensures |EncodeLedger(env, events + [event])| == |EncodeLedger(env, events)| + |env.dumps(event)| + 1
  {
    assert Lines(env, events + [event]) == Lines(env, events) + [env.dumps(event)];
    TerminatedAppend(Lines(env, events), [env.dumps(event)]);
    OneTerminated(env.dumps(event));
  }

  lemma OneTerminated(line: Bytes)
    ensures |Terminated([line])| == |line| + 1
  {
    assert [line][1..] == [];
  }

  /** An append is reported exactly when nothing fails and the ledger can take the event; it then adds the
      next event, and a failing directory sync still leaves it there. */
  lemma AppendSucceedsExactly(env: StoreEnv, bounds: Bounds, file: Bytes, fields: Value, fault: Fault)
    requires MacIsSha256(env.chain)
    ensures var r, can := Append(env, bounds, file, fields, fault), CanTake(env, bounds, file, fields);
      && (r.event.Some? <==> fault == NoFault && can)
      && (can && fault in {NoFault, AfterReplace} ==>
            var events := VerifiedEvents(env, bounds, file).value;
            var event := NextEvent(env.chain, events, fields.fields);
            r.file == EncodeLedger(env, events + [event]) && (r.event.Some? ==> r.event.value == event))
  {
    hide VerifiedEvents, ValidFields, EncodeLedger, NextEvent, BuildEvent, Verify;
    NoEventsVerify(env.chain);
    NextIsBuilt(env.chain, [], fields);
    VerifiedIsValid(env, bounds, file);
    if VerifiedEvents(env, bounds, file).Some? {
      var events := VerifiedEvents(env, bounds, file).value;
      NextIsBuilt(env.chain, events, fields);
      if fields.Obj? { OneMoreLineLength(env, events, NextEvent(env.chain, events, fields.fields)); }
    }
  }

  lemma NoEventsVerify(env: ChainEnv)
    ensures Verify(env, Objects([])).valid && LastOf([]) == None
  {
  }

  /** What verified events satisfy, whatever the file held. */
  lemma VerifiedIsValid(env: StoreEnv, bounds: Bounds, file: Bytes)
    ensures VerifiedEvents(env, bounds, file).Some? ==>
      && Verify(env.chain, Objects(VerifiedEvents(env, bounds, file).value)).valid
      && |file| <= bounds.maximumBytes
      && |VerifiedEvents(env, bounds, file).value| <= bounds.maximumEvents
  {
    hide Verify;
    if DecodeLedger(env, file).Some? { LengthOfDecoded(env, SplitLines(file)); }
  }

  // ----- runs -----

  datatype Attempt = Attempt(fields: Value, fault: Fault)

  function Run(env: StoreEnv, bounds: Bounds, file: Bytes, attempts: seq<Attempt>): Bytes
    decreases |attempts|
  {
    if attempts == [] then file
    else Run(env, bounds, Append(env, bounds, file, attempts[0].fields, attempts[0].fault).file, attempts[1..])
  }

  /** The attempt was reported as done, or as failed although the file was replaced. */
  function Counts(env: StoreEnv, bounds: Bounds, file: Bytes, a: Attempt): (nat, nat) {
    (if Append(env, bounds, file, a.fields, a.fault).event.Some? then 1 else 0,
     if a.fault == AfterReplace && Prepared(env, bounds, file, a.fields).Some? then 1 else 0)
  }

  function Reported(env: StoreEnv, bounds: Bounds, file: Bytes, attempts: seq<Attempt>): nat
    decreases |attempts|
  {
    if attempts == [] then 0
    else
      var next := Append(env, bounds, file, attempts[0].fields, attempts[0].fault).file;
      Counts(env, bounds, file, attempts[0]).0 + Reported(env, bounds, next, attempts[1..])
  }

  function Unreported(env: StoreEnv, bounds: Bounds, file: Bytes, attempts: seq<Attempt>): nat
    decreases |attempts|
  {
    if attempts == [] then 0
    else
      var next := Append(env, bounds, file, attempts[0].fields, attempts[0].fault).file;
      Counts(env, bounds, file, attempts[0]).1 + Unreported(env, bounds, next, attempts[1..])
  }

  /** `after` verifies, keeps the events of `before` in place and has `more` events on top. */
  ghost predicate Holds(env: StoreEnv, bounds: Bounds, before: Bytes, after: Bytes, more: nat) {
    var earlier, later := VerifiedEvents(env, bounds, before), VerifiedEvents(env, bounds, after);
    earlier.Some? && later.Some? && earlier.value <= later.value && |later.value| == |earlier.value| + more
  }

  lemma AttemptHolds(env: StoreEnv, bounds: Bounds, file: Bytes, a: Attempt)
    requires Lawful(env) && VerifiedEvents(env, bounds, file).Some?
    ensures var counts := Counts(env, bounds, file, a);
            Holds(env, bounds, file, Append(env, bounds, file, a.fields, a.fault).file, counts.0 + counts.1)
  {
    hide VerifiedEvents, Prepared, FieldsOf;
    if Prepared(env, bounds, file, a.fields).Some? { PreparedGrows(env, bounds, file, a.fields); }
  }

  /** In every run the ledger keeps verifying within both bounds, the earlier events stay where they
      are, and it holds exactly one more event for every append that was reported as done or that
      failed after the replacement. */
  lemma {:induction false} LedgerOnlyGrows(env: StoreEnv, bounds: Bounds, file: Bytes, attempts: seq<Attempt>)
    requires Lawful(env) && VerifiedEvents(env, bounds, file).Some?
    ensures Holds(env, bounds, file, Run(env, bounds, file, attempts),
                  Reported(env, bounds, file, attempts) + Unreported(env, bounds, file, attempts))
    decreases |attempts|
  {
    if attempts != [] {
      AttemptHolds(env, bounds, file, attempts[0]);
      LedgerOnlyGrows(env, bounds, Append(env, bounds, file, attempts[0].fields, attempts[0].fault).file,
          attempts[1..]);
    }
  }

  /** A file that does not verify is never touched again. */
  lemma {:induction false} BrokenLedgerIsLeftAlone(env: StoreEnv, bounds: Bounds, file: Bytes, attempts: seq<Attempt>)
    requires VerifiedEvents(env, bounds, file).None?
    ensures Run(env, bounds, file, attempts) == file && Reported(env, bounds, file, attempts) == 0
    decreases |attempts|
  {
    if attempts != [] { BrokenLedgerIsLeftAlone(env, bounds, file, attempts[1..]); }
  }

  /** The empty ledger verifies, so the theorem above covers every run from a new store. */
  lemma NewLedgerVerifies(env: StoreEnv, bounds: Bounds)
    requires bounds.maximumBytes >= 1 && bounds.maximumEvents >= 1
    ensures VerifiedEvents(env, bounds, []) == Some([])
  {
    assert Segments([]) == [];
    assert SplitLines([]) == [];
  }

  // ----- the store object -----

  /** The ledger file of one store. */
  class AuditStore {
    var file: Bytes

    constructor (existing: Bytes)
      ensures file == existing
    {
      file := existing;
    }

    /** The loop of `_decoded_events`. */
    method DecodedEvents(env: StoreEnv, bounds: Bounds) returns (events: Option<seq<Event>>)
      ensures events == if |file| > bounds.maximumBytes || |SplitLines(file)| > bounds.maximumEvents then None
                        else DecodeLedger(env, file)
    {
      if |file| > bounds.maximumBytes || (file != [] && file[|file| - 1] != NEWLINE) {
        return None;
      }
      var lines := SplitLines(file);
      if |lines| > bounds.maximumEvents {
        return None;
      }
      events := ParseLines(env, lines);
    }

    static method ParseLines(env: StoreEnv, lines: seq<Bytes>) returns (events: Option<seq<Event>>)
      ensures events == DecodeLines(env, lines)
    {
      var decoded: seq<Event> := [];
      assert lines[0..] == lines;
      ExtendStep([], DecodeLines(env, lines));
      for k := 0 to |lines|
        invariant DecodeLines(env, lines) == Extended(decoded, DecodeLines(env, lines[k..]))
      {
        var value := env.loads(lines[k]);
        assert lines[k..][1..] == lines[k + 1..];
        if value.None? || !value.value.Obj? {
          return None;
        }
        ghost var rest := DecodeLines(env, lines[k + 1..]);
        if rest.Some? { Associative(decoded, [value.value.fields], rest.value); }
        decoded := decoded + [value.value.fields];
      }
      assert decoded + [] == decoded;
      return Some(decoded);
    }

    static lemma ExtendStep(front: seq<Event>, rest: Option<seq<Event>>)
      ensures front == [] ==> Extended(front, rest) == rest
    {
      if rest.Some? { assert [] + rest.value == rest.value; }
    }

    static function Extended(front: seq<Event>, rest: Option<seq<Event>>): Option<seq<Event>> {
      if rest.Some? then Some(front + rest.value) else None
    }

    /** `append_verified_event`, with the operating system's failure as a parameter. */
    method AppendVerifiedEvent(env: StoreEnv, bounds: Bounds, fields: Value, fault: Fault)
      returns (event: Option<Event>)
      modifies this
      ensures Appended(file, event) == Append(env, bounds, old(file), fields, fault)
    {
      hide DecodeLedger, Verify, BuildEvent, EncodeLedger;
      if bounds.maximumBytes < 1 || bounds.maximumEvents < 1 { return None; }
      if BuildEvent(env.chain, None, fields).None? { return None; }
      if fault == NoLock { return None; }
      var decoded := DecodedEvents(env, bounds);
      if decoded.None? { return None; }
      var events := decoded.value;
      var verification := VerifyChain(env.chain, Objects(events));
      if !verification.valid { return None; }
      if |events| >= bounds.maximumEvents { return None; }
      var built := BuildEvent(env.chain, LastOf(events), fields);
      if built.None? { return None; }
      var payload := EncodeLedger(env, events + [built.value]);
      if |payload| > bounds.maximumBytes { return None; }
      if fault == BeforeReplace { return None; }
      file := payload;
      if fault == AfterReplace { return None; }
      return built;
    }
  }
}
