/** A codec of audit events with the laws the ledger's theorems suppose: an event is written as natural
    numbers, and those in unary. */
module AuditCodec {
  import opened AuditChain
  import opened AuditLedger
  import opened Bytes
  import opened Prelude
  import opened Values

  // ----- numbers as bytes -----

  const MARK: Byte := 97
  const STOP: Byte := 98

  function Unary(n: nat): Bytes {
    if n == 0 then [STOP] else [MARK] + Unary(n - 1)
  }

  function Written(numbers: seq<nat>): Bytes {
    if numbers == [] then [] else Unary(numbers[0]) + Written(numbers[1..])
  }

  function ReadNumbers(s: Bytes, count: nat): Option<seq<nat>> {
    if s == [] then if count == 0 then Some([]) else None
    else if s[0] == MARK then ReadNumbers(s[1..], count + 1)
    else if s[0] != STOP then None
    else match ReadNumbers(s[1..], 0)
      case None => None
      case Some(rest) => Some([count] + rest)
  }

  lemma {:induction false} ReadUnary(n: nat, rest: Bytes, count: nat)
    ensures ReadNumbers(Unary(n) + rest, count) ==
      match ReadNumbers(rest, 0)
      case None => None
      case Some(numbers) => Some([n + count] + numbers)
  {
    var s := Unary(n) + rest;
    if n == 0 {
      assert s[1..] == rest;
    } else {
      assert s[1..] == Unary(n - 1) + rest;
      ReadUnary(n - 1, rest, count + 1);
    }
  }

  lemma {:induction false} ReadWritten(numbers: seq<nat>)
    ensures ReadNumbers(Written(numbers), 0) == Some(numbers)
  {
    if numbers != [] {
      ReadUnary(numbers[0], Written(numbers[1..]), 0);
      ReadWritten(numbers[1..]);
      assert [numbers[0]] + numbers[1..] == numbers;
    }
  }

  lemma {:induction false} WrittenIsOneLine(numbers: seq<nat>)
    ensures NoLineBreak(Written(numbers))
  {
    if numbers != [] {
      UnaryIsOneLine(numbers[0]);
      WrittenIsOneLine(numbers[1..]);
    }
  }

  lemma {:induction false} UnaryIsOneLine(n: nat)
    ensures NoLineBreak(Unary(n))
  {
    if n > 0 { UnaryIsOneLine(n - 1); }
  }

  // ----- text -----

  predicate IsCharacter(n: nat) { n < 0xD800 || 0xE000 <= n < 0x11_0000 }

  function TextNumbers(s: string): seq<nat> {
    [|s|] + seq(|s|, i requires 0 <= i < |s| => s[i] as nat)
  }

  /** A text and the numbers after it. */
  function ReadText(numbers: seq<nat>): (r: Option<(string, seq<nat>)>)
    ensures r.Some? ==> |r.value.1| < |numbers|
  {
    if numbers == [] || numbers[0] > |numbers| - 1
      || !(forall i :: 1 <= i <= numbers[0] ==> IsCharacter(numbers[i])) then None
    else Some((seq(numbers[0], i requires 0 <= i < numbers[0] => numbers[i + 1] as char), numbers[numbers[0] + 1..]))
  }

  lemma ReadTextBack(s: string, rest: seq<nat>)
    ensures ReadText(TextNumbers(s) + rest) == Some((s, rest))
  {
    var numbers := TextNumbers(s) + rest;
    assert numbers[0] == |s|;
    forall i | 1 <= i <= |s| ensures numbers[i] == s[i - 1] as nat && IsCharacter(numbers[i]) {}
    assert numbers[|s| + 1..] == rest;
    assert ReadText(numbers).value.0 == s;
  }

  // ----- keys and values -----

  const KEYS: seq<AuditKey> :=
    [Schema, Sequence, PreviousDigest, EventDigest, OccurredAt, RequestId, PrincipalFingerprint, Role, Permission,
     Action, TargetType, TargetDigest, Outcome, HttpStatus, ReasonCode]

  function KeyNumber(key: AuditKey): (n: nat)
    ensures !key.Other? ==> n < |KEYS| && KEYS[n] == key
    ensures key.Other? ==> n == |KEYS|
  {
    match key
    case Schema => 0
    case Sequence => 1
    case PreviousDigest => 2
    case EventDigest => 3
    case OccurredAt => 4
    case RequestId => 5
    case PrincipalFingerprint => 6
    case Role => 7
    case Permission => 8
    case Action => 9
    case TargetType => 10
    case TargetDigest => 11
    case Outcome => 12
    case HttpStatus => 13
    case ReasonCode => 14
    case Other(_) => 15
  }

  function KeyNumbers(key: AuditKey): seq<nat> {
    [KeyNumber(key)] + if key.Other? then TextNumbers(key.name) else []
  }

  function ReadKey(numbers: seq<nat>): (r: Option<(AuditKey, seq<nat>)>)
    ensures r.Some? ==> |r.value.1| < |numbers|
  {
    if numbers == [] then None
    else if numbers[0] < |KEYS| then Some((KEYS[numbers[0]], numbers[1..]))
    else match ReadText(numbers[1..])
      case None => None
      case Some((name, rest)) => Some((Other(name), rest))
  }

  lemma ReadKeyBack(key: AuditKey, rest: seq<nat>)
    ensures ReadKey(KeyNumbers(key) + rest) == Some((key, rest))
  {
    hide KeyNumber, ReadText, TextNumbers;
    var numbers := KeyNumbers(key) + rest;
    if key.Other? {
      assert numbers[1..] == TextNumbers(key.name) + rest;
      ReadTextBack(key.name, rest);
    } else {
      assert numbers[1..] == rest;
    }
  }

  predicate IsPlainValue(v: Value) { v.Str? || v.Int? || v.Bool? || v.Null? }

  function ValueNumbers(v: Value): seq<nat>
    requires IsPlainValue(v)
  {
    match v
    case Str(s) => [0] + TextNumbers(s)
    case Int(n) => if n >= 0 then [1, n] else [2, -n]
    case Bool(b) => if b then [3] else [4]
    case Null => [5]
  }

  function ReadValue(numbers: seq<nat>): (r: Option<(Value, seq<nat>)>)
    ensures r.Some? ==> |r.value.1| < |numbers| && IsPlainValue(r.value.0)
  {
    if numbers == [] then None
    else if numbers[0] == 0 then
      match ReadText(numbers[1..]) {
        case None => None
        case Some((s, rest)) => Some((Str(s), rest))
      }
    else if numbers[0] <= 2 then
      if |numbers| < 2 then None
      else
        var n: int := numbers[1];
        Some((Int(if numbers[0] == 1 then n else -n), numbers[2..]))
    else Some((if numbers[0] == 3 then Bool(true) else if numbers[0] == 4 then Bool(false) else Null, numbers[1..]))
  }

  lemma ReadValueBack(v: Value, rest: seq<nat>)
    requires IsPlainValue(v)
    ensures ReadValue(ValueNumbers(v) + rest) == Some((v, rest))
  {
    hide ReadText, TextNumbers;
    var numbers := ValueNumbers(v) + rest;
    match v
    case Str(s) =>
      assert numbers[1..] == TextNumbers(s) + rest;
      ReadTextBack(s, rest);
    case Int(n) => assert numbers[2..] == rest;
    case Bool(b) => assert numbers[1..] == rest;
    case Null => assert numbers[1..] == rest;
  }

  // ----- events -----

  /** The members one after another, in any order. */
  ghost function EventNumbers(e: Event): seq<nat>
    requires IsPlain(e)
    decreases |e|
  {
    if e == map[] then []
    else
      var key :| key in e;
      KeyNumbers(key) + (ValueNumbers(e[key]) + EventNumbers(e - {key}))
  }

  function ReadEvent(numbers: seq<nat>): (r: Option<Event>)
    ensures r.Some? ==> IsPlain(r.value)
    decreases |numbers|
  {
    if numbers == [] then Some(map[])
    else match ReadKey(numbers)
      case None => None
      case Some((key, afterKey)) =>
        match ReadValue(afterKey) {
          case None => None
          case Some((v, rest)) =>
            match ReadEvent(rest) {
              case None => None
              case Some(others) => Some(others[key := v])
            }
        }
  }

  lemma {:induction false} ReadEventBack(e: Event)
    requires IsPlain(e)
    ensures ReadEvent(EventNumbers(e)) == Some(e)
    decreases |e|
  {
    hide ReadKey, ReadValue, KeyNumbers, ValueNumbers;
    if e != map[] {
      var key :| key in e && EventNumbers(e) == KeyNumbers(key) + (ValueNumbers(e[key]) + EventNumbers(e - {key}));
      var others := e - {key};
      ReadKeyBack(key, ValueNumbers(e[key]) + EventNumbers(others));
      ReadValueBack(e[key], EventNumbers(others));
      ReadEventBack(others);
      assert others[key := e[key]] == e;
    }
  }

  // ----- the codec -----

  ghost function Dumps(e: Event): Bytes {
    if IsPlain(e) then Written(EventNumbers(e)) else []
  }

  function Loads(s: Bytes): (r: Option<Value>)
    ensures r.Some? ==> r.value.Obj? && IsPlain(r.value.fields)
  {
    match ReadNumbers(s, 0)
    case None => None
    case Some(numbers) =>
      match ReadEvent(numbers) {
        case None => None
        case Some(e) => Some(Obj(e))
      }
  }

  lemma LoadsUndoesDumps(e: Event)
    requires IsPlain(e)
    ensures Loads(Dumps(e)) == Some(Obj(e))
  {
    hide ReadNumbers, ReadEvent, Written, EventNumbers;
    ReadWritten(EventNumbers(e));
    ReadEventBack(e);
  }

  lemma DumpsIsOneLine(e: Event)
    ensures NoLineBreak(Dumps(e))
  {
    hide Written, EventNumbers;
    if IsPlain(e) { WrittenIsOneLine(EventNumbers(e)); }
  }

  /** The laws the ledger's theorems suppose can hold together. */
  lemma LawfulStoreExists()
    ensures exists env: StoreEnv :: AuditLedger.Lawful(env)
  {
    hide Dumps, Loads, IsPlain;
    var digest := seq(64, i => '0');
    var env := StoreEnv(ChainEnv((payload: Event) => digest, (s: string) => true), (e: Event) => Dumps(e), Loads);
    assert IsSha256(digest);
    forall e: Event ensures NoLineBreak(env.dumps(e)) { DumpsIsOneLine(e); }
    forall e: Event | IsPlain(e) ensures env.loads(env.dumps(e)) == Some(Obj(e)) { LoadsUndoesDumps(e); }
    forall line: Bytes | env.loads(line).Some? && env.loads(line).value.Obj?
      ensures env.loads(env.dumps(env.loads(line).value.fields)) == env.loads(line)
    {
      LoadsUndoesDumps(env.loads(line).value.fields);
    }
    assert AuditLedger.Lawful(env);
  }
}
