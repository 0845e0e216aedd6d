/** JSON values and the Python string operations the dashboard applies to them.

    The keys of an object are a type parameter: each component names the keys it reads and keeps
    one constructor for all others. */
module Values {
  datatype Json<K(==)> =
    | Null
    | Bool(b: bool)
    | Int(n: int)
    | Float(r: real)
    | Str(s: string)
    | Arr(items: seq<Json<K>>)
    | Obj(fields: map<K, Json<K>>)

  /** `value.get(key, default)` */
  function Get<K>(fields: map<K, Json<K>>, key: K, default: Json<K>): Json<K> {
    if key in fields then fields[key] else default
  }

  /** Python truth value. */
  predicate Truthy<K>(j: Json<K>) {
    match j
    case Null => false
    case Bool(b) => b
    case Int(n) => n != 0
    case Float(r) => r != 0.0
    case Str(s) => s != ""
    case Arr(items) => items != []
    case Obj(fields) => fields != map[]
  }

  /** `str(value or "")`; how Python prints a value that is not text is the parameter. */
  function TextOr<K>(render: Json<K> -> string, j: Json<K>): string {
    if !Truthy(j) then "" else if j.Str? then j.s else render(j)
  }

  /** A list of texts. */
  function Strs<K>(texts: seq<string>): seq<Json<K>> {
    seq(|texts|, i requires 0 <= i < |texts| => Str(texts[i]))
  }

  function Truncate(s: string, limit: nat): (t: string)
    ensures |t| <= limit
    ensures t == s || (|s| > limit && t == s[..limit])
  {
    if |s| > limit then s[..limit] else s
  }

  // ----- str.strip() -----

  /** str.isspace() for one character. */
  predicate IsSpace(c: char) {
    var n := c as int;
    || 9 <= n <= 13 || 28 <= n <= 32 || n == 0x85 || n == 0xA0 || n == 0x1680
    || 0x2000 <= n <= 0x200A || n == 0x2028 || n == 0x2029 || n == 0x202F || n == 0x205F || n == 0x3000
  }

  /** No blank at either end. */
  predicate Tight(s: string) {
    s == "" || (!IsSpace(s[0]) && !IsSpace(s[|s| - 1]))
  }

  function TrimStart(s: string): (t: string)
    ensures t == "" || !IsSpace(t[0])
    ensures |t| <= |s|
    ensures s == "" || !IsSpace(s[|s| - 1]) ==> t == "" || !IsSpace(t[|t| - 1])
  {
    if s != "" && IsSpace(s[0]) then TrimStart(s[1..]) else s
  }

  function TrimEnd(s: string): (t: string)
    ensures t == "" || !IsSpace(t[|t| - 1])
    ensures |t| <= |s|
    ensures s == "" || !IsSpace(s[0]) ==> t == "" || t[0] == s[0]
  {
    if s != "" && IsSpace(s[|s| - 1]) then TrimEnd(s[..|s| - 1]) else s
  }

  function Strip(s: string): (t: string)
    ensures Tight(t)
    ensures Tight(s) ==> t == s
    ensures |t| <= |s|
  {
    TrimEnd(TrimStart(s))
  }

  // ----- str.lower() -----

  predicate IsAscii(c: char) {
    c as int < 128
  }

  predicate AllAscii(s: string) {
    forall i :: 0 <= i < |s| ==> IsAscii(s[i])
  }

  function AsciiLower(c: char): char {
    if 'A' <= c <= 'Z' then c - 'A' + 'a' else c
  }

  /** Lower-casing acts on each character; what it does outside ASCII is the parameter. */
  function Lower(other: char -> string, s: string): string {
    if s == "" then ""
    else (if IsAscii(s[0]) then [AsciiLower(s[0])] else other(s[0])) + Lower(other, s[1..])
  }

  lemma {:induction false} LowerAppend(other: char -> string, a: string, b: string)
    ensures Lower(other, a + b) == Lower(other, a) + Lower(other, b)
  {
    if a == "" {
      assert a + b == b;
    } else {
      LowerAppend(other, a[1..], b);
      assert (a + b)[0] == a[0] && (a + b)[1..] == a[1..] + b;
      var head := if IsAscii(a[0]) then [AsciiLower(a[0])] else other(a[0]);
      assert head + (Lower(other, a[1..]) + Lower(other, b)) == (head + Lower(other, a[1..])) + Lower(other, b);
    }
  }

  /** ASCII text without capitals. */
  predicate IsLowerText(s: string) {
    forall i :: 0 <= i < |s| ==> IsAscii(s[i]) && !('A' <= s[i] <= 'Z')
  }

  lemma {:induction false} LowerFixesLowerText(other: char -> string, s: string)
    requires IsLowerText(s)
    ensures Lower(other, s) == s
  {
    if s != "" {
      LowerFixesLowerText(other, s[1..]);
      assert s == [s[0]] + s[1..];
    }
  }

  // ----- bounded patterns -----

  /** `[first][rest]{min-1,max-1}` matched in full. */
  predicate Matches(s: string, first: char -> bool, rest: char -> bool, min: nat, max: nat) {
    && 1 <= min <= |s| <= max
    && first(s[0])
    && forall i :: 1 <= i < |s| ==> rest(s[i])
  }

  predicate IsLowerLetter(c: char) { 'a' <= c <= 'z' }

  predicate IsUpperLetter(c: char) { 'A' <= c <= 'Z' }

  predicate IsDigit(c: char) { '0' <= c <= '9' }

  predicate IsHexDigit(c: char) { IsDigit(c) || 'a' <= c <= 'f' }

  predicate IsSha256(s: string) {
    |s| == 64 && forall i :: 0 <= i < |s| ==> IsHexDigit(s[i])
  }
}
