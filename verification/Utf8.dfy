/** UTF-8 as RFC 3629 defines it: the encoding of section 3, the strict syntax of section 4, and
    the byte-bounded text tail built on them. */
module Utf8 {
  import opened Bytes

  /** A Unicode scalar value: no surrogates, at most U+10FFFF. */
  type Scalar = c: int | 0 <= c < 0xD800 || 0xE000 <= c < 0x110000

  type Text = seq<Scalar>

  datatype Decoded = Bad | First(scalar: Scalar, width: nat)

  datatype Strict = Failed | Passed(text: Text)

  /** `byte & 0xC0 == 0x80` */
  predicate IsTail(b: Byte) {
    0x80 <= b <= 0xBF
  }

  lemma TailIsTopBits(b: Byte)
    ensures IsTail(b) <==> (b as bv8) & 0xC0 == 0x80
  {
    TopBits(b as bv8);
    var v := b as bv8;
    assert v as int == b;
  }

  lemma TopBits(v: bv8)
    ensures v & 0xC0 == 0x80 <==> 0x80 <= v <= 0xBF
  {
  }

  function EncodeOne(c: Scalar): (bytes: Bytes)
    ensures 1 <= |bytes| <= 4
    ensures !IsTail(bytes[0])
    ensures forall i :: 1 <= i < |bytes| ==> IsTail(bytes[i])
  {
    if c < 0x80 then [c]
    else if c < 0x800 then [0xC0 + c / 64, 0x80 + c % 64]
    else if c < 0x10000 then [0xE0 + c / 4096, 0x80 + c / 64 % 64, 0x80 + c % 64]
    else [0xF0 + c / 262144, 0x80 + c / 4096 % 64, 0x80 + c / 64 % 64, 0x80 + c % 64]
  }

  function Encode(text: Text): Bytes {
    if text == [] then [] else EncodeOne(text[0]) + Encode(text[1..])
  }

  /** The first character of a byte string by the grammar of RFC 3629, section 4. */
  function DecodeFirst(s: Bytes): (d: Decoded)
    requires s != []
    ensures d.First? ==> 1 <= d.width <= |s|
  {
    var b := s[0];
    if b < 0x80 then First(b, 1)
    else if 0xC2 <= b <= 0xDF && |s| >= 2 && IsTail(s[1]) then
      First(Bits(b, 0xC0) * 64 + Bits(s[1], 0x80), 2)
    else if 0xE0 <= b <= 0xEF && |s| >= 3 && ThreeByteSecond(b, s[1]) && IsTail(s[2]) then
      First(Bits(b, 0xE0) * 4096 + Bits(s[1], 0x80) * 64 + Bits(s[2], 0x80), 3)
    else if 0xF0 <= b <= 0xF4 && |s| >= 4 && FourByteSecond(b, s[1]) && IsTail(s[2]) && IsTail(s[3]) then
      First(Bits(b, 0xF0) * 262144 + Bits(s[1], 0x80) * 4096 + Bits(s[2], 0x80) * 64 + Bits(s[3], 0x80), 4)
    else Bad
  }

  /** The payload bits of a byte above its marker. */
  function Bits(b: Byte, marker: int): int {
    b - marker
  }

  predicate ThreeByteSecond(b0: Byte, b1: Byte) {
    IsTail(b1) && (b0 == 0xE0 ==> b1 >= 0xA0) && (b0 == 0xED ==> b1 <= 0x9F)
  }

  predicate FourByteSecond(b0: Byte, b1: Byte) {
    IsTail(b1) && (b0 == 0xF0 ==> b1 >= 0x90) && (b0 == 0xF4 ==> b1 <= 0x8F)
  }

  /** `bytes.decode("utf-8", errors="strict")` */
  function Decode(s: Bytes): Strict {
    if s == [] then Passed([])
    else
      match DecodeFirst(s)
      case Bad => Failed
      case First(c, width) =>
        match Decode(s[width..])
        case Failed => Failed
        case Passed(rest) => Passed([c] + rest)
  }

  lemma Base64Digits(c: nat)
    ensures c == c / 64 * 64 + c % 64
    ensures c / 64 == c / 4096 * 64 + c / 64 % 64
    ensures c / 4096 == c / 262144 * 64 + c / 4096 % 64
  {
    assert c / 64 / 64 == c / 4096;
    assert c / 4096 / 64 == c / 262144;
  }

  lemma DecodeThreeBytes(c: Scalar, s: Bytes)
    requires 0x800 <= c < 0x10000 && EncodeOne(c) <= s
    ensures DecodeFirst(s) == First(c, 3)
  {
    Base64Digits(c);
    assert s[0] == EncodeOne(c)[0] && s[1] == EncodeOne(c)[1] && s[2] == EncodeOne(c)[2];
  }

  lemma DecodeFourBytes(c: Scalar, s: Bytes)
    requires 0x10000 <= c && EncodeOne(c) <= s
    ensures DecodeFirst(s) == First(c, 4)
  {
    Base64Digits(c);
    assert s[0] == EncodeOne(c)[0] && s[1] == EncodeOne(c)[1];
    assert s[2] == EncodeOne(c)[2] && s[3] == EncodeOne(c)[3];
  }

  lemma DecodeFirstOfEncoded(c: Scalar, rest: Bytes)
    ensures DecodeFirst(EncodeOne(c) + rest) == First(c, |EncodeOne(c)|)
  {
    var s := EncodeOne(c) + rest;
    if c < 0x800 {
      assert s[0] == EncodeOne(c)[0] && (c >= 0x80 ==> s[1] == EncodeOne(c)[1]);
    } else if c < 0x10000 {
      DecodeThreeBytes(c, s);
    } else {
      DecodeFourBytes(c, s);
    }
  }

  /** Strict decoding undoes encoding. */
  lemma {:induction false} DecodeEncode(text: Text)
    ensures Decode(Encode(text)) == Passed(text)
  {
    if text != [] {
      var one, rest := EncodeOne(text[0]), Encode(text[1..]);
      DecodeFirstOfEncoded(text[0], rest);
      assert (one + rest)[|one|..] == rest;
      DecodeEncode(text[1..]);
      assert [text[0]] + text[1..] == text;
    }
  }

  lemma EncodeFirstOfThree(s: Bytes)
    requires s != [] && DecodeFirst(s).First? && DecodeFirst(s).width == 3
    ensures EncodeOne(DecodeFirst(s).scalar) == s[..3]
  {
    var c := DecodeFirst(s).scalar;
    Base64Digits(c);
    assert c / 64 == Bits(s[0], 0xE0) * 64 + Bits(s[1], 0x80);
  }

  lemma EncodeFirstOfFour(s: Bytes)
    requires s != [] && DecodeFirst(s).First? && DecodeFirst(s).width == 4
    ensures EncodeOne(DecodeFirst(s).scalar) == s[..4]
  {
    var c := DecodeFirst(s).scalar;
    Base64Digits(c);
    assert c / 64 == Bits(s[0], 0xF0) * 4096 + Bits(s[1], 0x80) * 64 + Bits(s[2], 0x80);
    assert c / 4096 == Bits(s[0], 0xF0) * 64 + Bits(s[1], 0x80);
  }

  lemma EncodeFirstOfDecoded(s: Bytes)
    requires s != [] && DecodeFirst(s).First?
    ensures var d := DecodeFirst(s);
            EncodeOne(d.scalar) == s[..d.width]
  {
    if DecodeFirst(s).width == 3 {
      EncodeFirstOfThree(s);
    } else if DecodeFirst(s).width == 4 {
      EncodeFirstOfFour(s);
    }
  }

  lemma EncodeCons(c: Scalar, text: Text)
    ensures Encode([c] + text) == EncodeOne(c) + Encode(text)
  {
    assert ([c] + text)[1..] == text;
  }

  lemma DecodeStep(s: Bytes)
    requires s != [] && Decode(s).Passed?
    ensures var d := DecodeFirst(s);
            d.First? && Decode(s[d.width..]).Passed? && Decode(s).text == [d.scalar] + Decode(s[d.width..]).text
  {
  }

  /** Encoding undoes strict decoding, so no byte string has two readings. */
  lemma {:induction false} EncodeDecode(s: Bytes)
    requires Decode(s).Passed?
    ensures Encode(Decode(s).text) == s
  {
    if s != [] {
      DecodeStep(s);
      EncodeFirstOfDecoded(s);
      var d := DecodeFirst(s);
      EncodeDecode(s[d.width..]);
      EncodeCons(d.scalar, Decode(s[d.width..]).text);
      Halves(s, d.width);
      hide *;
    }
  }

  lemma {:induction false} EncodeAppend(a: Text, b: Text)
    ensures Encode(a + b) == Encode(a) + Encode(b)
  {
    if a == [] {
      assert a + b == b;
    } else {
      Uncons(a, b);
      EncodeAppend(a[1..], b);
      Associative(EncodeOne(a[0]), Encode(a[1..]), Encode(b));
    }
  }

  // ----- where a byte cut falls -----

  /** Number of leading characters whose encoding reaches byte `cut`. */
  function CharactersUpTo(text: Text, cut: int): (k: nat)
    ensures k <= |text|
  {
    if cut <= 0 || text == [] then 0
    else 1 + CharactersUpTo(text[1..], cut - |EncodeOne(text[0])|)
  }

  /** The next character boundary is at most three bytes after the cut, all of them tail bytes. */
  lemma {:induction false} NextBoundary(text: Text, cut: int)
    requires 0 <= cut <= |Encode(text)|
    ensures var k := CharactersUpTo(text, cut);
            var start := |Encode(text[..k])|;
            && cut <= start <= cut + 3
            && start <= |Encode(text)|
            && Encode(text)[start..] == Encode(text[k..])
            && (forall p :: cut <= p < start ==> IsTail(Encode(text)[p]))
            && (start < |Encode(text)| ==> !IsTail(Encode(text)[start]))
  {
    var k := CharactersUpTo(text, cut);
    if cut == 0 {
      assert text[..0] == [] && text[0..] == text;
    } else {
      var one, rest := EncodeOne(text[0]), Encode(text[1..]);
      EncodeTakes(text, k);
      if cut < |one| {
        assert CharactersUpTo(text[1..], cut - |one|) == 0;
        assert text[1..][..0] == [];
        if rest != [] { assert rest[0] == EncodeOne(text[1])[0]; }
      } else {
        NextBoundary(text[1..], cut - |one|);
      }
    }
  }

  lemma EncodeTakes(text: Text, k: nat)
    requires 1 <= k <= |text|
    ensures var one, rest := EncodeOne(text[0]), Encode(text[1..]);
            && Encode(text) == one + rest
            && |Encode(text[..k])| == |one| + |Encode(text[1..][..k - 1])|
            && text[k..] == text[1..][k - 1..]
            && (forall p :: |one| <= p < |Encode(text)| ==> Encode(text)[p] == rest[p - |one|])
            && (forall p :: |one| <= p <= |Encode(text)| ==> Encode(text)[p..] == rest[p - |one|..])
  {
    assert text[..k][1..] == text[1..][..k - 1];
  }

  /** No earlier character boundary satisfies the bound. */
  lemma {:induction false} BoundaryIsFirst(text: Text, cut: int, j: nat)
    requires 0 <= cut <= |Encode(text)| && j <= |text|
    requires |Encode(text[..j])| >= cut
    ensures j >= CharactersUpTo(text, cut)
  {
    if cut > 0 {
      assert text != [];
      assert text[..0] == [];
      assert j > 0;
      assert text[..j][1..] == text[1..][..j - 1];
      if cut > |EncodeOne(text[0])| {
        BoundaryIsFirst(text[1..], cut - |EncodeOne(text[0])|, j - 1);
      }
    }
  }

  // ----- the byte-bounded tail -----

  datatype Tail = Tail(text: Text, bytes: nat, truncated: bool)

  /** The longest run of final characters that fits, with its size in bytes. */
  function BoundedTail(text: Text, bound: nat): (t: Tail)
  {
    var size := |Encode(text)|;
    if size <= bound then Tail(text, size, false)
    else
      var kept := text[CharactersUpTo(text, size - bound)..];
      Tail(kept, |Encode(kept)|, true)
  }

  /** The tail is a suffix of the text, fits, is the longest such suffix, and wastes at most three
      bytes of the bound. */
  lemma TailIsLongestThatFits(text: Text, bound: nat)
    ensures var t := BoundedTail(text, bound);
            && t.bytes == |Encode(t.text)| <= bound
            && |t.text| <= |text| && t.text == text[|text| - |t.text|..]
            && (t.truncated <==> |Encode(text)| > bound)
            && (t.truncated ==> bound - t.bytes <= 3)
            && (forall j :: 0 <= j <= |text| && |Encode(text[j..])| <= bound ==> |text| - j <= |t.text|)
  {
    var size := |Encode(text)|;
    if size > bound {
      hide Encode, CharactersUpTo;
      var k := CharactersUpTo(text, size - bound);
      NextBoundary(text, size - bound);
      SizesAdd(text, k);
      forall j | 0 <= j <= |text| && |Encode(text[j..])| <= bound
        ensures j >= k
      {
        SizesAdd(text, j);
        BoundaryIsFirst(text, size - bound, j);
      }
    }
  }

  lemma SizesAdd(text: Text, k: nat)
    requires k <= |text|
    ensures |Encode(text)| == |Encode(text[..k])| + |Encode(text[k..])|
  {
    Halves(text, k);
    EncodeAppend(text[..k], text[k..]);
  }

  /** The first loop of `_utf8_tail`: drop the tail bytes of a character cut in half. */
  method DropTailBytes(encoded: Bytes, cut: nat, ghost start: nat) returns (suffix: Bytes)
    requires cut <= start <= |encoded|
    requires forall p :: cut <= p < start ==> IsTail(encoded[p])
    requires start < |encoded| ==> !IsTail(encoded[start])
    ensures suffix == encoded[start..]
  {
    suffix := encoded[cut..];
    ghost var at := cut;
    while suffix != [] && IsTail(suffix[0])
      invariant cut <= at <= start
      invariant suffix == encoded[at..]
      decreases |suffix|
    {
      assert suffix[0] == encoded[at];
      suffix := suffix[1..];
      at := at + 1;
    }
  }

  /** The first suffix that decodes strictly, and how many bytes had to be given up for it. */
  function FirstDecodable(s: Bytes): (r: (Text, nat))
    ensures r.1 <= |s|
  {
    match Decode(s)
    case Passed(text) => (text, 0)
    case Failed => var inner := FirstDecodable(s[1..]); (inner.0, inner.1 + 1)
  }

  /** The second loop of `_utf8_tail`: strict decoding, giving up one byte after each failure. */
  method DecodeSuffix(start: Bytes) returns (text: Text, dropped: nat)
    ensures (text, dropped) == FirstDecodable(start)
  {
    dropped := 0;
    var suffix := start;
    while suffix != []
      invariant dropped <= |start| && suffix == start[dropped..]
      invariant FirstDecodable(start) == (FirstDecodable(suffix).0, FirstDecodable(suffix).1 + dropped)
      decreases |suffix|
    {
      match Decode(suffix) {
        case Passed(decoded) =>
          return decoded, dropped;
        case Failed =>
          suffix := suffix[1..];
          dropped := dropped + 1;
      }
    }
    text := [];
  }

  /** `_utf8_tail`. The bound is positive: a slice `[-0:]` would keep everything. The strict decoder
      accepts the first suffix it is given. */
  method Utf8Tail(content: Text, maximumBytes: nat) returns (tail: Tail)
    requires maximumBytes >= 1
    ensures tail == BoundedTail(content, maximumBytes)
  {
    hide Encode, CharactersUpTo;
    var encoded := Encode(content);
    if |encoded| <= maximumBytes {
      return Tail(content, |encoded|, false);
    }
    var cut := |encoded| - maximumBytes;
    ghost var kept := content[CharactersUpTo(content, cut)..];
    NextBoundary(content, cut);
    var suffix := DropTailBytes(encoded, cut, |Encode(content[..CharactersUpTo(content, cut)])|);
    DecodeEncode(kept);
    var decoded, dropped := DecodeSuffix(suffix);
    assert dropped == 0;
    return Tail(decoded, |suffix| - dropped, true);
  }
}
