/**
 * Percent-encoding of text through UTF-8, section 2.1 of RFC 3986, as the JavaScript functions
 * encodeURIComponent and decodeURIComponent do it. A character is a Unicode scalar value.
 */
module PercentEncoding {
  import opened Sequences

  predicate Unreserved(c: char) {
    'a' <= c <= 'z' || 'A' <= c <= 'Z' || '0' <= c <= '9' || c in "-_.!~*'()"
  }

  function HexDigit(n: nat): (c: char)
    requires n < 16
    ensures '0' <= c <= '9' || 'A' <= c <= 'F'
  {
    if n < 10 then (n + '0' as int) as char else (n - 10 + 'A' as int) as char
  }

  function HexValue(c: char): (n: Option<nat>)
    ensures n.Some? ==> n.value < 16
  {
    if '0' <= c <= '9' then Some(c as int - '0' as int)
    else if 'A' <= c <= 'F' then Some(c as int - 'A' as int + 10)
    else if 'a' <= c <= 'f' then Some(c as int - 'a' as int + 10)
    else None
  }

  function EncodeByte(b: nat): (r: string)
    requires b < 256
    ensures |r| == 3
  {
    ['%', HexDigit(b / 16), HexDigit(b % 16)]
  }

  function EncodeBytes(bytes: seq<nat>): (r: string)
    requires forall i :: 0 <= i < |bytes| ==> bytes[i] < 256
    ensures |r| == 3 * |bytes|
  {
    if |bytes| == 0 then "" else EncodeByte(bytes[0]) + EncodeBytes(bytes[1..])
  }

  function Utf8(v: nat): (bytes: seq<nat>)
    requires v < 0x110000
    ensures forall i :: 0 <= i < |bytes| ==> bytes[i] < 256
  {
    if v < 0x80 then [v]
    else if v < 0x800 then [0xC0 + v / 64, 0x80 + v % 64]
    else if v < 0x10000 then [0xE0 + v / 64 / 64, 0x80 + v / 64 % 64, 0x80 + v % 64]
    else [0xF0 + v / 64 / 64 / 64, 0x80 + v / 64 / 64 % 64, 0x80 + v / 64 % 64, 0x80 + v % 64]
  }

  function EncodeChar(c: char): string {
    if Unreserved(c) then [c] else EncodeBytes(Utf8(c as nat))
  }

  function Encode(s: string): string {
    if |s| == 0 then "" else EncodeChar(s[0]) + Encode(s[1..])
  }

  /** The byte that an escape at the head of the text stands for. */
  function ByteAt(s: string): (b: Option<nat>)
    ensures b.Some? ==> |s| >= 3 && s[0] == '%' && b.value < 256
  {
    if |s| < 3 || s[0] != '%' then None
    else if HexValue(s[1]).None? || HexValue(s[2]).None? then None
    else Some(HexValue(s[1]).value * 16 + HexValue(s[2]).value)
  }

  /** Six more bits from each of the n continuation bytes at the head of the text. */
  function Continue(s: string, n: nat, bits: nat): (v: Option<nat>)
    ensures v.Some? ==> |s| >= 3 * n
    decreases n
  {
    if n == 0 then Some(bits)
    else
      var b := ByteAt(s);
      if b.None? || b.value / 64 != 2 then None else Continue(s[3..], n - 1, bits * 64 + b.value % 64)
  }

  /** How many continuation bytes follow a first byte; None for a byte that starts nothing. */
  function Follow(b: nat): (n: Option<nat>)
    ensures n.Some? ==> n.value <= 3
  {
    if b < 0x80 then Some(0)
    else if 0xC0 <= b < 0xE0 then Some(1)
    else if 0xE0 <= b < 0xF0 then Some(2)
    else if 0xF0 <= b < 0xF8 then Some(3)
    else None
  }

  function FirstBits(b: nat, n: nat): (bits: nat)
  {
    match n case 0 => b case 1 => b % 32 case 2 => b % 16 case _ => b % 8
  }

  /** The shortest form only, no surrogates, and nothing beyond the last code point. */
  predicate Scalar(v: nat, n: nat) {
    && (n == 1 ==> 0x80 <= v)
    && (n == 2 ==> 0x800 <= v && !(0xD800 <= v < 0xE000))
    && (n == 3 ==> 0x10000 <= v < 0x110000)
    && (n <= 1 ==> v < 0x800)
    && (n == 2 ==> v < 0x10000)
  }

  /** The character whose escapes are at the head of the text, and how many bytes they take. */
  function DecodeChar(s: string): (r: Option<(char, nat)>)
    ensures r.Some? ==> 1 <= r.value.1 <= 4 && |s| >= 3 * r.value.1
  {
    var b := ByteAt(s);
    if b.None? || Follow(b.value).None? then None
    else
      var n := Follow(b.value).value;
      var v := Continue(s[3..], n, FirstBits(b.value, n));
      if v.None? || n > 3 || !Scalar(v.value, n) then None else Some((v.value as char, n + 1))
  }

  /** None stands for the URIError. */
  function Decode(s: string): Option<string> {
    if |s| == 0 then Some("")
    else if s[0] != '%' then
      var rest := Decode(s[1..]);
      if rest.None? then None else Some([s[0]] + rest.value)
    else
      var c := DecodeChar(s);
      if c.None? then None
      else
        var rest := Decode(s[3 * c.value.1..]);
        if rest.None? then None else Some([c.value.0] + rest.value)
  }

  lemma ByteRoundTrip(b: nat, rest: string)
    requires b < 256
    ensures ByteAt(EncodeByte(b) + rest) == Some(b) && (EncodeByte(b) + rest)[3..] == rest
  {
    assert b == b / 16 * 16 + b % 16;
  }

  /** Continuation bytes give their bits back. */
  predicate Continuations(bytes: seq<nat>) {
    forall i :: 0 <= i < |bytes| ==> 0x80 <= bytes[i] < 0xC0
  }

  function Bits(bytes: seq<nat>, bits: nat): nat {
    if |bytes| == 0 then bits else Bits(bytes[1..], bits * 64 + bytes[0] % 64)
  }

  lemma FirstByteFirst(bytes: seq<nat>, rest: string)
    requires |bytes| > 0 && forall i :: 0 <= i < |bytes| ==> bytes[i] < 256
    ensures EncodeBytes(bytes) + rest == EncodeByte(bytes[0]) + (EncodeBytes(bytes[1..]) + rest)
  {
    EncodeHead(bytes);
    hide *;
    ConcatIsAssociative(EncodeByte(bytes[0]), EncodeBytes(bytes[1..]), rest);
  }

  lemma EncodeHead(bytes: seq<nat>)
    requires |bytes| > 0 && forall i :: 0 <= i < |bytes| ==> bytes[i] < 256
    ensures EncodeBytes(bytes) == EncodeByte(bytes[0]) + EncodeBytes(bytes[1..])
  {
    hide EncodeByte;
  }

  lemma {:induction false} ContinueReadsBits(bytes: seq<nat>, rest: string, bits: nat)
    requires Continuations(bytes)
    ensures Continue(EncodeBytes(bytes) + rest, |bytes|, bits) == Some(Bits(bytes, bits))
    ensures (EncodeBytes(bytes) + rest)[3 * |bytes|..] == rest
  {
    hide ByteAt, EncodeByte;
    if |bytes| > 0 {
      var tail := EncodeBytes(bytes[1..]) + rest;
      FirstByteFirst(bytes, rest);
      ByteRoundTrip(bytes[0], tail);
      ContinueReadsBits(bytes[1..], rest, bits * 64 + bytes[0] % 64);
    }
  }

  predicate ReadsBack(bytes: seq<nat>, v: nat) {
    var n := |bytes| - 1;
    && n >= 0 && Follow(bytes[0]) == Some(n) && Continuations(bytes[1..])
    && Bits(bytes[1..], FirstBits(bytes[0], n)) == v && Scalar(v, n)
  }

  lemma Utf8RoundTrip(v: nat)
    requires v < 0xD800 || 0xE000 <= v < 0x110000
    ensures ReadsBack(Utf8(v), v)
  {
    if v >= 0x80 {
      SixBits(v);
      if v < 0x800 {
        ReadsBackTwo(v / 64, v % 64);
      } else {
        SixBits(v / 64);
        if v < 0x10000 {
          ReadsBackThree(v / 64 / 64, v / 64 % 64, v % 64);
        } else {
          SixBits(v / 64 / 64);
          ReadsBackFour(v / 64 / 64 / 64, v / 64 / 64 % 64, v / 64 % 64, v % 64);
        }
      }
    }
  }

  lemma SixBits(v: nat)
    ensures v == v / 64 * 64 + v % 64 && v % 64 < 64
  {
  }

  lemma ReadsBackTwo(first: nat, a: nat)
    requires 2 <= first < 32 && a < 64
    ensures ReadsBack([0xC0 + first, 0x80 + a], first * 64 + a)
  {
    var bytes := [0xC0 + first, 0x80 + a];
    assert bytes[1..] == [0x80 + a];
    BitsOfOne(0x80 + a, first);
  }

  lemma ReadsBackThree(first: nat, a: nat, b: nat)
    requires first < 16 && a < 64 && b < 64
    requires var v := (first * 64 + a) * 64 + b; 0x800 <= v && !(0xD800 <= v < 0xE000)
    ensures ReadsBack([0xE0 + first, 0x80 + a, 0x80 + b], (first * 64 + a) * 64 + b)
  {
    var bytes := [0xE0 + first, 0x80 + a, 0x80 + b];
    assert bytes[1..] == [0x80 + a, 0x80 + b];
    BitsOfTwo(0x80 + a, 0x80 + b, first);
  }

  lemma ReadsBackFour(first: nat, a: nat, b: nat, c: nat)
    requires first < 8 && a < 64 && b < 64 && c < 64
    requires 0x10000 <= ((first * 64 + a) * 64 + b) * 64 + c < 0x110000
    ensures ReadsBack([0xF0 + first, 0x80 + a, 0x80 + b, 0x80 + c], ((first * 64 + a) * 64 + b) * 64 + c)
  {
    var bytes := [0xF0 + first, 0x80 + a, 0x80 + b, 0x80 + c];
    assert bytes[1..] == [0x80 + a, 0x80 + b, 0x80 + c];
    BitsOfThree(0x80 + a, 0x80 + b, 0x80 + c, first);
  }

  lemma BitsOfOne(a: nat, bits: nat)
    ensures Bits([a], bits) == bits * 64 + a % 64
  {
  }

  lemma BitsOfTwo(a: nat, b: nat, bits: nat)
    ensures Bits([a, b], bits) == (bits * 64 + a % 64) * 64 + b % 64
  {
    BitsOfOne(b, bits * 64 + a % 64);
    assert [a, b][1..] == [b];
  }

  lemma BitsOfThree(a: nat, b: nat, c: nat, bits: nat)
    ensures Bits([a, b, c], bits) == ((bits * 64 + a % 64) * 64 + b % 64) * 64 + c % 64
  {
    BitsOfTwo(b, c, bits * 64 + a % 64);
    assert [a, b, c][1..] == [b, c];
  }

  lemma DropTwice(s: string, i: nat, j: nat)
    requires i + j <= |s|
    ensures s[i..][j..] == s[i + j..]
  {
  }

  lemma HeadRoundTrip(s: string, first: nat, more: nat, bits: nat)
    requires ByteAt(s) == Some(first) && Follow(first) == Some(more)
    requires Continue(s[3..], more, FirstBits(first, more)) == Some(bits) && Scalar(bits, more)
    ensures bits < 0xD800 || 0xE000 <= bits < 0x110000
    ensures DecodeChar(s) == Some((bits as char, more + 1))
  {
    hide ByteAt, Follow, FirstBits, Continue;
  }

  lemma {:induction false} BytesRoundTrip(first: nat, more: seq<nat>, v: nat, rest: string)
    requires first < 256 && Follow(first) == Some(|more|) && Continuations(more)
    requires Bits(more, FirstBits(first, |more|)) == v && Scalar(v, |more|)
    ensures v < 0xD800 || 0xE000 <= v < 0x110000
    ensures var s := EncodeByte(first) + (EncodeBytes(more) + rest);
            s[0] == '%' && DecodeChar(s) == Some((v as char, |more| + 1)) && s[3 * (|more| + 1)..] == rest
  {
    hide Bits, Follow, FirstBits, ByteAt, EncodeByte, Continue, Scalar, DecodeChar;
    var tail := EncodeBytes(more) + rest;
    var s := EncodeByte(first) + tail;
    ByteRoundTrip(first, tail);
    ContinueReadsBits(more, rest, FirstBits(first, |more|));
    HeadRoundTrip(s, first, |more|, v);
    DropTwice(s, 3, 3 * |more|);
  }

  lemma CharRoundTrip(c: char, rest: string)
    requires !Unreserved(c)
    ensures var s, n := EncodeChar(c) + rest, |Utf8(c as nat)|;
            n > 0 && s[0] == '%' && DecodeChar(s) == Some((c, n)) && s[3 * n..] == rest
  {
    var bytes := Utf8(c as nat);
    Utf8RoundTrip(c as nat);
    hide Utf8, DecodeChar, Unreserved, EncodeByte, EncodeBytes, Bits, Follow, FirstBits, Scalar, Continuations;
    FirstByteFirst(bytes, rest);
    BytesRoundTrip(bytes[0], bytes[1..], c as nat, rest);
  }

  /** Every text survives encoding and decoding. */
  lemma {:induction false} RoundTrip(s: string)
    ensures Decode(Encode(s)) == Some(s)
  {
    if |s| > 0 {
      RoundTrip(s[1..]);
      var rest := Encode(s[1..]);
      var text := EncodeChar(s[0]) + rest;
      if Unreserved(s[0]) {
        assert text[1..] == rest;
      } else {
        CharRoundTrip(s[0], rest);
      }
      assert s == [s[0]] + s[1..];
    }
  }

  lemma {:induction false} EncodedBytesAreSafe(bytes: seq<nat>)
    requires forall i :: 0 <= i < |bytes| ==> bytes[i] < 256
    ensures forall c :: c in EncodeBytes(bytes) ==> Unreserved(c) || c == '%'
  {
    if |bytes| > 0 {
      EncodedBytesAreSafe(bytes[1..]);
    }
  }

  /** Encoded text holds nothing but unreserved characters and escapes. */
  lemma {:induction false} EncodedIsSafe(s: string)
    ensures forall c :: c in Encode(s) ==> Unreserved(c) || c == '%'
  {
    if |s| > 0 {
      EncodedIsSafe(s[1..]);
      if !Unreserved(s[0]) {
        EncodedBytesAreSafe(Utf8(s[0] as nat));
      }
    }
  }
}
