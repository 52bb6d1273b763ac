/** UTF-8 (RFC 3629), the byte form of every Go string the server stores, signs or escapes. */
module Utf8 {
  import opened Text

  function EncodeChar(c: char): (b: seq<byte>)
    ensures 1 <= |b| <= 4
  {
    var n := c as int;
    if n < 0x80 then [n]
    else if n < 0x800 then [0xC0 + n / 64, 0x80 + n % 64]
    else if n < 0x1_0000 then [0xE0 + n / 4096, 0x80 + (n / 64) % 64, 0x80 + n % 64]
    else [0xF0 + n / 262144, 0x80 + (n / 4096) % 64, 0x80 + (n / 64) % 64, 0x80 + n % 64]
  }

  function Encode(s: string): (b: seq<byte>)
    ensures |b| >= |s|
  {
    if s == "" then [] else EncodeChar(s[0]) + Encode(s[1..])
  }

  predicate IsContinuation(b: byte) {
    0x80 <= b < 0xC0
  }

  /** The payload bits left after the marker of a leading or continuation byte. */
  function Bits(b: byte, marker: int): (n: int)
    ensures n == b as int - marker
  {
    b as int - marker
  }

  predicate IsScalar(n: int) {
    0 <= n < 0xD800 || 0xE000 <= n < 0x11_0000
  }

  /** Reads one scalar value: the character and how many bytes it took. Overlong forms, surrogates and
      values above U+10FFFF are refused. */
  function DecodeChar(b: seq<byte>): (r: Option<(char, nat)>)
    ensures r.Some? ==> 1 <= r.value.1 <= |b|
  {
    if |b| >= 1 && b[0] < 0x80 then
      Some((b[0] as char, 1))
    else if |b| >= 2 && 0xC2 <= b[0] < 0xE0 && IsContinuation(b[1]) then
      Some(((Bits(b[0], 0xC0) * 64 + Bits(b[1], 0x80)) as char, 2))
    else if |b| >= 3 && 0xE0 <= b[0] < 0xF0 && IsContinuation(b[1]) && IsContinuation(b[2]) then
      var n := Bits(b[0], 0xE0) * 4096 + Bits(b[1], 0x80) * 64 + Bits(b[2], 0x80);
      if n >= 0x800 && IsScalar(n) then Some((n as char, 3)) else None
    else if |b| >= 4 && 0xF0 <= b[0] < 0xF5 && IsContinuation(b[1]) && IsContinuation(b[2]) && IsContinuation(b[3]) then
      var n := Bits(b[0], 0xF0) * 262144 + Bits(b[1], 0x80) * 4096 + Bits(b[2], 0x80) * 64 + Bits(b[3], 0x80);
      if n >= 0x1_0000 && IsScalar(n) then Some((n as char, 4)) else None
    else
      None
  }

  function Decode(b: seq<byte>): (r: Option<string>)
    decreases |b|
  {
    if b == [] then Some("")
    else
      match DecodeChar(b)
      case None => None
      case Some(p) =>
        match Decode(b[p.1..])
        case None => None
        case Some(rest) => Some([p.0] + rest)
  }

  /** The table of RFC 3629, section 3: how many bytes a scalar value takes, which bytes they can be, and the bits
      each of them carries. */
  lemma EncodedForm(c: char)
    ensures var n, e := c as int, EncodeChar(c);
            match |e|
            case 1 => n <= 0x7F && e == [n]
            case 2 => 0x80 <= n <= 0x7FF && 0xC2 <= e[0] <= 0xDF && 0x80 <= e[1] <= 0xBF
                      && n == (e[0] as int - 0xC0) * 0x40 + (e[1] as int - 0x80)
            case 3 => 0x800 <= n <= 0xFFFF && 0xE0 <= e[0] <= 0xEF && 0x80 <= e[1] <= 0xBF && 0x80 <= e[2] <= 0xBF
                      && n == (e[0] as int - 0xE0) * 0x1000 + (e[1] as int - 0x80) * 0x40 + (e[2] as int - 0x80)
            case _ => 0x1_0000 <= n <= 0x10_FFFF && 0xF0 <= e[0] <= 0xF4 && 0x80 <= e[1] <= 0xBF
                      && 0x80 <= e[2] <= 0xBF && 0x80 <= e[3] <= 0xBF
                      && n == (e[0] as int - 0xF0) * 0x4_0000 + (e[1] as int - 0x80) * 0x1000
                              + (e[2] as int - 0x80) * 0x40 + (e[3] as int - 0x80)
  {
    Undigits64(c as int);
  }

  /** Texts are encoded character by character. */
  lemma {:induction false} EncodeAppend(s: string, t: string)
    ensures Encode(s + t) == Encode(s) + Encode(t)
  {
    if s == "" {
      assert s + t == t;
    } else {
      assert (s + t)[1..] == s[1..] + t;
      EncodeAppend(s[1..], t);
    }
  }

  lemma EncodeOne(c: char)
    ensures Encode([c]) == EncodeChar(c)
  {
    assert [c][1..] == "";
  }

  /** Base-64 digits of a number below 2^24, most significant first. */
  lemma Digits64(w: int, x: int, y: int, z: int)
    requires 0 <= w < 64 && 0 <= x < 64 && 0 <= y < 64 && 0 <= z < 64
    ensures var n := w * 262144 + x * 4096 + y * 64 + z;
            n / 262144 == w && n / 4096 % 64 == x && n / 64 % 64 == y && n % 64 == z
  {
    var n := w * 262144 + x * 4096 + y * 64 + z;
    assert n / 64 == w * 4096 + x * 64 + y;
    assert n / 4096 == w * 64 + x;
  }

  lemma Undigits64(n: int)
    requires 0 <= n < 0x100_0000
    ensures n == n / 262144 * 262144 + n / 4096 % 64 * 4096 + n / 64 % 64 * 64 + n % 64
    ensures 0 <= n / 262144 < 64
  {
    assert n / 4096 == n / 262144 * 64 + n / 4096 % 64;
    assert n / 64 == n / 4096 * 64 + n / 64 % 64;
  }

  lemma DecodeShort(c: char, rest: seq<byte>)
    requires c as int < 0x800
    ensures DecodeChar(EncodeChar(c) + rest) == Some((c, |EncodeChar(c)|))
  {
    var n := c as int;
    Undigits64(n);
    var e := EncodeChar(c);
    var b := e + rest;
    assert b[0] == e[0];
    if 0x80 <= n {
      assert n / 4096 == 0;
      assert b[1] == e[1];
    }
  }

  lemma DecodeEncodedChar(c: char, rest: seq<byte>)
    ensures DecodeChar(EncodeChar(c) + rest) == Some((c, |EncodeChar(c)|))
  {
    var n := c as int;
    if n < 0x800 {
      DecodeShort(c, rest);
    } else {
      Undigits64(n);
      var e := EncodeChar(c);
      var b := e + rest;
      assert b[0] == e[0] && b[1] == e[1] && b[2] == e[2];
      if n < 0x1_0000 {
        assert n / 262144 == 0;
      } else {
        assert n / 262144 < 5;
        assert b[3] == e[3];
      }
    }
  }

  lemma DecodeNext(c: char, rest: seq<byte>, text: string)
    requires Decode(rest) == Some(text)
    ensures Decode(EncodeChar(c) + rest) == Some([c] + text)
  {
    DecodeEncodedChar(c, rest);
    assert (EncodeChar(c) + rest)[|EncodeChar(c)|..] == rest;
  }

  lemma {:induction false} DecodeEncode(s: string)
    ensures Decode(Encode(s)) == Some(s)
  {
    if s != "" {
      DecodeEncode(s[1..]);
      DecodeNext(s[0], Encode(s[1..]), s[1..]);
      assert s == [s[0]] + s[1..];
    }
  }

  lemma EncodeDecodedChar(b: seq<byte>)
    requires DecodeChar(b).Some?
    ensures EncodeChar(DecodeChar(b).value.0) == b[..DecodeChar(b).value.1]
  {
    var (c, k) := DecodeChar(b).value;
    if k == 1 {
      assert EncodeChar(c) == b[..1];
    } else if k == 2 {
      Digits64(0, 0, Bits(b[0], 0xC0), Bits(b[1], 0x80));
      assert EncodeChar(c) == b[..2];
    } else if k == 3 {
      Digits64(0, Bits(b[0], 0xE0), Bits(b[1], 0x80), Bits(b[2], 0x80));
      assert EncodeChar(c) == b[..3];
    } else {
      Digits64(Bits(b[0], 0xF0), Bits(b[1], 0x80), Bits(b[2], 0x80), Bits(b[3], 0x80));
      assert EncodeChar(c) == b[..4];
    }
  }

  /** Only the encoding of a text decodes to it: no two byte strings mean the same text. */
  lemma {:induction false} EncodeDecode(b: seq<byte>)
    requires Decode(b).Some?
    ensures Encode(Decode(b).value) == b
    decreases |b|
  {
    if b != [] {
      EncodeDecodedChar(b);
      EncodeDecode(b[DecodeChar(b).value.1..]);
      EncodeCons(b, DecodeChar(b).value, Decode(b[DecodeChar(b).value.1..]).value);
    }
  }

  lemma EncodeCons(b: seq<byte>, p: (char, nat), rest: string)
    requires p.1 <= |b| && EncodeChar(p.0) == b[..p.1] && Encode(rest) == b[p.1..]
    ensures Encode([p.0] + rest) == b
  {
    assert ([p.0] + rest)[1..] == rest;
    assert b == b[..p.1] + b[p.1..];
  }

  lemma EncodeInjective(s: string, t: string)
    requires Encode(s) == Encode(t)
    ensures s == t
  {
    DecodeEncode(s);
    DecodeEncode(t);
  }
}
