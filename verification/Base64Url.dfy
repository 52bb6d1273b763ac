/** base64url without padding (RFC 4648, section 5), as Go's base64.RawURLEncoding. */
module Base64Url {
  import opened Text

  function Symbol(n: int): (c: char)
    requires 0 <= n < 64
    ensures c != '.' && c != '\r' && c != '\n' && c as int < 128
  {
    if n < 26 then ('A' as int + n) as char
    else if n < 52 then ('a' as int + n - 26) as char
    else if n < 62 then ('0' as int + n - 52) as char
    else if n == 62 then '-' else '_'
  }

  function SymbolValue(c: char): (n: int)
    ensures -1 <= n < 64
    ensures n >= 0 ==> Symbol(n) == c
  {
    if 'A' <= c <= 'Z' then c as int - 'A' as int
    else if 'a' <= c <= 'z' then c as int - 'a' as int + 26
    else if '0' <= c <= '9' then c as int - '0' as int + 52
    else if c == '-' then 62
    else if c == '_' then 63
    else -1
  }

  lemma SymbolValueOf(n: int)
    requires 0 <= n < 64
    ensures SymbolValue(Symbol(n)) == n
  {
  }

  function Group(a: byte, b: byte, c: byte): (s: string)
    ensures |s| == 4
  {
    [Symbol(a / 4), Symbol(a % 4 * 16 + b / 16), Symbol(b % 16 * 4 + c / 64), Symbol(c % 64)]
  }

  function Encode(b: seq<byte>): (s: string) {
    if |b| == 0 then ""
    else if |b| == 1 then Group(b[0], 0, 0)[..2]
    else if |b| == 2 then Group(b[0], b[1], 0)[..3]
    else Group(b[0], b[1], b[2]) + Encode(b[3..])
  }

  /** One group of two to four symbols: its bytes, if every symbol is in the alphabet. Bits left over in
      a short last group are ignored, as Go's non-strict decoder does. */
  function Ungroup(s: string): (r: Option<seq<byte>>)
    requires 2 <= |s| <= 4
    ensures r.Some? ==> |r.value| == |s| - 1
  {
    var w, x := SymbolValue(s[0]), SymbolValue(s[1]);
    var y := if |s| > 2 then SymbolValue(s[2]) else 0;
    var z := if |s| > 3 then SymbolValue(s[3]) else 0;
    if w < 0 || x < 0 || y < 0 || z < 0 then None
    else Some([w * 4 + x / 16, x % 16 * 16 + y / 4, y % 4 * 64 + z][..|s| - 1])
  }

  function DecodeGroups(s: string): (r: Option<seq<byte>>)
    decreases |s|
  {
    if |s| == 0 then Some([])
    else if |s| == 1 then None
    else if |s| <= 4 then Ungroup(s)
    else
      var g, rest := Ungroup(s[..4]), DecodeGroups(s[4..]);
      if g.None? || rest.None? then None else Some(g.value + rest.value)
  }

  function DropLineBreaks(s: string): (t: string) {
    if s == "" then ""
    else if s[0] == '\r' || s[0] == '\n' then DropLineBreaks(s[1..])
    else [s[0]] + DropLineBreaks(s[1..])
  }

  /** Go's DecodeString skips carriage returns and line feeds. */
  function Decode(s: string): (r: Option<seq<byte>>) {
    DecodeGroups(DropLineBreaks(s))
  }

  // ----- the encoding itself

  /** The alphabet of RFC 4648, table 2. */
  const ALPHABET := "ABCDEFGHIJKLMNOPQRSTUVWXYZ" + "abcdefghijklmnopqrstuvwxyz" + "0123456789-_"

  lemma Alphabet(n: int)
    requires 0 <= n < 64
    ensures |ALPHABET| == 64 && Symbol(n) == ALPHABET[n]
  {
    if n < 26 {
      assert "ABCDEFGHIJKLMNOPQRSTUVWXYZ"[n] == Symbol(n);
    } else if n < 52 {
      assert "abcdefghijklmnopqrstuvwxyz"[n - 26] == Symbol(n);
    } else {
      assert "0123456789-_"[n - 52] == Symbol(n);
    }
  }

  /** A byte, or zero past the end. */
  function ByteAt(b: seq<byte>, i: nat): int {
    if i < |b| then b[i] else 0
  }

  /** The i-th group of six bits, the first bit of each byte first. */
  function Sextet(b: seq<byte>, i: nat): (n: int)
    ensures 0 <= n < 64
  {
    var k := i / 4 * 3;
    match i % 4
    case 0 => ByteAt(b, k) / 4
    case 1 => ByteAt(b, k) % 4 * 16 + ByteAt(b, k + 1) / 16
    case 2 => ByteAt(b, k + 1) % 16 * 4 + ByteAt(b, k + 2) / 64
    case _ => ByteAt(b, k + 2) % 64
  }

  lemma GroupAt(b: seq<byte>, g: string, i: nat)
    requires 0 < |b| && i < 4 && g == Group(b[0], ByteAt(b, 1), ByteAt(b, 2))
    ensures g[i] == Symbol(Sextet(b, i))
  {
  }

  lemma {:induction false} EncodeSize(b: seq<byte>)
    ensures |Encode(b)| == (8 * |b| + 5) / 6
  {
    if |b| >= 3 {
      EncodeSize(b[3..]);
    }
  }

  /** The i-th symbol stands for the i-th six bits, and there are as many symbols as the bits fill. */
  lemma {:induction false} EncodeAt(b: seq<byte>, i: nat)
    requires i < |Encode(b)|
    ensures |Encode(b)| == (8 * |b| + 5) / 6 && Encode(b)[i] == ALPHABET[Sextet(b, i)]
  {
    EncodeSize(b);
    Alphabet(Sextet(b, i));
    if i < 4 {
      GroupAt(b, Group(b[0], ByteAt(b, 1), ByteAt(b, 2)), i);
    } else {
      EncodeAt(b[3..], i - 4);
      SextetLater(b, i);
    }
  }

  lemma SextetLater(b: seq<byte>, i: nat)
    requires |b| >= 3 && i >= 4
    ensures Sextet(b, i) == Sextet(b[3..], i - 4)
  {
    var k := i / 4 * 3;
    assert (i - 4) / 4 * 3 == k - 3 && (i - 4) % 4 == i % 4;
    assert ByteAt(b, k) == ByteAt(b[3..], k - 3) && ByteAt(b, k + 1) == ByteAt(b[3..], k - 2);
    assert ByteAt(b, k + 2) == ByteAt(b[3..], k - 1);
  }

  // ----- round trip

  lemma UngroupGroup(a: byte, b: byte, c: byte)
    ensures Ungroup(Group(a, b, c)) == Some([a, b, c])
    ensures Ungroup(Group(a, b, 0)[..3]) == Some([a, b])
    ensures Ungroup(Group(a, 0, 0)[..2]) == Some([a])
  {
    Ungroup3(a, b, c);
    assert [a, b, c][..3] == [a, b, c];
    assert Ungroup(Group(a, b, c)).value == [a, b, c][..3];
    var t := Group(a, b, 0)[..3];
    Ungroup3(a, b, 0);
    assert [a, b, 0][..2] == [a, b];
    assert Ungroup(t).value == [a, b, 0][..2];
    var u := Group(a, 0, 0)[..2];
    Ungroup3(a, 0, 0);
    assert [a, 0, 0][..1] == [a];
    assert Ungroup(u).value == [a, 0, 0][..1];
  }

  lemma Ungroup3(a: byte, b: byte, c: byte)
    ensures var g := Group(a, b, c);
            var w, x, y, z := SymbolValue(g[0]), SymbolValue(g[1]), SymbolValue(g[2]), SymbolValue(g[3]);
            w >= 0 && x >= 0 && y >= 0 && z >= 0
            && w * 4 + x / 16 == a as int && x % 16 * 16 + y / 4 == b as int && y % 4 * 64 + z == c as int
            && (c == 0 ==> z == 0) && (b == 0 && c == 0 ==> y == 0)
  {
    SymbolValueOf(a / 4);
    SymbolValueOf(a % 4 * 16 + b / 16);
    SymbolValueOf(b % 16 * 4 + c / 64);
    SymbolValueOf(c % 64);
  }

  /** Bytes of every length survive. */
  lemma {:induction false} DecodeGroupsEncode(b: seq<byte>)
    ensures DecodeGroups(Encode(b)) == Some(b)
  {
    if |b| == 1 {
      UngroupGroup(b[0], 0, 0);
      assert b == [b[0]];
    } else if |b| == 2 {
      UngroupGroup(b[0], b[1], 0);
      assert b == [b[0], b[1]];
    } else if |b| >= 3 {
      DecodeGroupsEncode(b[3..]);
      DecodeOneMore(b, Encode(b[3..]));
    }
  }

  lemma DecodeAppend(g: string, rest: string, v: seq<byte>, w: seq<byte>)
    requires |g| == 4 && Ungroup(g) == Some(v) && DecodeGroups(rest) == Some(w)
    ensures DecodeGroups(g + rest) == Some(v + w)
  {
    if rest == "" {
      assert g + rest == g && v + w == v;
    } else {
      assert (g + rest)[..4] == g && (g + rest)[4..] == rest;
    }
  }

  lemma HeadTail(b: seq<byte>)
    requires |b| >= 3
    ensures [b[0], b[1], b[2]] + b[3..] == b
  {
  }

  lemma DecodeOneMore(b: seq<byte>, tail: string)
    requires |b| >= 3 && DecodeGroups(tail) == Some(b[3..])
    ensures DecodeGroups(Group(b[0], b[1], b[2]) + tail) == Some(b)
  {
    UngroupGroup(b[0], b[1], b[2]);
    DecodeAppend(Group(b[0], b[1], b[2]), tail, [b[0], b[1], b[2]], b[3..]);
    HeadTail(b);
  }

  /** The alphabet holds neither the dot that separates the parts of a token nor a line break. */
  lemma {:induction false} EncodeAlphabet(b: seq<byte>)
    ensures '.' !in Encode(b) && DropLineBreaks(Encode(b)) == Encode(b)
  {
    if |b| >= 3 {
      var g := Group(b[0], b[1], b[2]);
      EncodeAlphabet(b[3..]);
      KeepsPlain(g, Encode(b[3..]));
    } else {
      KeepsPlain(Encode(b), "");
      assert Encode(b) + "" == Encode(b);
    }
  }

  lemma {:induction false} KeepsPlain(g: string, rest: string)
    requires forall i | 0 <= i < |g| :: g[i] != '\r' && g[i] != '\n'
    ensures DropLineBreaks(g + rest) == g + DropLineBreaks(rest)
  {
    if g == "" {
      assert g + rest == rest;
    } else {
      KeepsPlain(g[1..], rest);
      assert (g + rest)[1..] == g[1..] + rest;
    }
  }

  lemma DecodeEncode(b: seq<byte>)
    ensures Decode(Encode(b)) == Some(b)
  {
    EncodeAlphabet(b);
    DecodeGroupsEncode(b);
  }
}
