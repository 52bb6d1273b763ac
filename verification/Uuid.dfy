/** Version 4 UUIDs built from random bytes (agent.go, server/server.go; RFC 9562, section 5.4). */
module Uuid {
  import opened Text

  /** Bytes 6 and 8 carry the version and variant bits: (b & 0x0f) | 0x40 and (b & 0x3f) | 0x80. */
  function Stamped(b: seq<byte>): (c: seq<byte>)
    requires |b| == 16
    ensures |c| == 16
  {
    b[6 := b[6] % 16 + 0x40][8 := b[8] % 64 + 0x80]
  }

  function HexText(b: seq<byte>): (s: string)
    ensures |s| == 2 * |b|
  {
    if b == [] then "" else Hex2(b[0]) + HexText(b[1..])
  }

  /** %08x-%04x-%04x-%04x-%012x over the byte groups. */
  function UuidText(b: seq<byte>): (s: string)
    requires |b| == 16
    ensures |s| == 36
  {
    HexText(b[0..4]) + "-" + HexText(b[4..6]) + "-" + HexText(b[6..8]) + "-" + HexText(b[8..10]) + "-"
    + HexText(b[10..16])
  }

  function HexBytes(s: string): (r: Option<seq<byte>>)
    requires |s| % 2 == 0
    ensures r.Some? ==> 2 * |r.value| == |s|
  {
    if s == "" then Some([])
    else
      var rest := HexBytes(s[2..]);
      if HexValue(s[0]) < 0 || HexValue(s[1]) < 0 || rest.None? then None
      else Some([HexValue(s[0]) * 16 + HexValue(s[1])] + rest.value)
  }

  /** Reads the hyphenated form, in either letter case. */
  function ParseUuid(s: string): (r: Option<seq<byte>>)
    ensures r.Some? ==> |r.value| == 16
  {
    if |s| != 36 || s[8] != '-' || s[13] != '-' || s[18] != '-' || s[23] != '-' then None
    else HexBytes(s[0..8] + s[9..13] + s[14..18] + s[19..23] + s[24..36])
  }

  /** Where the digits of each byte stand, between the hyphens. */
  function Place(i: nat): nat {
    2 * i + if i < 4 then 0 else if i < 6 then 1 else if i < 8 then 2 else if i < 10 then 3 else 4
  }

  /** The generator, editing its byte array in place: two digits for each byte, high before low, the seventh byte
      keeping its low four bits under 0100 and the ninth its low six bits under 10. */
  method NewUuid(random: seq<byte>) returns (s: string)
    requires |random| == 16
    ensures s == UuidText(Stamped(random))
    ensures |s| == 36 && s[8] == '-' && s[13] == '-' && s[18] == '-' && s[23] == '-'
    ensures forall i | 0 <= i < 16 ::
              var n := if i == 6 then 0x40 + random[i] % 0x10 else
                       if i == 8 then 0x80 + random[i] % 0x40 else random[i];
              s[Place(i)] == "0123456789abcdef"[n / 16] && s[Place(i) + 1] == "0123456789abcdef"[n % 16]
  {
    var b := new byte[16](i requires 0 <= i < 16 => random[i]);
    b[6] := b[6] % 16 + 0x40;
    b[8] := b[8] % 64 + 0x80;
    assert b[..] == Stamped(random);
    s := UuidText(b[..]);
    StampedDigits(random);
    Groups(Stamped(random));
  }

  lemma {:induction false} HexTextAt(b: seq<byte>, i: nat)
    requires i < |b|
    ensures HexText(b)[2 * i] == "0123456789abcdef"[b[i] / 16]
    ensures HexText(b)[2 * i + 1] == "0123456789abcdef"[b[i] % 16]
  {
    if i == 0 {
      HexDigits(b[0] / 16);
      HexDigits(b[0] % 16);
    } else {
      HexTextAt(b[1..], i - 1);
      assert HexText(b)[2..] == HexText(b[1..]);
    }
  }

  lemma GroupDigits(s: string, from: nat, group: seq<byte>, i: nat)
    requires from + 2 * |group| <= |s| && s[from..from + 2 * |group|] == HexText(group) && i < |group|
    ensures s[from + 2 * i] == "0123456789abcdef"[group[i] / 16]
    ensures s[from + 2 * i + 1] == "0123456789abcdef"[group[i] % 16]
  {
    HexTextAt(group, i);
  }

  lemma DigitsAt(b: seq<byte>, i: nat)
    requires |b| == 16 && i < 16
    ensures UuidText(b)[Place(i)] == "0123456789abcdef"[b[i] / 16]
    ensures UuidText(b)[Place(i) + 1] == "0123456789abcdef"[b[i] % 16]
  {
    var s := UuidText(b);
    Groups(b);
    if i < 4 {
      GroupDigits(s, 0, b[0..4], i);
    } else if i < 6 {
      GroupDigits(s, 9, b[4..6], i - 4);
    } else if i < 8 {
      GroupDigits(s, 14, b[6..8], i - 6);
    } else if i < 10 {
      GroupDigits(s, 19, b[8..10], i - 8);
    } else {
      GroupDigits(s, 24, b[10..16], i - 10);
    }
  }

  lemma StampedDigits(random: seq<byte>)
    requires |random| == 16
    ensures var s := UuidText(Stamped(random));
            forall i | 0 <= i < 16 ::
              var n := if i == 6 then 0x40 + random[i] % 0x10 else
                       if i == 8 then 0x80 + random[i] % 0x40 else random[i];
              s[Place(i)] == "0123456789abcdef"[n / 16] && s[Place(i) + 1] == "0123456789abcdef"[n % 16]
  {
    forall i | 0 <= i < 16
      ensures var s, c := UuidText(Stamped(random)), Stamped(random)[i];
              s[Place(i)] == "0123456789abcdef"[c / 16] && s[Place(i) + 1] == "0123456789abcdef"[c % 16]
    {
      DigitsAt(Stamped(random), i);
    }
  }

  lemma {:induction false} HexBytesOf(b: seq<byte>)
    ensures HexBytes(HexText(b)) == Some(b)
  {
    if b != [] {
      HexDigitValue(b[0] / 16);
      HexDigitValue(b[0] % 16);
      assert HexText(b)[2..] == HexText(b[1..]);
      HexBytesOf(b[1..]);
      assert b == [b[0]] + b[1..];
    }
  }

  lemma {:induction false} HexTextAppend(a: seq<byte>, b: seq<byte>)
    ensures HexText(a + b) == HexText(a) + HexText(b)
  {
    if a == [] {
      assert a + b == b;
    } else {
      assert (a + b)[1..] == a[1..] + b;
      HexTextAppend(a[1..], b);
    }
  }

  lemma Groups(b: seq<byte>)
    requires |b| == 16
    ensures var s := UuidText(b);
            s[8] == '-' && s[13] == '-' && s[18] == '-' && s[23] == '-'
            && s[0..8] == HexText(b[0..4]) && s[9..13] == HexText(b[4..6]) && s[14..18] == HexText(b[6..8])
            && s[19..23] == HexText(b[8..10]) && s[24..36] == HexText(b[10..16])
  {
  }

  /** The text determines the bytes. */
  lemma ParseUuidText(b: seq<byte>)
    requires |b| == 16
    ensures ParseUuid(UuidText(b)) == Some(b)
  {
    Groups(b);
    HexTextAppend(b[0..4], b[4..6]);
    HexTextAppend(b[0..4] + b[4..6], b[6..8]);
    HexTextAppend(b[0..4] + b[4..6] + b[6..8], b[8..10]);
    HexTextAppend(b[0..4] + b[4..6] + b[6..8] + b[8..10], b[10..16]);
    assert b[0..4] + b[4..6] + b[6..8] + b[8..10] + b[10..16] == b;
    HexBytesOf(b);
  }

  /** Every generated text has the version digit 4 and a variant digit 8, 9, a or b. */
  lemma VersionAndVariant(random: seq<byte>)
    requires |random| == 16
    ensures var s := UuidText(Stamped(random));
            s[14] == '4' && s[19] in "89ab"
  {
    var b := Stamped(random);
    Groups(b);
    var s := UuidText(b);
    assert s[14] == s[14..18][0] && s[19] == s[19..23][0];
    assert b[6..8][0] == b[6] && b[8..10][0] == b[8];
    assert b[6] / 16 == 4 && 8 <= b[8] / 16 <= 11;
    assert s[14] == HexDigit(4) && s[19] == HexDigit(b[8] / 16);
    assert "89ab"[0] == '8' && "89ab"[1] == '9' && "89ab"[2] == 'a' && "89ab"[3] == 'b';
  }

  /** Two draws collide exactly when they agree on the 122 bits that are not stamped. */
  lemma CollideIff(r: seq<byte>, q: seq<byte>)
    requires |r| == 16 && |q| == 16
    ensures UuidText(Stamped(r)) == UuidText(Stamped(q)) <==>
            (forall i | 0 <= i < 16 && i != 6 && i != 8 :: r[i] == q[i])
            && r[6] % 16 == q[6] % 16 && r[8] % 64 == q[8] % 64
  {
    ParseUuidText(Stamped(r));
    ParseUuidText(Stamped(q));
    if UuidText(Stamped(r)) == UuidText(Stamped(q)) {
      assert Stamped(r) == Stamped(q);
      assert forall i | 0 <= i < 16 && i != 6 && i != 8 :: Stamped(r)[i] == r[i] && Stamped(q)[i] == q[i];
      assert Stamped(r)[6] == Stamped(q)[6] && Stamped(r)[8] == Stamped(q)[8];
    }
    if (forall i | 0 <= i < 16 && i != 6 && i != 8 :: r[i] == q[i])
       && r[6] % 16 == q[6] % 16 && r[8] % 64 == q[8] % 64 {
      assert Stamped(r) == Stamped(q);
    }
  }
}
