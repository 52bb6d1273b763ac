/** JSON number literals (RFC 8259, section 6): which texts they are, their exact values, and the texts Go
    gives to integers. */
module JsonNumber {
  import opened Text

  function DigitRun(s: string): (k: nat)
    ensures k <= |s|
    ensures forall i | 0 <= i < k :: IsDigit(s[i])
    ensures k < |s| ==> !IsDigit(s[k])
  {
    if s != "" && IsDigit(s[0]) then 1 + DigitRun(s[1..]) else 0
  }

  predicate Digits(s: string) {
    s != "" && DigitRun(s) == |s|
  }

  predicate IsNumberChar(c: char) {
    IsDigit(c) || c == '+' || c == '-' || c == '.' || c == 'e' || c == 'E'
  }

  /** As far as a literal can reach. */
  function NumberRun(s: string): (k: nat)
    ensures k <= |s|
    ensures forall i | 0 <= i < k :: IsNumberChar(s[i])
    ensures k < |s| ==> !IsNumberChar(s[k])
  {
    if s != "" && IsNumberChar(s[0]) then 1 + NumberRun(s[1..]) else 0
  }

  function Unsigned(s: string): string {
    if s != "" && s[0] == '-' then s[1..] else s
  }

  /** The digits of an exponent part, after its letter and sign. */
  function ExponentDigits(u: string): string
    requires u != ""
  {
    if |u| > 1 && (u[1] == '+' || u[1] == '-') then u[2..] else u[1..]
  }

  predicate ValidExponent(u: string) {
    u == "" || ((u[0] == 'e' || u[0] == 'E') && Digits(ExponentDigits(u)))
  }

  /** How many fraction digits follow the integer part. */
  function FractionRun(u: string): (k: nat)
    ensures k > 0 ==> k + 1 <= |u| && u[0] == '.'
  {
    if u != "" && u[0] == '.' then DigitRun(u[1..]) else 0
  }

  /** What follows the integer part and its fraction. */
  function AfterFraction(u: string): string {
    if FractionRun(u) > 0 then u[FractionRun(u) + 1..] else u
  }

  predicate ValidNumber(s: string) {
    var t := Unsigned(s);
    var k := DigitRun(t);
    k >= 1 && (t[0] == '0' ==> k == 1) && ValidExponent(AfterFraction(t[k..]))
  }

  type NumText = s: string | ValidNumber(s) witness "0"

  /** x times the e-th power of ten. */
  function Shift(x: real, e: int): real
    decreases if e < 0 then -e else e
  {
    if e == 0 then x else if e > 0 then 10.0 * Shift(x, e - 1) else Shift(x, e + 1) / 10.0
  }

  function ExponentValue(u: string): int {
    if u == "" then 0
    else if |u| > 1 && u[1] == '-' then 0 - DecimalValue(ExponentDigits(u))
    else DecimalValue(ExponentDigits(u))
  }

  /** The digits before and after the point. */
  function AllOfDigits(s: NumText): string {
    var t := Unsigned(s);
    var k := DigitRun(t);
    var f := FractionRun(t[k..]);
    t[..k] + if f > 0 then t[k..][1..f + 1] else ""
  }

  /** The power of ten of the last of them. */
  function LastPower(s: NumText): int {
    var t := Unsigned(s);
    var u := t[DigitRun(t)..];
    ExponentValue(AfterFraction(u)) - FractionRun(u)
  }

  /** The exact value of a literal. */
  function NumberValue(s: NumText): real {
    var magnitude := Shift(DecimalValue(AllOfDigits(s)) as real, LastPower(s));
    if s[0] == '-' then 0.0 - magnitude else magnitude
  }

  /** The value of a literal read into a Go integer: fractions and exponents are refused. */
  function IntValue(s: NumText): Option<int> {
    var t := Unsigned(s);
    if DigitRun(t) < |t| then None
    else Some(if s[0] == '-' then 0 - DecimalValue(t) else DecimalValue(t))
  }

  // ----- integers

  lemma {:induction false} DigitRunOf(d: string, rest: string)
    requires forall i | 0 <= i < |d| :: IsDigit(d[i])
    requires rest == "" || !IsDigit(rest[0])
    ensures DigitRun(d + rest) == |d|
  {
    assert forall i | 0 <= i < |d| :: (d + rest)[i] == d[i];
    assert rest != "" ==> (d + rest)[|d|] == rest[0];
  }

  lemma DecimalRun(n: nat)
    ensures DigitRun(Decimal(n)) == |Decimal(n)| && Unsigned(Decimal(n)) == Decimal(n)
  {
    assert Decimal(n) + "" == Decimal(n);
    DigitRunOf(Decimal(n), "");
    assert IsDigit(Decimal(n)[0]);
  }

  /** Go's text of an integer. */
  function IntText(n: int): (s: NumText) {
    DecimalRun(if n < 0 then -n else n);
    if n < 0 then
      assert Unsigned("-" + Decimal(-n)) == Decimal(-n);
      "-" + Decimal(-n)
    else Decimal(n)
  }

  lemma IntTextParts(n: int)
    ensures var t := Unsigned(IntText(n));
            t == Decimal(if n < 0 then -n else n) && DigitRun(t) == |t| && (IntText(n)[0] == '-' <==> n < 0)
  {
    var m := if n < 0 then -n else n;
    DecimalRun(m);
    assert IsDigit(Decimal(m)[0]);
    if n < 0 {
      assert Unsigned("-" + Decimal(-n)) == Decimal(-n);
    }
  }

  lemma IntTextValue(n: int)
    ensures NumberValue(IntText(n)) == n as real && IntValue(IntText(n)) == Some(n)
  {
    IntTextParts(n);
    var m := if n < 0 then -n else n;
    var t := Unsigned(IntText(n));
    DecimalRoundTrip(m);
    assert t[|t|..] == "" && t[..|t|] == t && t + "" == t;
  }

  // ----- the grammar

  predicate AllDigits(s: string) {
    forall i | 0 <= i < |s| :: IsDigit(s[i])
  }

  /** minus, int, frac and exp of the grammar; frac is without its point, and mark is the letter and the sign of
      the exponent. */
  predicate Parts(minus: string, whole: string, point: string, frac: string, mark: string, exp: string) {
    && minus in {"", "-"} && point in {"", "."} && mark in {"", "e", "E", "e+", "E+", "e-", "E-"}
    && whole != "" && AllDigits(whole) && (whole[0] == '0' ==> whole == "0")
    && AllDigits(frac) && (point == "" <==> frac == "")
    && AllDigits(exp) && (mark == "" <==> exp == "")
  }

  lemma MarkForms(mark: string, exp: string)
    requires mark in {"", "e", "E", "e+", "E+", "e-", "E-"} && AllDigits(exp) && (mark == "" <==> exp == "")
    ensures var u := mark + exp;
            ValidExponent(u) && (u != "" ==> u[0] == 'e' || u[0] == 'E')
            && ExponentValue(u) == if |mark| == 2 && mark[1] == '-' then 0 - DecimalValue(exp) else DecimalValue(exp)
  {
    var u := mark + exp;
    if mark != "" {
      assert u[0] == mark[0] && u[|mark|..] == exp && exp + "" == exp;
      DigitRunOf(exp, "");
      assert |mark| == 1 ==> u[1] == exp[0];
      assert |mark| == 2 ==> u[1] == mark[1];
    }
  }

  lemma FractionForms(point: string, frac: string, rest: string)
    requires point in {"", "."} && AllDigits(frac) && (point == "" <==> frac == "")
    requires rest != "" ==> rest[0] == 'e' || rest[0] == 'E'
    ensures var u := point + frac + rest;
            FractionRun(u) == |frac| && AfterFraction(u) == rest && (frac != "" ==> u[1..|frac| + 1] == frac)
            && (u != "" ==> !IsDigit(u[0]))
  {
    var u := point + frac + rest;
    if frac != "" {
      assert u[1..] == frac + rest;
      DigitRunOf(frac, rest);
    } else {
      assert u == rest;
    }
  }

  lemma WholeForms(minus: string, whole: string, u: string)
    requires minus in {"", "-"} && whole != "" && AllDigits(whole) && (u != "" ==> !IsDigit(u[0]))
    ensures var s, t := minus + (whole + u), whole + u;
            s != "" && Unsigned(s) == t && (s[0] == '-' <==> minus == "-")
            && DigitRun(t) == |whole| && t[..|whole|] == whole && t[|whole|..] == u
  {
    var t := whole + u;
    DigitRunOf(whole, u);
    assert t[0] == whole[0];
    assert minus == "" ==> minus + t == t;
    assert minus == "-" ==> (minus + t)[0] == '-' && (minus + t)[1..] == t;
  }

  /** What the reader finds in a literal put together from such parts. */
  predicate Reads(s: string, whole: string, frac: string, rest: string, negative: bool) {
    s != "" && (s[0] == '-' <==> negative)
    && var t := Unsigned(s);
       DigitRun(t) == |whole| && t[..|whole|] == whole
       && var u := t[|whole|..];
          FractionRun(u) == |frac| && AfterFraction(u) == rest && (frac != "" ==> u[1..|frac| + 1] == frac)
  }

  lemma PartsRead(minus: string, whole: string, point: string, frac: string, mark: string, exp: string)
    requires Parts(minus, whole, point, frac, mark, exp)
    ensures Reads(minus + (whole + (point + frac + (mark + exp))), whole, frac, mark + exp, minus == "-")
  {
    MarkForms(mark, exp);
    FractionForms(point, frac, mark + exp);
    WholeForms(minus, whole, point + frac + (mark + exp));
  }

  /** Whatever is put together from such parts is a number. */
  lemma PartsAreNumber(minus: string, whole: string, point: string, frac: string, mark: string, exp: string)
    requires Parts(minus, whole, point, frac, mark, exp)
    ensures ValidNumber(minus + (whole + (point + frac + (mark + exp))))
  {
    PartsRead(minus, whole, point, frac, mark, exp);
    MarkForms(mark, exp);
    var t := Unsigned(minus + (whole + (point + frac + (mark + exp))));
    assert t[0] == t[..|whole|][0];
  }

  /** Its digits are those before and after the point, and its power of ten is the exponent less the digits after
      the point. */
  lemma PartsSpell(s: NumText, minus: string, whole: string, point: string, frac: string, mark: string, exp: string)
    requires Parts(minus, whole, point, frac, mark, exp) && s == minus + (whole + (point + frac + (mark + exp)))
    ensures AllOfDigits(s) == whole + frac && (s[0] == '-' <==> minus == "-")
    ensures LastPower(s)
            == (if mark == "e-" || mark == "E-" then 0 - DecimalValue(exp) else DecimalValue(exp)) - |frac|
  {
    PartsRead(minus, whole, point, frac, mark, exp);
    MarkForms(mark, exp);
    ValueRead(s, whole, frac, mark + exp, minus == "-");
  }

  /** Its value is those digits' value shifted by that power. */
  lemma ValueSpelled(s: NumText, digits: string, e: int, negative: bool)
    requires AllOfDigits(s) == digits && LastPower(s) == e && (s[0] == '-' <==> negative)
    ensures NumberValue(s) == if negative then 0.0 - Shift(DecimalValue(digits) as real, e)
                              else Shift(DecimalValue(digits) as real, e)
  {
  }

  lemma ValueRead(s: NumText, whole: string, frac: string, rest: string, negative: bool)
    requires Reads(s, whole, frac, rest, negative)
    ensures AllOfDigits(s) == whole + frac && LastPower(s) == ExponentValue(rest) - |frac|
    ensures s[0] == '-' <==> negative
  {
    assert frac == "" ==> whole + "" == whole + frac;
  }

  /** Every number is put together so. */
  lemma NumberHasParts(s: NumText)
      returns (minus: string, whole: string, point: string, frac: string, mark: string, exp: string)
    ensures Parts(minus, whole, point, frac, mark, exp) && s == minus + (whole + (point + frac + (mark + exp)))
  {
    var t := Unsigned(s);
    var u := t[DigitRun(t)..];
    minus, whole := if s == t then "" else "-", t[..DigitRun(t)];
    point, frac := FractionParts(u);
    mark, exp := ExponentParts(AfterFraction(u));
    SplitSign(s, whole, u);
    assert Parts(minus, whole, point, frac, mark, exp);
  }

  lemma SplitSign(s: NumText, whole: string, u: string)
    requires var t := Unsigned(s); whole == t[..DigitRun(t)] && u == t[DigitRun(t)..]
    ensures s == (if s == Unsigned(s) then "" else "-") + (whole + u)
    ensures whole != "" && AllDigits(whole) && (whole[0] == '0' ==> whole == "0")
  {
    var t := Unsigned(s);
    assert t == whole + u && whole[0] == t[0];
    assert s == t || s == "-" + t;
    assert "" + t == t;
  }

  lemma FractionParts(u: string) returns (point: string, frac: string)
    ensures point in {"", "."} && AllDigits(frac) && (point == "" <==> frac == "")
    ensures u == point + frac + AfterFraction(u)
  {
    var f := FractionRun(u);
    if f > 0 {
      point, frac := ".", u[1..f + 1];
      assert forall i | 0 <= i < f :: frac[i] == u[1..][i];
      assert u == [u[0]] + u[1..f + 1] + u[f + 1..];
    } else {
      point, frac := "", "";
      assert "" + "" + u == u;
    }
  }

  lemma ExponentParts(u: string) returns (mark: string, exp: string)
    requires ValidExponent(u)
    ensures u == mark + exp && mark in {"", "e", "E", "e+", "E+", "e-", "E-"} && AllDigits(exp)
    ensures mark == "" <==> exp == ""
  {
    exp := if u == "" then "" else ExponentDigits(u);
    mark := u[..|u| - |exp|];
    assert u == mark + exp;
    if u != "" {
      assert mark == [u[0]] || mark == [u[0], u[1]];
    }
  }

  /** A shift by one is a factor of ten, in either direction. */
  lemma ShiftByOne(x: real, e: int)
    ensures Shift(x, 0) == x && Shift(x, e + 1) == 10.0 * Shift(x, e)
  {
  }

  // ----- reading a literal from a longer text

  lemma ValidChars(s: NumText)
    ensures s != "" && (IsDigit(s[0]) || s[0] == '-') && forall i | 0 <= i < |s| :: IsNumberChar(s[i])
  {
    var t := Unsigned(s);
    var k := DigitRun(t);
    assert s == t || s == "-" + t;
    FractionChars(t[k..]);
    assert t == t[..k] + t[k..];
    assert IsDigit(t[0]);
  }

  lemma FractionChars(u: string)
    requires ValidExponent(AfterFraction(u))
    ensures forall i | 0 <= i < |u| :: IsNumberChar(u[i])
  {
    var f := FractionRun(u);
    ExponentChars(AfterFraction(u));
    if f > 0 {
      assert u == [u[0]] + u[1..][..f] + u[f + 1..];
    }
  }

  lemma ExponentChars(u: string)
    requires ValidExponent(u)
    ensures forall i | 0 <= i < |u| :: IsNumberChar(u[i])
  {
    if u != "" {
      var d := ExponentDigits(u);
      assert u == [u[0]] + d || u == [u[0], u[1]] + d;
    }
  }

  lemma NumberRunOf(s: NumText, rest: string)
    requires rest == "" || !IsNumberChar(rest[0])
    ensures NumberRun(s + rest) == |s|
  {
    ValidChars(s);
    assert forall i | 0 <= i < |s| :: (s + rest)[i] == s[i];
    assert rest != "" ==> (s + rest)[|s|] == rest[0];
  }
}
