/** Device codes: fmt.Sprintf("%s-%03d", strings.ToUpper(type), n) (server/handlers_devices.go). */
module DeviceCode {
  import opened Text

  /** strings.ToUpper is any function from text to text. */
  type Upper = string -> string

  function Zeros(k: nat): (z: string)
    ensures |z| == k && forall i | 0 <= i < k :: z[i] == '0'
  {
    if k == 0 then "" else "0" + Zeros(k - 1)
  }

  /** %03d of a non-negative number: padded to three digits, never truncated. */
  function Padded(n: nat): (s: string)
    ensures forall i | 0 <= i < |s| :: IsDigit(s[i])
  {
    var d := Decimal(n);
    Zeros(if |d| < 3 then 3 - |d| else 0) + d
  }

  function Code(upper: Upper, deviceType: string, n: nat): string {
    upper(deviceType) + "-" + Padded(n)
  }

  lemma {:induction false} LeadingZeros(k: nat, d: string)
    ensures DecimalValue(Zeros(k) + d) == DecimalValue(d)
    decreases k + |d|
  {
    var s := Zeros(k) + d;
    if d == "" {
      if k > 0 {
        assert s[..|s| - 1] == Zeros(k - 1) + "";
        LeadingZeros(k - 1, "");
      } else {
        assert s == "";
      }
    } else {
      assert s[..|s| - 1] == Zeros(k) + d[..|d| - 1];
      LeadingZeros(k, d[..|d| - 1]);
    }
  }

  lemma PaddedValue(n: nat)
    ensures DecimalValue(Padded(n)) == n
  {
    var d := Decimal(n);
    LeadingZeros(if |d| < 3 then 3 - |d| else 0, d);
    DecimalRoundTrip(n);
  }

  /** The padding is to three digits: no shorter, and longer only for a number that needs it. */
  lemma PaddedWidth(n: nat)
    ensures |Padded(n)| >= 3 && (|Padded(n)| > 3 ==> Padded(n)[0] != '0')
    ensures |Padded(n)| == 3 <==> n < 1000
  {
    if n < 1000 {
      assert n / 10 < 100 && n / 10 / 10 < 10;
    } else {
      assert n / 10 >= 10 && n / 10 / 10 >= 10;
      assert |Decimal(n / 10)| == 1 + |Decimal(n / 10 / 10)|;
      assert |Decimal(n / 10 / 10)| == 1 + |Decimal(n / 10 / 10 / 10)|;
    }
  }

  /** The codes of the first, the forty-second and the thousandth device of a type. */
  lemma FirstCodes(upper: Upper, deviceType: string)
    ensures Code(upper, deviceType, 1) == upper(deviceType) + "-001"
    ensures Code(upper, deviceType, 42) == upper(deviceType) + "-042"
    ensures Code(upper, deviceType, 1000) == upper(deviceType) + "-1000"
  {
    FirstPadded();
    AfterDash(upper(deviceType), "001", "-001");
    AfterDash(upper(deviceType), "042", "-042");
    AfterDash(upper(deviceType), "1000", "-1000");
  }

  lemma FirstPadded()
    ensures Padded(1) == "001" && Padded(42) == "042" && Padded(1000) == "1000"
  {
    assert Decimal(1) == "1" && Zeros(1) == "0" && Zeros(2) == "00";
    assert Decimal(42) == "42" && Decimal(10) == "10" && Decimal(100) == "100" && Decimal(1000) == "1000";
  }

  lemma AfterDash(prefix: string, digits: string, tail: string)
    requires tail == "-" + digits
    ensures prefix + "-" + digits == prefix + tail
  {
  }

  /** The last dash splits a code, wherever else the upper-cased type has dashes or digits. */
  lemma LastDash(p: string, d: string, q: string, e: string)
    requires p + "-" + d == q + "-" + e
    requires forall i | 0 <= i < |d| :: d[i] != '-'
    requires forall i | 0 <= i < |e| :: e[i] != '-'
    ensures p == q && d == e
  {
    var s := p + "-" + d;
    assert s == q + "-" + e;
    assert s[|p|] == '-' && s[|q|] == '-';
    assert forall i | |p| < i < |s| :: s[i] == d[i - |p| - 1];
    assert forall i | |q| < i < |s| :: s[i] == e[i - |q| - 1];
    assert |p| == |q|;
    assert p == s[..|p|] && q == s[..|p|];
    assert d == s[|p| + 1..] && e == s[|p| + 1..];
  }

  /** Two codes are the same text exactly when the upper-cased types and the numbers agree. */
  lemma CodeInjective(upper: Upper, s: string, m: nat, t: string, n: nat)
    ensures Code(upper, s, m) == Code(upper, t, n) <==> upper(s) == upper(t) && m == n
  {
    if Code(upper, s, m) == Code(upper, t, n) {
      LastDash(upper(s), Padded(m), upper(t), Padded(n));
      PaddedValue(m);
      PaddedValue(n);
    }
  }
}
