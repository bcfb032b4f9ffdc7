/** The Option type used for Python's optional arguments and partial operations. */
module Options {
  datatype Option<+T> = None | Some(value: T)
}

/**
 * The step field of a step directory name: Python's `format(n, "03d")`,
 * i.e. the decimal spelling of n zero-padded to width 3, the minus sign
 * counting towards the width (so -1 is spelled "-01"), together with the
 * reading back of such a field.
 */
module StepFormat {
  import opened Options

  predicate IsDigit(c: char) { '0' <= c <= '9' }

  predicate AllDigits(s: string) { forall i :: 0 <= i < |s| ==> IsDigit(s[i]) }

  function DigitChar(d: nat): (c: char)
    requires d < 10
    ensures IsDigit(c) && c as int - '0' as int == d
  {
    ('0' as int + d) as char
  }

  /** The shortest decimal spelling of n (Python's `str(n)` for n >= 0). */
  function Decimal(n: nat): (s: string)
    ensures AllDigits(s) && 1 <= |s|
    ensures n > 0 ==> s[0] != '0'
    ensures (n < 10 <==> |s| == 1) && (n < 100 <==> |s| <= 2) && (n < 1000 <==> |s| <= 3)
  {
    if n < 10 then [DigitChar(n)] else Decimal(n / 10) + [DigitChar(n % 10)]
  }

  function Zeros(k: nat): (z: string)
    ensures |z| == k && forall i :: 0 <= i < k ==> z[i] == '0'
  {
    seq(k, _ => '0')
  }

  /** Left-pads s with '0' characters up to `width` characters. */
  function ZeroPad(s: string, width: nat): (r: string)
    ensures |s| >= width ==> r == s
    ensures |s| < width ==> |r| == width && r[width - |s|..] == s
    ensures AllDigits(s) ==> AllDigits(r)
  {
    if |s| < width then Zeros(width - |s|) + s else s
  }

  /** `format(n, "03d")`. */
  function FormatStep(n: int): (r: string)
    ensures |r| >= 3
    ensures |r| == 3 <==> -99 <= n <= 999
    ensures n >= 0 <==> AllDigits(r)
    ensures n < 0 <==> r[0] == '-'
    ensures n < 0 ==> AllDigits(r[1..])
    ensures |r| > 3 ==> r[if n < 0 then 1 else 0] != '0'
  {
    if n >= 0 then ZeroPad(Decimal(n), 3)
    else
      var digits := ZeroPad(Decimal(-n), 2);
      assert ("-" + digits)[1..] == digits && !IsDigit(("-" + digits)[0]);
      "-" + digits
  }

  /** The number a digit string denotes; leading zeros contribute nothing. */
  function DigitsValue(s: string): nat
    requires AllDigits(s)
  {
    if s == [] then 0 else DigitsValue(s[..|s| - 1]) * 10 + (s[|s| - 1] as int - '0' as int)
  }

  /** Reads back a step field: an optional minus sign followed by at least one digit. */
  function ParseStep(s: string): Option<int>
  {
    if |s| > 1 && s[0] == '-' && AllDigits(s[1..]) then Some(-(DigitsValue(s[1..]) as int))
    else if |s| > 0 && AllDigits(s) then Some(DigitsValue(s))
    else None
  }

  lemma {:induction false} DecimalValue(n: nat)
    ensures DigitsValue(Decimal(n)) == n
  {
    if n >= 10 {
      var s := Decimal(n);
      assert s[..|s| - 1] == Decimal(n / 10);
      DecimalValue(n / 10);
    }
  }

  lemma {:induction false} ZerosValue(k: nat)
    ensures DigitsValue(Zeros(k)) == 0
  {
    if k > 0 {
      assert Zeros(k)[..k - 1] == Zeros(k - 1);
      ZerosValue(k - 1);
    }
  }

  lemma {:induction false} LeadingZerosValue(k: nat, s: string)
    requires AllDigits(s)
    ensures AllDigits(Zeros(k) + s) && DigitsValue(Zeros(k) + s) == DigitsValue(s)
  {
    var t := Zeros(k) + s;
    if s == [] {
      assert t == Zeros(k);
      ZerosValue(k);
    } else {
      assert t[..|t| - 1] == Zeros(k) + s[..|s| - 1];
      LeadingZerosValue(k, s[..|s| - 1]);
    }
  }

  lemma ZeroPadValue(s: string, width: nat)
    requires AllDigits(s)
    ensures AllDigits(ZeroPad(s, width)) && DigitsValue(ZeroPad(s, width)) == DigitsValue(s)
  {
    if |s| < width {
      LeadingZerosValue(width - |s|, s);
    }
  }

  /** The padded field determines the step: reading it back gives n, negative steps included. */
  lemma FormatStepRoundTrip(n: int)
    ensures ParseStep(FormatStep(n)) == Some(n)
  {
    var r := FormatStep(n);
    if n >= 0 {
      DecimalValue(n);
      ZeroPadValue(Decimal(n), 3);
    } else {
      var digits := ZeroPad(Decimal(-n), 2);
      assert r[1..] == digits;
      DecimalValue(-n);
      ZeroPadValue(Decimal(-n), 2);
    }
  }

  /** Two steps share a field exactly when they are the same step. */
  lemma FormatStepInjective(m: int, n: int)
    ensures FormatStep(m) == FormatStep(n) <==> m == n
  {
    FormatStepRoundTrip(m);
    FormatStepRoundTrip(n);
  }
}
