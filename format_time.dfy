/**
 * The elapsed-time label of the recording timer: seconds rendered as `MM:SS`
 * (src/utils/formatTime.ts, and the identical copy inside ImprovedVideoChat.tsx).
 * The source computes `Math.floor(s / 60)` and `s % 60`, turns each into a decimal
 * string and left-pads it with '0' to two characters. Integers are modelled with
 * JavaScript's semantics, negative ones included; fractional seconds are not.
 */
module TimeFormat {
  import opened Options
  import opened Text

  function DigitChar(d: nat): (c: char)
    requires d < 10
    ensures IsDigit(c)
  {
    ('0' as int + d) as char
  }

  function DigitValue(c: char): nat
    requires IsDigit(c)
  {
    c as int - '0' as int
  }

  predicate AllDigits(s: string) {
    forall i | 0 <= i < |s| :: IsDigit(s[i])
  }

  /** `n.toString()` for a non-negative integer: digits, most significant first, no leading zero. */
  function NatToDigits(n: nat): (r: string)
    ensures 1 <= |r| && AllDigits(r)
    ensures n < 10 ==> |r| == 1
    ensures n < 100 ==> |r| <= 2
    ensures n >= 10 ==> r[0] != '0'
    decreases n
  {
    if n < 10 then [DigitChar(n)] else NatToDigits(n / 10) + [DigitChar(n % 10)]
  }

  /** `i.toString()` for any integer: a minus sign in front of a negative one. */
  function IntToString(i: int): (r: string)
    ensures |r| >= 1 && (r[0] == '-' <==> i < 0)
    ensures i >= 0 ==> AllDigits(r)
  {
    if i < 0 then "-" + NatToDigits(-i) else NatToDigits(i)
  }

  /** `s.padStart(2, '0')`: zeros in front up to length two; a longer string is kept whole. */
  function PadStart2(s: string): (r: string)
    ensures |r| == if |s| >= 2 then |s| else 2
    ensures r[|r| - |s|..] == s
    ensures forall i | 0 <= i < |r| - |s| :: r[i] == '0'
  {
    if |s| >= 2 then s else seq(2 - |s|, _ => '0') + s
  }

  /** JavaScript's integer quotient `Math.trunc(a / b)` for `b > 0`: rounded toward zero. */
  function JsQuot(a: int, b: int): int
    requires b > 0
  {
    if a >= 0 then a / b else -((-a) / b)
  }

  /**
   * JavaScript's `a % b` for `b > 0`: what is left after taking away the quotient rounded
   * toward zero, so the remainder carries the sign of the dividend.
   */
  function JsRem(a: int, b: int): (r: int)
    requires b > 0
    ensures -b < r < b
    ensures a >= 0 ==> r == a % b
    ensures a >= 0 ==> 0 <= r
    ensures a <= 0 ==> r <= 0
  {
    if a >= 0 then a % b else -((-a) % b)
  }

  /**
   * formatTime. `Math.floor(seconds / 60)` is Dafny's `/`, which rounds down when the
   * divisor is positive.
   */
  function FormatTime(seconds: int): string {
    Label(seconds / 60, JsRem(seconds, 60))
  }

  /** The two padded fields joined by ':'. */
  function Label(minutes: int, secs: int): string {
    PadStart2(IntToString(minutes)) + ":" + PadStart2(IntToString(secs))
  }

  // ------------------------------------------------------------------
  // The reader's side: a decimal field (leading zeros allowed) and a whole `M:S` label.
  // ------------------------------------------------------------------

  /** Value of a string of decimal digits; leading zeros are allowed. */
  function DigitsValue(s: string): nat
    requires AllDigits(s)
  {
    if s == [] then 0 else 10 * DigitsValue(s[..|s| - 1]) + DigitValue(s[|s| - 1])
  }

  /** Position of the first ':' in `s`. */
  function ColonIndex(s: string): (r: Option<nat>)
    ensures r.Some? ==> r.value < |s| && s[r.value] == ':'
    ensures r.Some? ==> forall i | 0 <= i < r.value :: s[i] != ':'
    ensures r.None? ==> forall i | 0 <= i < |s| :: s[i] != ':'
  {
    if s == [] then None
    else if s[0] == ':' then Some(0)
    else match ColonIndex(s[1..]) {
      case None => None
      case Some(k) => Some(k + 1)
    }
  }

  /** Reads `M:S` back: a non-empty digit field, ':', a digit field below 60; yields 60·M + S. */
  function ParseTime(s: string): Option<nat> {
    match ColonIndex(s) {
      case None => None
      case Some(k) =>
        var mins, secs := s[..k], s[k + 1..];
        if 1 <= |mins| && AllDigits(mins) && |secs| == 2 && AllDigits(secs) && DigitsValue(secs) < 60
        then Some(60 * DigitsValue(mins) + DigitsValue(secs))
        else None
    }
  }

  // ------------------------------------------------------------------
  // Properties.
  // ------------------------------------------------------------------

  lemma {:induction false} DigitsValueOfNat(n: nat)
    ensures DigitsValue(NatToDigits(n)) == n
    decreases n
  {
    var r := NatToDigits(n);
    if n < 10 {
      assert r[..0] == [];
    } else {
      DigitsValueOfNat(n / 10);
      assert r[..|r| - 1] == NatToDigits(n / 10);
    }
  }

  /** Leading zeros do not change the value of a digit field. */
  lemma {:induction false} DigitsValueZeros(z: string, s: string)
    requires forall i | 0 <= i < |z| :: z[i] == '0'
    requires AllDigits(s)
    ensures AllDigits(z + s) && DigitsValue(z + s) == DigitsValue(s)
    decreases |s|
  {
    var t := z + s;
    assert AllDigits(t) by {
      forall i | 0 <= i < |t| ensures IsDigit(t[i]) {
        if i < |z| { assert t[i] == z[i]; } else { assert t[i] == s[i - |z|]; }
      }
    }
    if s == [] {
      assert t == z;
      ZerosValue(z);
    } else {
      assert t[..|t| - 1] == z + s[..|s| - 1];
      DigitsValueZeros(z, s[..|s| - 1]);
    }
  }

  lemma {:induction false} ZerosValue(z: string)
    requires forall i | 0 <= i < |z| :: z[i] == '0'
    ensures AllDigits(z) && DigitsValue(z) == 0
    decreases |z|
  {
    if z != [] {
      ZerosValue(z[..|z| - 1]);
    }
  }

  /** Padding with zeros keeps a digit field's value. */
  lemma PadKeepsValue(d: string)
    requires AllDigits(d)
    ensures AllDigits(PadStart2(d)) && DigitsValue(PadStart2(d)) == DigitsValue(d)
  {
    var f := PadStart2(d);
    var z := f[..|f| - |d|];
    assert f == z + d;
    DigitsValueZeros(z, d);
  }

  /** The padded field of a non-negative number is all digits, at least two long, and keeps its value. */
  lemma PaddedField(n: nat)
    ensures var f := PadStart2(IntToString(n));
      AllDigits(f) && |f| >= 2 && DigitsValue(f) == n && (n < 100 ==> |f| == 2)
  {
    var d := IntToString(n);
    assert d == NatToDigits(n);
    DigitsValueOfNat(n);
    PadKeepsValue(d);
  }

  lemma {:induction false} ColonIndexAfterDigits(m: string, rest: string)
    requires AllDigits(m)
    ensures ColonIndex(m + ":" + rest) == Some(|m|)
    decreases |m|
  {
    if m == [] {
      assert (m + ":" + rest)[0] == ':';
    } else {
      assert (m + ":" + rest)[1..] == m[1..] + ":" + rest;
      ColonIndexAfterDigits(m[1..], rest);
    }
  }

  /** A label whose seconds field is below 60 splits into its two fields at the third-last character. */
  lemma LabelFields(q: nat, rem: nat)
    requires rem < 60
    ensures var r := Label(q, rem);
      |r| >= 5 && r[|r| - 3] == ':'
      && AllDigits(r[|r| - 2..]) && DigitsValue(r[|r| - 2..]) == rem
      && AllDigits(r[..|r| - 3]) && |r[..|r| - 3]| >= 2 && DigitsValue(r[..|r| - 3]) == q
  {
    var m, s := PadStart2(IntToString(q)), PadStart2(IntToString(rem));
    PaddedField(q);
    PaddedField(rem);
    assert Label(q, rem) == m + ":" + s;
    JoinedFields(m, s);
  }

  /** Two digit fields joined by ':' are found again at the third-last character. */
  lemma JoinedFields(m: string, s: string)
    requires AllDigits(m) && |m| >= 2 && AllDigits(s) && |s| == 2
    ensures var r := m + ":" + s;
      |r| >= 5 && r[|r| - 3] == ':'
      && AllDigits(r[|r| - 2..]) && DigitsValue(r[|r| - 2..]) == DigitsValue(s)
      && AllDigits(r[..|r| - 3]) && |r[..|r| - 3]| >= 2 && DigitsValue(r[..|r| - 3]) == DigitsValue(m)
  {
    SplitLabel(m, s);
  }

  /**
   * The label has the form minutes ':' seconds: the seconds field is exactly two digits
   * worth `n % 60` (so below 60), the minutes field at least two digits worth `n / 60`,
   * never truncated. Together: 60·minutes + seconds == n.
   */
  lemma FormatTimeFields(n: nat)
    ensures var r := FormatTime(n);
      |r| >= 5 && r[|r| - 3] == ':'
      && AllDigits(r[|r| - 2..]) && DigitsValue(r[|r| - 2..]) == n % 60 < 60
      && AllDigits(r[..|r| - 3]) && |r[..|r| - 3]| >= 2 && DigitsValue(r[..|r| - 3]) == n / 60
  {
    FormatTimeIsLabel(n);
    LabelFields(n / 60, n % 60);
  }

  lemma SplitLabel(m: string, s: string)
    requires |s| == 2
    ensures var r := m + ":" + s; r[|r| - 3] == ':' && r[|r| - 2..] == s && r[..|r| - 3] == m
  {
    var r := m + ":" + s;
    assert r[..|r| - 3] == m;
    assert r[|r| - 2..] == s;
  }

  /** Reading a label back gives 60·minutes + seconds. */
  lemma LabelRoundTrip(q: nat, rem: nat)
    requires rem < 60
    ensures ParseTime(Label(q, rem)) == Some(60 * q + rem)
  {
    PaddedField(q);
    PaddedField(rem);
    ParseJoined(PadStart2(IntToString(q)), PadStart2(IntToString(rem)));
  }

  /** Reading back two digit fields joined by ':' gives 60·minutes + seconds. */
  lemma ParseJoined(m: string, s: string)
    requires AllDigits(m) && |m| >= 1 && AllDigits(s) && |s| == 2 && DigitsValue(s) < 60
    ensures ParseTime(m + ":" + s) == Some(60 * DigitsValue(m) + DigitsValue(s))
  {
    var r := m + ":" + s;
    ColonIndexAfterDigits(m, s);
    assert r[..|m|] == m;
    assert r[|m| + 1..] == s;
    var k := |m|;
    assert ColonIndex(r) == Some(k);
    var mins, secs := r[..k], r[k + 1..];
    assert DigitsValue(mins) == DigitsValue(m) && DigitsValue(secs) == DigitsValue(s);
  }

  /** For a non-negative input the JavaScript remainder is Dafny's. */
  lemma FormatTimeIsLabel(n: nat)
    ensures FormatTime(n) == Label(n / 60, n % 60)
  {
    assert JsRem(n, 60) == n % 60;
  }

  /** Round trip: reading the label back gives the number of seconds. */
  lemma FormatTimeRoundTrip(n: nat)
    ensures ParseTime(FormatTime(n)) == Some(n)
  {
    var q, r := n / 60, n % 60;
    assert 60 * q + r == n;
    FormatTimeIsLabel(n);
    LabelRoundTrip(q, r);
  }

  /** Below 100 minutes the label is exactly the five characters `MM:SS`. */
  lemma FormatTimeShort(n: nat)
    ensures n < 6000 ==> |FormatTime(n)| == 5
  {
    PaddedField(n / 60);
    PaddedField(n % 60);
  }

  lemma FormatTimeOfZero()
    ensures FormatTime(0) == "00:00"
  {
    assert NatToDigits(0) == "0";
    assert PadStart2("0") == "00";
  }

  /**
   * The division identity of JavaScript's `%`: the dividend is the quotient rounded toward
   * zero times the divisor, plus the remainder. With the bound and the sign that JsRem
   * states, this determines the remainder.
   */
  lemma JsRemDivision(a: int, b: int)
    requires b > 0
    ensures a == JsQuot(a, b) * b + JsRem(a, b)
  {
    if a < 0 {
      var q := (-a) / b;
      assert -a == q * b + (-a) % b;
      assert JsQuot(a, b) * b == -(q * b);
    }
  }

  /** Negating the dividend negates the remainder. */
  lemma JsRemOdd(a: int, b: int)
    requires b > 0
    ensures JsRem(-a, b) == -JsRem(a, b)
  {
  }

  /** The remainder takes the sign of the dividend: `-7 % 3` is -1, where Dafny's `%` gives 2. */
  lemma JsRemOfMinusSeven()
    ensures JsQuot(-7, 3) == -2 && JsRem(-7, 3) == -1
  {
  }

  /** Negative input follows JavaScript: `Math.floor(-5 / 60)` is -1 and `-5 % 60` is -5. */
  lemma FormatTimeOfMinusFive()
    ensures FormatTime(-5) == "-1:-5"
  {
    assert -5 / 60 == -1;
    assert JsRem(-5, 60) == -5;
    assert NatToDigits(1) == "1";
    assert NatToDigits(5) == "5";
    assert IntToString(-1) == "-1";
    assert IntToString(-5) == "-5";
  }
}
