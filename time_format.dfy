/**
 * The `formatTime` helper of the recording page: a whole number of seconds
 * rendered as `mm:ss`, where each field is the decimal form of the number
 * (`Number.prototype.toString`) left-padded with '0' to at least two
 * characters (`String.prototype.padStart(2, '0')`).
 */
module TimeFormat {
  import opened Options

  predicate IsDigit(c: char) { '0' <= c <= '9' }

  predicate AllDigits(s: string) { forall i :: 0 <= i < |s| ==> IsDigit(s[i]) }

  function DigitChar(d: nat): (c: char)
    requires d < 10
    ensures IsDigit(c) && DigitValue(c) == d
  {
    ('0' as int + d) as char
  }

  function DigitValue(c: char): nat
    requires IsDigit(c)
  {
    c as int - '0' as int
  }

  /** The value a string of decimal digits denotes (most significant digit first). */
  function ParseDecimal(s: string): nat
    requires AllDigits(s)
  {
    if s == [] then 0 else ParseDecimal(s[..|s| - 1]) * 10 + DigitValue(s[|s| - 1])
  }

  /** `n.toString()` for a non-negative integer: its shortest decimal form. */
  function DecimalString(n: nat): (r: string)
    ensures |r| >= 1 && AllDigits(r)
    ensures n == 0 ==> r == "0"
    ensures n > 0 ==> r[0] != '0'
    decreases n
  {
    if n < 10 then [DigitChar(n)] else DecimalString(n / 10) + [DigitChar(n % 10)]
  }

  function Repeat(c: char, k: nat): (r: string)
    ensures |r| == k && forall i :: 0 <= i < k ==> r[i] == c
  {
    seq(k, _ => c)
  }

  /** `s.padStart(width, fill)` with a one-character fill. */
  function PadStart(s: string, width: nat, fill: char): (r: string)
    ensures |r| == if |s| >= width then |s| else width
    ensures r[|r| - |s|..] == s
    ensures forall i :: 0 <= i < |r| - |s| ==> r[i] == fill
  {
    if |s| >= width then s else Repeat(fill, width - |s|) + s
  }

  /** `formatTime(seconds)` of the recording page, for a whole, non-negative `seconds`. */
  function FormatTime(seconds: nat): (r: string)
    ensures |r| >= 5 && r[|r| - 3] == ':'
  {
    DecimalWidth(seconds % 60);
    PadStart(DecimalString(seconds / 60), 2, '0') + ":" + PadStart(DecimalString(seconds % 60), 2, '0')
  }

  /** The minutes field of an `mm:ss` string: everything before the final `:ss`. */
  function MinutesField(r: string): string
    requires |r| >= 3
  {
    r[..|r| - 3]
  }

  /** The seconds field of an `mm:ss` string: its last two characters. */
  function SecondsField(r: string): string
    requires |r| >= 3
  {
    r[|r| - 2..]
  }

  /**
   * Reads a timer display back into seconds: a minutes field of at least two
   * digits, a colon, and exactly two digits denoting less than 60.
   */
  function ParseTime(r: string): Option<nat>
  {
    if |r| >= 5 && r[|r| - 3] == ':' && AllDigits(MinutesField(r)) && AllDigits(SecondsField(r))
       && ParseDecimal(SecondsField(r)) < 60
    then Some(ParseDecimal(MinutesField(r)) * 60 + ParseDecimal(SecondsField(r)))
    else None
  }

  lemma {:induction false} ParseAppendDigit(s: string, c: char)
    requires AllDigits(s) && IsDigit(c)
    ensures AllDigits(s + [c]) && ParseDecimal(s + [c]) == ParseDecimal(s) * 10 + DigitValue(c)
  {
    assert (s + [c])[..|s + [c]| - 1] == s;
  }

  /** Parsing `n.toString()` gives back `n`. */
  lemma {:induction false} DecimalRoundTrip(n: nat)
    ensures ParseDecimal(DecimalString(n)) == n
    decreases n
  {
    if n < 10 {
      assert DecimalString(n)[..0] == [];
    } else {
      DecimalRoundTrip(n / 10);
      ParseAppendDigit(DecimalString(n / 10), DigitChar(n % 10));
    }
  }

  lemma {:induction false} ParseZeros(k: nat)
    ensures AllDigits(Repeat('0', k)) && ParseDecimal(Repeat('0', k)) == 0
  {
    if k > 0 {
      ParseZeros(k - 1);
      assert Repeat('0', k)[..k - 1] == Repeat('0', k - 1);
    }
  }

  /** Leading zeros do not change the value a digit string denotes. */
  lemma {:induction false} ParseLeadingZeros(k: nat, s: string)
    requires AllDigits(s)
    ensures AllDigits(Repeat('0', k) + s) && ParseDecimal(Repeat('0', k) + s) == ParseDecimal(s)
    decreases |s|
  {
    if s == [] {
      assert Repeat('0', k) + s == Repeat('0', k);
      ParseZeros(k);
    } else {
      var init := s[..|s| - 1];
      ParseLeadingZeros(k, init);
      assert Repeat('0', k) + s == (Repeat('0', k) + init) + [s[|s| - 1]];
      assert s == init + [s[|s| - 1]];
      ParseAppendDigit(Repeat('0', k) + init, s[|s| - 1]);
      ParseAppendDigit(init, s[|s| - 1]);
    }
  }

  /** The decimal form of `n` has at most two characters exactly when `n < 100`. */
  lemma {:induction false} DecimalWidth(n: nat)
    ensures |DecimalString(n)| <= 2 <==> n < 100
    ensures n < 10 ==> |DecimalString(n)| == 1
    decreases n
  {
    if n >= 10 {
      DecimalWidth(n / 10);
    }
  }

  /** One field of the display: `n.toString().padStart(2, '0')` denotes `n` and has at least two digits. */
  lemma PaddedField(n: nat)
    ensures AllDigits(PadStart(DecimalString(n), 2, '0'))
    ensures ParseDecimal(PadStart(DecimalString(n), 2, '0')) == n
    ensures |PadStart(DecimalString(n), 2, '0')| == (if n < 100 then 2 else |DecimalString(n)|)
  {
    var d := DecimalString(n);
    DecimalRoundTrip(n);
    DecimalWidth(n);
    if |d| < 2 {
      assert PadStart(d, 2, '0') == Repeat('0', 2 - |d|) + d;
      ParseLeadingZeros(2 - |d|, d);
    }
  }

  lemma SplitFields(m: string, s: string)
    requires |s| == 2
    ensures |m + ":" + s| >= 3
    ensures MinutesField(m + ":" + s) == m && SecondsField(m + ":" + s) == s
    ensures (m + ":" + s)[|m + ":" + s| - 3] == ':'
  {
  }

  /**
   * The shape of `formatTime(seconds)`: a colon three characters from the end,
   * a minutes field of at least two digits denoting `seconds / 60` (padded,
   * never truncated), a seconds field of exactly two digits denoting
   * `seconds % 60`, and the two fields recombine to `seconds`.
   */
  lemma FormatTimeFields(seconds: nat)
    ensures |FormatTime(seconds)| >= 5 && FormatTime(seconds)[|FormatTime(seconds)| - 3] == ':'
    ensures AllDigits(MinutesField(FormatTime(seconds))) && |MinutesField(FormatTime(seconds))| >= 2
    ensures AllDigits(SecondsField(FormatTime(seconds))) && |SecondsField(FormatTime(seconds))| == 2
    ensures ParseDecimal(MinutesField(FormatTime(seconds))) == seconds / 60
    ensures ParseDecimal(SecondsField(FormatTime(seconds))) == seconds % 60 < 60
    ensures ParseDecimal(MinutesField(FormatTime(seconds))) * 60
            + ParseDecimal(SecondsField(FormatTime(seconds))) == seconds
  {
    var m := PadStart(DecimalString(seconds / 60), 2, '0');
    var s := PadStart(DecimalString(seconds % 60), 2, '0');
    PaddedField(seconds / 60);
    PaddedField(seconds % 60);
    SplitFields(m, s);
  }

  /** Reading the display back gives the number of seconds that was formatted. */
  lemma ParseFormatRoundTrip(seconds: nat)
    ensures ParseTime(FormatTime(seconds)) == Some(seconds)
  {
    FormatTimeFields(seconds);
  }

  /** Distinct durations are displayed differently. */
  lemma FormatTimeInjective(a: nat, b: nat)
    requires FormatTime(a) == FormatTime(b)
    ensures a == b
  {
    ParseFormatRoundTrip(a);
    ParseFormatRoundTrip(b);
  }

  /** The display is exactly five characters wide below 100 minutes, and wider from there on. */
  lemma FormatTimeLength(seconds: nat)
    ensures |FormatTime(seconds)| == 5 <==> seconds < 6000
  {
    PaddedField(seconds / 60);
    PaddedField(seconds % 60);
    DecimalWidth(seconds / 60);
  }

  lemma FormatTimeZero()
    ensures FormatTime(0) == "00:00"
  {
    assert DecimalString(0) == "0";
    assert PadStart("0", 2, '0') == "00";
  }
}
