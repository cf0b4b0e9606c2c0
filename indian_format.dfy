/**
 * The number formatting of src/lib/indian-formatter.ts: amounts of a crore
 * (10,000,000), a lakh (100,000) or a thousand and above are shown divided
 * down with the suffix " Cr", " L" or " K", after `toFixed` and the removal
 * of the trailing zeros matched by `/\.?0+$/`; smaller amounts are shown by
 * the 'en-IN' locale rendering. The currency variant puts a rupee sign in
 * front.
 *
 * Number.prototype.toFixed and toLocaleString('en-IN') are not modelled:
 * they are passed in as the two functions of a `Renderer`. The tier choice,
 * the suffixes, the prefix and the zero stripping are modelled on strings.
 */
module IndianFormat {

  /** Number.prototype.toFixed and toLocaleString with the 'en-IN' locale. */
  datatype Renderer = Renderer(toFixed: (real, nat) -> string, toLocale: real -> string)

  // ------------------------------------------------------------ zero stripping

  predicate IsDigit(c: char)
  {
    '0' <= c <= '9'
  }

  /** Every character of `s` from position `j` on is '0'. */
  predicate ZerosFrom(s: string, j: int)
  {
    forall m | j <= m < |s| && 0 <= m :: s[m] == '0'
  }

  /** `/\.?0+$/` matches the text starting at position `i` of `s`. */
  predicate MatchesAt(s: string, i: nat)
  {
    && i < |s|
    && ((s[i] == '0' && ZerosFrom(s, i)) || (s[i] == '.' && i + 1 < |s| && ZerosFrom(s, i + 1)))
  }

  /** The length of the run of '0' at the end of `s`. */
  function TrailingZeros(s: string): (k: nat)
    ensures k <= |s|
    ensures ZerosFrom(s, |s| - k)
    ensures k < |s| ==> s[|s| - k - 1] != '0'
  {
    if |s| == 0 || s[|s| - 1] != '0' then 0
    else
      var n := |s| - 1;
      var k := TrailingZeros(s[..n]);
      assert forall m | n - k <= m < n :: s[..n][m] == s[m];
      k + 1
  }

  /**
   * The replace at lines 5, 8 and 11: the leftmost match of the pattern, if any, is
   * removed. The result is a prefix of `s`, the pattern matches where the
   * result stops (when anything was removed), and it matches nowhere before.
   */
  function StripTrailingZeros(s: string): (r: string)
    ensures |r| <= |s| && r == s[..|r|]
    ensures |r| < |s| ==> MatchesAt(s, |r|)
    ensures forall i | 0 <= i < |r| :: !MatchesAt(s, i)
  {
    var start := |s| - TrailingZeros(s);
    if start == |s| then
      s
    else if start > 0 && s[start - 1] == '.' then
      NoMatchBefore(s, start - 1);
      s[..start - 1]
    else
      NoMatchBefore(s, start);
      s[..start]
  }

  /**
   * No match starts before `m`, where `m` is where the trailing zeros start,
   * or the '.' just before them, or the end when there are no trailing zeros.
   */
  lemma NoMatchBefore(s: string, m: nat)
    requires m <= |s| - TrailingZeros(s) && |s| - TrailingZeros(s) - m <= 1
    requires m < |s| - TrailingZeros(s) ==> s[m] == '.'
    requires 0 < m == |s| - TrailingZeros(s) < |s| ==> s[m - 1] != '.'
    ensures forall i | 0 <= i < m :: !MatchesAt(s, i)
  {
    var start := |s| - TrailingZeros(s);
    forall i | 0 <= i < m ensures !MatchesAt(s, i) {
      // the character before the trailing zeros is not '0', and a match at i would need it to be
      assert s[start - 1] != '0';
      if i < start - 1 {
        assert !ZerosFrom(s, i) && !ZerosFrom(s, i + 1);
      }
    }
  }

  /**
   * `toFixed` notation: at least one digit, a '.', and at least one digit;
   * `point` is the position of the '.'.
   */
  predicate FixedNotation(s: string, point: nat)
  {
    && 0 < point < |s| - 1 && s[point] == '.'
    && (forall i | 0 <= i < |s| && i != point :: IsDigit(s[i]))
  }

  /**
   * On `toFixed` output the integer part is always kept, and the result
   * ends neither in '.' nor, when a fraction remains, in '0'.
   */
  lemma StripFixed(s: string, point: nat)
    requires FixedNotation(s, point)
    ensures var r := StripTrailingZeros(s);
      && point <= |r| && s[..point] == r[..point]
      && r[|r| - 1] != '.'
      && (|r| > point ==> r[point] == '.' && r[|r| - 1] != '0')
  {
    var start := |s| - TrailingZeros(s);
    assert s[point] != '0';
    assert point < start;
  }

  lemma StripExamples()
    ensures StripTrailingZeros("12.50") == "12.5"
    ensures StripTrailingZeros("10.00") == "10"
    ensures StripTrailingZeros("2.5") == "2.5"
  {
    assert TrailingZeros("12.50") == 1 by {
      assert TrailingZeros("12.5") == 0;
      assert "12.50"[..4] == "12.5";
    }
    assert TrailingZeros("10.00") == 2 by {
      assert "10.00"[..4] == "10.0" && "10.0"[..3] == "10.";
      assert TrailingZeros("10.") == 0;
    }
    assert TrailingZeros("2.5") == 0;
  }

  // ------------------------------------------------------------ the formatters

  datatype Tier = Crore | Lakh | Thousand | Plain

  /** The branch the formatters take: inclusive lower thresholds, tried from the largest. */
  function TierOf(n: real): (t: Tier)
    ensures t == Crore <==> 10000000.0 <= n
    ensures t == Lakh <==> 100000.0 <= n < 10000000.0
    ensures t == Thousand <==> 1000.0 <= n < 100000.0
    ensures t == Plain <==> n < 1000.0
  {
    if n >= 10000000.0 then Crore
    else if n >= 100000.0 then Lakh
    else if n >= 1000.0 then Thousand
    else Plain
  }

  function Divisor(t: Tier): real
  {
    match t
    case Crore => 10000000.0
    case Lakh => 100000.0
    case Thousand => 1000.0
    case Plain => 1.0
  }

  function Digits(t: Tier): nat
  {
    if t == Thousand then 1 else 2
  }

  function Suffix(t: Tier): string
  {
    match t
    case Crore => " Cr"
    case Lakh => " L"
    case Thousand => " K"
    case Plain => ""
  }

  /**
   * `formatIndianNumber` (lines 2-15): the tier's compact form (the amount
   * divided by the tier's unit, fixed to the tier's digits, zeros stripped,
   * suffix appended), and below a thousand, negative amounts included, the
   * full locale rendering.
   */
  function FormatIndianNumber(rd: Renderer, num: real): (r: string)
    ensures TierOf(num) == Plain ==> r == FormatIndianNumberFull(rd, num)
    ensures TierOf(num) != Plain ==>
              r == StripTrailingZeros(rd.toFixed(num / Divisor(TierOf(num)), Digits(TierOf(num)))) + Suffix(TierOf(num))
  {
    if num >= 10000000.0 then StripTrailingZeros(rd.toFixed(num / 10000000.0, 2)) + " Cr"
    else if num >= 100000.0 then StripTrailingZeros(rd.toFixed(num / 100000.0, 2)) + " L"
    else if num >= 1000.0 then StripTrailingZeros(rd.toFixed(num / 1000.0, 1)) + " K"
    else rd.toLocale(num)
  }

  /** `formatIndianCurrency` (lines 17-30): each branch is the number's, behind a rupee sign. */
  function FormatIndianCurrency(rd: Renderer, num: real): (r: string)
    ensures r == "\U{20B9}" + FormatIndianNumber(rd, num)
  {
    if num >= 10000000.0 then "\U{20B9}" + StripTrailingZeros(rd.toFixed(num / 10000000.0, 2)) + " Cr"
    else if num >= 100000.0 then "\U{20B9}" + StripTrailingZeros(rd.toFixed(num / 100000.0, 2)) + " L"
    else if num >= 1000.0 then "\U{20B9}" + StripTrailingZeros(rd.toFixed(num / 1000.0, 1)) + " K"
    else "\U{20B9}" + rd.toLocale(num)
  }

  /** `formatIndianNumberFull` (lines 32-34). */
  function FormatIndianNumberFull(rd: Renderer, num: real): string
  {
    rd.toLocale(num)
  }

  /**
   * Below a thousand both formatters fall back to `formatIndianNumberFull`:
   * the number text is it, and the currency text is the rupee sign followed
   * by it with no suffix.
   */
  lemma FullBelowThousand(rd: Renderer, num: real)
    requires num < 1000.0
    ensures FormatIndianNumber(rd, num) == FormatIndianNumberFull(rd, num)
    ensures FormatIndianCurrency(rd, num) == "\U{20B9}" + FormatIndianNumberFull(rd, num)
  {
  }

  /**
   * Above the plain tier, when `toFixed` yields fixed notation, the shown
   * figure keeps the whole integer part, then ends in a non-zero fractional
   * digit or in no '.' at all, and the tier's suffix follows.
   */
  lemma CompactShape(rd: Renderer, num: real, point: nat)
    requires TierOf(num) != Plain
    requires FixedNotation(rd.toFixed(num / Divisor(TierOf(num)), Digits(TierOf(num))), point)
    ensures var t := TierOf(num);
      var fixed := rd.toFixed(num / Divisor(t), Digits(t));
      var shown := StripTrailingZeros(fixed);
      && FormatIndianNumber(rd, num) == shown + Suffix(t)
      && fixed[..point] == shown[..point] && point <= |shown|
      && shown[|shown| - 1] != '.'
      && (|shown| > point ==> shown[|shown| - 1] != '0')
  {
    var t := TierOf(num);
    StripFixed(rd.toFixed(num / Divisor(t), Digits(t)), point);
  }
}
