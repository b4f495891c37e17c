/**
 * Output file names of the join stage.
 *
 * Every file the detached join task asks for is named with the pattern
 * `LEC %03d %s ...` of Go's `fmt`: the literal `LEC `, the playlist's
 * sequence number as a decimal padded with zeros to at least three digits
 * (never truncated), a space, the title, and for a single-view file the
 * label ` LEFT VIEW.mp4` or ` RIGHT VIEW.mp4`. The combine target carries
 * no label and no extension.
 */
module Names {
  import opened Wrappers

  /* ---------- decimal digits ---------- */

  predicate IsDigit(c: char) {
    '0' <= c <= '9'
  }

  predicate AllDigits(s: string) {
    forall i :: 0 <= i < |s| ==> IsDigit(s[i])
  }

  function DigitChar(d: nat): (c: char)
    requires d < 10
    ensures IsDigit(c) && DigitValue(c) == d
  {
    (48 + d) as char
  }

  function DigitValue(c: char): (d: nat)
    requires IsDigit(c)
    ensures d < 10
  {
    c as int - 48
  }

  function Pow10(k: nat): (p: nat)
    ensures p >= 1
  {
    if k == 0 then 1 else 10 * Pow10(k - 1)
  }

  /** The shortest decimal representation of `n` (Go's `%d` for n >= 0). */
  function Decimal(n: nat): (s: string)
    ensures 1 <= |s|
    decreases n
  {
    if n < 10 then [DigitChar(n)] else Decimal(n / 10) + [DigitChar(n % 10)]
  }

  /** The decimal consists of digits and starts with `0` only for zero itself. */
  lemma {:induction false} DecimalShape(n: nat)
    ensures AllDigits(Decimal(n))
    ensures Decimal(n)[0] == '0' <==> n == 0
    decreases n
  {
    if n >= 10 {
      DecimalShape(n / 10);
    }
  }

  /** The value of a string of decimal digits; leading zeros are allowed. */
  function ParseDecimal(s: string): (n: nat)
    requires AllDigits(s)
    ensures n < Pow10(|s|)
  {
    if s == [] then 0 else 10 * ParseDecimal(s[..|s| - 1]) + DigitValue(s[|s| - 1])
  }

  function Zeros(k: nat): (z: string)
    ensures |z| == k
  {
    if k == 0 then [] else ['0'] + Zeros(k - 1)
  }

  lemma {:induction false} ZerosShape(k: nat)
    ensures forall i :: 0 <= i < k ==> Zeros(k)[i] == '0'
  {
    if k > 0 {
      ZerosShape(k - 1);
    }
  }

  /**
   * Go's `%03d` for a non-negative operand: the decimal of `n`, preceded by
   * as many zeros as it takes to reach a width of three.
   */
  function Pad3(n: nat): string
  {
    var d := Decimal(n);
    if |d| < 3 then Zeros(3 - |d|) + d else d
  }

  /** `%03d` never truncates: it is the decimal of `n` preceded only by zeros, at least three digits in all. */
  lemma Pad3Shape(n: nat)
    ensures var s, d := Pad3(n), Decimal(n);
      && |s| >= 3 && AllDigits(s)
      && |s| >= |d| && s[|s| - |d|..] == d
      && forall i :: 0 <= i < |s| - |d| ==> s[i] == '0'
  {
    var d := Decimal(n);
    DecimalShape(n);
    if |d| < 3 {
      ZerosShape(3 - |d|);
      assert Pad3(n)[3 - |d|..] == d;
    }
  }

  /* ---------- lemmas about the digits ---------- */

  /** The decimal of `n` has at most `k` digits exactly when `n < 10^k`. */
  lemma {:induction false} DecimalLength(n: nat, k: nat)
    requires k >= 1
    ensures |Decimal(n)| <= k <==> n < Pow10(k)
    decreases n
  {
    if n >= 10 {
      if k == 1 {
        assert Pow10(1) == 10;
        DecimalLength(n / 10, 1);
      } else {
        DecimalLength(n / 10, k - 1);
      }
    } else {
      PowMonotone(k);
    }
  }

  lemma PowMonotone(k: nat)
    requires k >= 1
    ensures Pow10(k) >= 10
  {
  }

  /** Reading back the decimal of `n` yields `n`. */
  lemma {:induction false} DecimalRoundTrip(n: nat)
    ensures AllDigits(Decimal(n)) && ParseDecimal(Decimal(n)) == n
    decreases n
  {
    DecimalShape(n);
    var s := Decimal(n);
    if n >= 10 {
      assert s[..|s| - 1] == Decimal(n / 10);
      DecimalRoundTrip(n / 10);
    } else {
      assert s[..|s| - 1] == [];
    }
  }

  /** A leading zero does not change the value of a digit string. */
  lemma {:induction false} ParseLeadingZero(s: string)
    requires AllDigits(s)
    ensures AllDigits(['0'] + s) && ParseDecimal(['0'] + s) == ParseDecimal(s)
    decreases |s|
  {
    var z := ['0'] + s;
    if s == [] {
      assert z[..|z| - 1] == [];
    } else {
      assert z[..|z| - 1] == ['0'] + s[..|s| - 1];
      ParseLeadingZero(s[..|s| - 1]);
    }
  }

  lemma {:induction false} ParseLeadingZeros(k: nat, s: string)
    requires AllDigits(s)
    ensures AllDigits(Zeros(k) + s) && ParseDecimal(Zeros(k) + s) == ParseDecimal(s)
  {
    if k > 0 {
      ParseLeadingZeros(k - 1, s);
      assert Zeros(k) + s == ['0'] + (Zeros(k - 1) + s);
      ParseLeadingZero(Zeros(k - 1) + s);
    } else {
      assert Zeros(k) + s == s;
    }
  }

  /** `%03d` is exactly three digits below 1000 and the plain decimal from 1000 on. */
  lemma Pad3Width(n: nat)
    ensures n < 1000 ==> |Pad3(n)| == 3
    ensures n >= 1000 ==> Pad3(n) == Decimal(n) && |Pad3(n)| >= 4
  {
    assert Pow10(3) == 1000;
    DecimalLength(n, 3);
  }

  /** Below 1000, `%03d` spells the hundreds, tens and units digits. */
  lemma Pad3Digits(n: nat)
    requires n < 1000
    ensures Pad3(n) == [DigitChar(n / 100), DigitChar(n / 10 % 10), DigitChar(n % 10)]
  {
    if n >= 100 {
      assert Decimal(n) == Decimal(n / 10) + [DigitChar(n % 10)];
      assert Decimal(n / 10) == [DigitChar(n / 100)] + [DigitChar(n / 10 % 10)];
    } else if n >= 10 {
      assert Decimal(n) == [DigitChar(n / 10)] + [DigitChar(n % 10)];
      assert Zeros(1) == ['0'];
    } else {
      assert Zeros(2) == ['0', '0'];
    }
  }

  /** Reading back the `%03d` field yields the sequence number. */
  lemma Pad3RoundTrip(n: nat)
    ensures AllDigits(Pad3(n)) && ParseDecimal(Pad3(n)) == n
  {
    var d := Decimal(n);
    Pad3Shape(n);
    DecimalRoundTrip(n);
    if |d| < 3 {
      ParseLeadingZeros(3 - |d|, d);
    }
  }

  lemma Pad3Injective(n: nat, m: nat)
    requires Pad3(n) == Pad3(m)
    ensures n == m
  {
    Pad3RoundTrip(n);
    Pad3RoundTrip(m);
  }

  /* ---------- file names ---------- */

  const LeftLabel := " LEFT VIEW.mp4"
  const RightLabel := " RIGHT VIEW.mp4"

  /** `LEC %03d %s`: the combine target, with no view label and no extension. */
  function CombinedName(seqNo: nat, title: string): string {
    "LEC " + Pad3(seqNo) + " " + title
  }

  /** `LEC %03d %s LEFT VIEW.mp4` */
  function LeftViewName(seqNo: nat, title: string): string {
    CombinedName(seqNo, title) + LeftLabel
  }

  /** `LEC %03d %s RIGHT VIEW.mp4` */
  function RightViewName(seqNo: nat, title: string): string {
    CombinedName(seqNo, title) + RightLabel
  }

  /** Index of the first space in `s`, or `|s|` when there is none. */
  function SpaceIndex(s: string): (k: nat)
    ensures k <= |s| && (k < |s| ==> s[k] == ' ')
    ensures forall i :: 0 <= i < k ==> s[i] != ' '
  {
    if s == [] then 0 else if s[0] == ' ' then 0 else 1 + SpaceIndex(s[1..])
  }

  /**
   * Reads a name of the form `LEC <digits> <title>` back into its sequence
   * number and title; None when the string does not have that form.
   */
  function ParseCombinedName(s: string): (r: Option<(nat, string)>)
  {
    if |s| < 4 || s[..4] != "LEC " then None else ParseNumberAndTitle(s[4..])
  }

  /** Reads `<digits> <title>`: the digits run up to the first space. */
  function ParseNumberAndTitle(rest: string): (r: Option<(nat, string)>)
  {
    var k := SpaceIndex(rest);
    if k == 0 || k == |rest| || !AllDigits(rest[..k]) then None
    else Some((ParseDecimal(rest[..k]), rest[k + 1..]))
  }

  lemma SpaceIndexAfterDigits(d: string, t: string)
    requires AllDigits(d)
    ensures SpaceIndex(d + " " + t) == |d|
  {
    var s := d + " " + t;
    assert s[|d|] == ' ';
    assert forall i :: 0 <= i < |d| ==> s[i] == d[i];
  }

  lemma NumberAndTitleRoundTrip(d: string, t: string)
    requires d != [] && AllDigits(d)
    ensures ParseNumberAndTitle(d + " " + t) == Some((ParseDecimal(d), t))
  {
    var rest := d + " " + t;
    SpaceIndexAfterDigits(d, t);
    assert rest[..|d|] == d;
    assert rest[|d| + 1..] == t;
  }

  /** Parsing a combine target gives back the sequence number and the title. */
  lemma CombinedNameRoundTrip(seqNo: nat, title: string)
    ensures ParseCombinedName(CombinedName(seqNo, title)) == Some((seqNo, title))
  {
    var p := Pad3(seqNo);
    var rest := p + " " + title;
    var s := CombinedName(seqNo, title);
    assert s == "LEC " + rest;
    assert s[..4] == "LEC " && s[4..] == rest;
    Pad3Shape(seqNo);
    NumberAndTitleRoundTrip(p, title);
    Pad3RoundTrip(seqNo);
  }

  lemma CombinedNameInjective(n: nat, t: string, m: nat, u: string)
    requires CombinedName(n, t) == CombinedName(m, u)
    ensures n == m && t == u
  {
    CombinedNameRoundTrip(n, t);
    CombinedNameRoundTrip(m, u);
  }

  /** A single-view name is the combine target of the same number with the label appended to the title. */
  lemma ViewNameAsCombined(n: nat, t: string)
    ensures LeftViewName(n, t) == CombinedName(n, t + LeftLabel)
    ensures RightViewName(n, t) == CombinedName(n, t + RightLabel)
  {
  }

  /**
   * A LEFT/RIGHT VIEW name reads back as its sequence number and the title
   * with the view label attached: the label does not disturb the number field.
   */
  lemma ViewNamesRoundTrip(seqNo: nat, title: string)
    ensures ParseCombinedName(LeftViewName(seqNo, title)) == Some((seqNo, title + LeftLabel))
    ensures ParseCombinedName(RightViewName(seqNo, title)) == Some((seqNo, title + RightLabel))
  {
    ViewNameAsCombined(seqNo, title);
    CombinedNameRoundTrip(seqNo, title + LeftLabel);
    CombinedNameRoundTrip(seqNo, title + RightLabel);
  }

  /** The three names requested for one playlist are pairwise distinct. */
  lemma SamePlaylistNamesDistinct(n: nat, t: string)
    ensures LeftViewName(n, t) != RightViewName(n, t)
    ensures LeftViewName(n, t) != CombinedName(n, t)
    ensures RightViewName(n, t) != CombinedName(n, t)
  {
    assert |LeftViewName(n, t)| == |CombinedName(n, t)| + 14;
    assert |RightViewName(n, t)| == |CombinedName(n, t)| + 15;
  }

  /** A LEFT VIEW name never coincides with a RIGHT VIEW name, whatever the playlists. */
  lemma LeftNeverRight(n: nat, t: string, m: nat, u: string)
    ensures LeftViewName(n, t) != RightViewName(m, u)
  {
    var c, d := CombinedName(n, t), CombinedName(m, u);
    var l, r := c + LeftLabel, d + RightLabel;
    assert l[|l| - 14] == LeftLabel[0] == ' ';
    assert r[|r| - 14] == RightLabel[1] == 'R';
  }

  /** Playlists with different sequence numbers never request the same file name. */
  lemma DistinctSeqNosDistinctNames(n: nat, t: string, m: nat, u: string)
    requires n != m
    ensures CombinedName(n, t) != CombinedName(m, u)
    ensures LeftViewName(n, t) != LeftViewName(m, u)
    ensures RightViewName(n, t) != RightViewName(m, u)
    ensures LeftViewName(n, t) != CombinedName(m, u) && CombinedName(n, t) != LeftViewName(m, u)
    ensures RightViewName(n, t) != CombinedName(m, u) && CombinedName(n, t) != RightViewName(m, u)
    ensures LeftViewName(n, t) != RightViewName(m, u) && RightViewName(n, t) != LeftViewName(m, u)
  {
    ViewNameAsCombined(n, t);
    ViewNameAsCombined(m, u);
    if CombinedName(n, t) == CombinedName(m, u) { CombinedNameInjective(n, t, m, u); }
    if LeftViewName(n, t) == LeftViewName(m, u) { CombinedNameInjective(n, t + LeftLabel, m, u + LeftLabel); }
    if RightViewName(n, t) == RightViewName(m, u) { CombinedNameInjective(n, t + RightLabel, m, u + RightLabel); }
    if LeftViewName(n, t) == CombinedName(m, u) { CombinedNameInjective(n, t + LeftLabel, m, u); }
    if CombinedName(n, t) == LeftViewName(m, u) { CombinedNameInjective(n, t, m, u + LeftLabel); }
    if RightViewName(n, t) == CombinedName(m, u) { CombinedNameInjective(n, t + RightLabel, m, u); }
    if CombinedName(n, t) == RightViewName(m, u) { CombinedNameInjective(n, t, m, u + RightLabel); }
    LeftNeverRight(n, t, m, u);
    LeftNeverRight(m, u, n, t);
  }
}
