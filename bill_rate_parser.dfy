/**
 * The bill-rate range parser of services/billing/bill_rate_parser.py: it
 * splits an already extracted bill-rate string into an optional minimum and
 * maximum. The numbers are kept as the decimal text `float()` would read.
 */
module BillRateParser {
  import opened Wrappers
  import opened Text

  /** `{"min_bill_rate": ..., "max_bill_rate": ...}`. */
  datatype RateRange = RateRange(minBillRate: Option<string>, maxBillRate: Option<string>)

  /** Where the two numbers and the dash of one range match lie. */
  datatype RangeMatch = RangeMatch(minStart: nat, minEnd: nat, dash: nat, maxStart: nat, maxEnd: nat)

  /** `s[i..j]` matches `\$?\s*`: at most a leading dollar sign, then whitespace. */
  predicate DollarSpaces(s: string, i: nat, j: nat)
    requires i <= j <= |s|
  {
    (i < j ==> s[i] == '$' || IsSpace(s[i])) && forall k :: i < k < j ==> IsSpace(s[k])
  }

  /** `s[i..j]` matches `\s*\$?\s*`: whitespace with at most one dollar sign among it. */
  predicate SpaceDollarSpaces(s: string, i: nat, j: nat)
    requires i <= j <= |s|
  {
    && (forall k :: i <= k < j ==> s[k] == '$' || IsSpace(s[k]))
    && (forall k, l :: i <= k < l < j && s[k] == '$' ==> s[l] != '$')
  }

  /**
   * A match of `\$?\s*(\d+(?:\.\d+)?)\s*-\s*\$?\s*(\d+(?:\.\d+)?)` starting
   * at `i`, with each number as long as it can be. Backtracking never yields
   * another match: a shorter first number is followed by a digit or a dot,
   * which `\s*-` rejects, and the second number ends the pattern, so the
   * greedy choice succeeds whenever any does.
   */
  ghost predicate IsRangeMatch(s: string, i: nat, m: RangeMatch) {
    MinPart(s, i, m) && MaxPart(s, m)
  }

  /** `\$?\s*(\d+(?:\.\d+)?)`: the part of a range match up to the first number. */
  ghost predicate MinPart(s: string, i: nat, m: RangeMatch) {
    && i <= m.minStart < m.minEnd <= |s|
    && DollarSpaces(s, i, m.minStart)
    && IsNumeral(s[m.minStart..m.minEnd]) && NumeralMaximal(s, m.minStart, m.minEnd)
  }

  /** `\s*-\s*\$?\s*(\d+(?:\.\d+)?)`: the part of a range match after the first number. */
  ghost predicate MaxPart(s: string, m: RangeMatch) {
    && m.minEnd <= m.dash < m.maxStart < m.maxEnd <= |s|
    && (forall k :: m.minEnd <= k < m.dash ==> IsSpace(s[k]))
    && s[m.dash] == '-'
    && SpaceDollarSpaces(s, m.dash + 1, m.maxStart)
    && IsNumeral(s[m.maxStart..m.maxEnd]) && NumeralMaximal(s, m.maxStart, m.maxEnd)
  }

  /** `\$?\s*(\d+(?:\.\d+)?)\s*-\s*\$?\s*(\d+(?:\.\d+)?)` tried at position `i`. */
  function RangeAt(s: string, i: nat): (r: Option<RangeMatch>)
    ensures r.Some? ==> var m := r.value;
      && i <= m.minStart < m.minEnd <= m.dash < m.maxStart < m.maxEnd <= |s|
      && IsDigit(s[m.minStart]) && s[m.dash] == '-' && IsDigit(s[m.maxStart])
  {
    if i > |s| then None
    else
      var a := DollarSpaceEnd(s, i);
      match NumeralEnd(s, a)
      case None => None
      case Some(ae) => RangeAfterMin(s, a, ae)
  }

  /** The rest of the range pattern, `\s*-\s*\$?\s*(\d+(?:\.\d+)?)`, once the first number `s[a..ae]` matched. */
  function RangeAfterMin(s: string, a: nat, ae: nat): (r: Option<RangeMatch>)
    requires ae <= |s|
    ensures r.Some? ==> var m := r.value;
      && m.minStart == a && m.minEnd == ae && ae <= m.dash < m.maxStart < m.maxEnd <= |s|
      && s[m.dash] == '-' && IsDigit(s[m.maxStart])
  {
    var d := RunEnd(s, ae, IsSpace);
    if d < |s| && s[d] == '-' then
      var b := DollarSpaceEnd(s, RunEnd(s, d + 1, IsSpace));
      match NumeralEnd(s, b)
      case None => None
      case Some(be) => Some(RangeMatch(a, ae, d, b, be))
    else
      None
  }

  /** What `\$?\s*` skips at `i` has that shape. */
  lemma DollarSpaceEndShape(s: string, i: nat)
    requires i <= |s|
    ensures DollarSpaces(s, i, DollarSpaceEnd(s, i))
  {
    RunEndSound(s, if i < |s| && s[i] == '$' then i + 1 else i, IsSpace);
  }

  /** Where text of that shape is followed by a digit, `\$?\s*` ends there. */
  lemma DollarSpaceEndAt(s: string, i: nat, j: nat)
    requires i <= j < |s| && DollarSpaces(s, i, j) && IsDigit(s[j])
    ensures DollarSpaceEnd(s, i) == j
  {
    if i < j && s[i] == '$' {
      RunEndIs(s, i + 1, j, IsSpace);
    } else {
      RunEndIs(s, i, j, IsSpace);
    }
  }

  /** What `\s*\$?\s*` skips at `d` has that shape. */
  lemma SpaceDollarEndShape(s: string, d: nat)
    requires d <= |s|
    ensures SpaceDollarSpaces(s, d, DollarSpaceEnd(s, RunEnd(s, d, IsSpace)))
  {
    RunEndSound(s, d, IsSpace);
    DollarSpaceEndShape(s, RunEnd(s, d, IsSpace));
  }

  /** Where text of that shape is followed by a digit, `\s*\$?\s*` ends there. */
  lemma SpaceDollarEndAt(s: string, d: nat, j: nat)
    requires d <= j < |s| && SpaceDollarSpaces(s, d, j) && IsDigit(s[j])
    ensures DollarSpaceEnd(s, RunEnd(s, d, IsSpace)) == j
  {
    var d1 := RunEnd(s, d, IsSpace);
    RunEndSound(s, d, IsSpace);
    assert d1 <= j;
    if d1 < j {
      assert s[d1] == '$';
      forall k | d1 < k < j ensures IsSpace(s[k]) {
        assert s[k] != '$';
      }
    }
    DollarSpaceEndAt(s, d1, j);
  }

  /** Every match `RangeAt` reports is a match of the range pattern. */
  lemma RangeAtSound(s: string, i: nat)
    ensures RangeAt(s, i).Some? ==> IsRangeMatch(s, i, RangeAt(s, i).value)
  {
    if RangeAt(s, i).Some? {
      var a := DollarSpaceEnd(s, i);
      var ae := NumeralEnd(s, a).value;
      DollarSpaceEndShape(s, i);
      NumeralEndSound(s, a);
      assert MinPart(s, i, RangeAt(s, i).value);
      RangeAfterMinSound(s, a, ae);
    }
  }

  /** What follows the first number in a reported match is the rest of the range pattern. */
  lemma RangeAfterMinSound(s: string, a: nat, ae: nat)
    requires ae <= |s| && RangeAfterMin(s, a, ae).Some?
    ensures RangeAfterMin(s, a, ae).value.minStart == a && RangeAfterMin(s, a, ae).value.minEnd == ae
    ensures MaxPart(s, RangeAfterMin(s, a, ae).value)
  {
    var d := RunEnd(s, ae, IsSpace);
    var b := DollarSpaceEnd(s, RunEnd(s, d + 1, IsSpace));
    var be := NumeralEnd(s, b).value;
    assert RangeAfterMin(s, a, ae).value == RangeMatch(a, ae, d, b, be);
    RunEndSound(s, ae, IsSpace);
    SpaceDollarEndShape(s, d + 1);
    NumeralEndSound(s, b);
  }

  /** Every match of the range pattern at `i` is the one `RangeAt` reports. */
  lemma RangeAtComplete(s: string, i: nat, m: RangeMatch)
    ensures IsRangeMatch(s, i, m) ==> RangeAt(s, i) == Some(m)
  {
    if IsRangeMatch(s, i, m) {
      MinPartAt(s, i, m);
      MaxPartAt(s, m);
    }
  }

  /** The first number of a match is where `RangeAt` finds it. */
  lemma MinPartAt(s: string, i: nat, m: RangeMatch)
    requires MinPart(s, i, m)
    ensures DollarSpaceEnd(s, i) == m.minStart && NumeralEnd(s, m.minStart) == Some(m.minEnd)
  {
    assert s[m.minStart..m.minEnd][0] == s[m.minStart];
    DollarSpaceEndAt(s, i, m.minStart);
    NumeralEndIs(s, m.minStart, m.minEnd);
  }

  /** The dash and the second number of a match are where `RangeAfterMin` finds them. */
  lemma MaxPartAt(s: string, m: RangeMatch)
    requires MaxPart(s, m)
    ensures RangeAfterMin(s, m.minStart, m.minEnd) == Some(m)
  {
    RunEndIs(s, m.minEnd, m.dash, IsSpace);
    assert IsDigit(s[m.maxStart]) by {
      assert s[m.maxStart..m.maxEnd][0] == s[m.maxStart];
    }
    SpaceDollarEndAt(s, m.dash + 1, m.maxStart);
    NumeralEndIs(s, m.maxStart, m.maxEnd);
    RangeAfterMinIs(s, m);
  }

  /** `RangeAfterMin` reports `m` once each of its steps lands where `m` says. */
  lemma RangeAfterMinIs(s: string, m: RangeMatch)
    requires m.minEnd <= m.dash < |s| && s[m.dash] == '-'
    requires RunEnd(s, m.minEnd, IsSpace) == m.dash
    requires DollarSpaceEnd(s, RunEnd(s, m.dash + 1, IsSpace)) == m.maxStart
    requires NumeralEnd(s, m.maxStart) == Some(m.maxEnd)
    ensures RangeAfterMin(s, m.minStart, m.minEnd) == Some(m)
  {}

  /** `\$?\s*(\d+(?:\.\d+)?)` tried at position `i`: where its number lies. */
  function SingleAt(s: string, i: nat): (r: Option<(nat, nat)>)
    ensures r.Some? ==> i <= r.value.0 < r.value.1 <= |s|
    ensures i < |s| && IsDigit(s[i]) ==> r.Some? && r.value.0 == i
  {
    if i > |s| then None
    else
      var a := DollarSpaceEnd(s, i);
      match NumeralEnd(s, a)
      case None => None
      case Some(e) => Some((a, e))
  }

  /** The single-number pattern skips no digit before its number. */
  lemma SingleAtSound(s: string, i: nat)
    requires SingleAt(s, i).Some?
    ensures forall k :: i <= k < SingleAt(s, i).value.0 ==> !IsDigit(s[k])
  {
    DollarSpaceEndSound(s, i);
  }

  /** The range pattern matches somewhere in `c`. */
  ghost predicate HasRange(c: string) {
    exists i: nat, m :: IsRangeMatch(c, i, m)
  }

  /** `k` is the position of the first digit of `c`. */
  ghost predicate FirstDigitAt(c: string, k: nat) {
    k < |c| && IsDigit(c[k]) && forall j :: 0 <= j < k ==> !IsDigit(c[j])
  }

  /** `BillRateParser.parse`; never fails: every path ends in a range. */
  function Parse(billRate: Option<string>): (r: RateRange)
    ensures r.minBillRate.Some? ==> r.maxBillRate.Some?
    ensures r.minBillRate.Some? ==> IsNumeral(r.minBillRate.value)
    ensures r.maxBillRate.Some? ==> IsNumeral(r.maxBillRate.value)
    ensures billRate.None? || AllSpace(billRate.value) ==> r == RateRange(None, None)
  {
    match billRate
    case None => RateRange(None, None)
    case Some(text) => ParseCleaned(Strip(text))
  }

  /** The cases of `parse` after `bill_rate.strip()`, in their order. */
  function ParseCleaned(cleaned: string): (r: RateRange)
    ensures r.minBillRate.Some? ==> r.maxBillRate.Some?
    ensures r.minBillRate.Some? ==> IsNumeral(r.minBillRate.value)
    ensures r.maxBillRate.Some? ==> IsNumeral(r.maxBillRate.value)
    ensures cleaned == [] ==> r == RateRange(None, None)
  {
    if cleaned == [] then RateRange(None, None)
    else
      match FirstMatch(cleaned, 0, RangeAt)
      case Some((k, m)) =>
        RangeAtSound(cleaned, k);
        RateRange(Some(cleaned[m.minStart..m.minEnd]), Some(cleaned[m.maxStart..m.maxEnd]))
      case None =>
        match FirstMatch(cleaned, 0, SingleAt)
        case Some((_, (a, e))) =>
          NumeralEndSound(cleaned, a);
          RateRange(None, Some(cleaned[a..e]))
        case None => RateRange(None, None)
  }

  /** `BillRateParser.parse_batch`: one result per input, in order. */
  function ParseBatch(billRates: seq<Option<string>>): (r: seq<RateRange>)
    ensures |r| == |billRates|
    ensures forall i :: 0 <= i < |billRates| ==> r[i] == Parse(billRates[i])
  {
    seq(|billRates|, i requires 0 <= i < |billRates| => Parse(billRates[i]))
  }

  /** The module-level `parse_bill_rate`. */
  function ParseBillRate(billRate: Option<string>): (r: RateRange)
    ensures r == Parse(billRate)
  {
    Parse(billRate)
  }

  // ------------------------------------------------------------ properties

  /** Whitespace is never a digit, so the digits of a text survive `strip()`. */
  lemma DigitsSurviveStrip(text: string)
    ensures HasDigit(Strip(text)) <==> HasDigit(text)
  {
    var c := Strip(text);
    var lo := StripStart(text);
    if HasDigit(text) {
      var k :| 0 <= k < |text| && IsDigit(text[k]);
      assert !IsSpace(text[k]);
      assert c[k - lo] == text[k];
    }
    if HasDigit(c) {
      var k :| 0 <= k < |c| && IsDigit(c[k]);
      assert text[lo + k] == c[k];
    }
  }

  /** The leftmost match of the range pattern starts at `k` and is `m`. */
  ghost predicate LeftmostRange(c: string, k: nat, m: RangeMatch) {
    IsRangeMatch(c, k, m) && forall j: nat, m' :: j < k ==> !IsRangeMatch(c, j, m')
  }

  /** Wherever the range pattern matches, it has a leftmost match. */
  lemma LeftmostRangeExists(c: string) returns (k: nat, m: RangeMatch)
    requires HasRange(c)
    ensures LeftmostRange(c, k, m)
  {
    var i: nat, m0 :| IsRangeMatch(c, i, m0);
    RangeAtComplete(c, i, m0);
    var hit := FirstMatch(c, 0, RangeAt).value;
    k, m := hit.0, hit.1;
    RangeAtSound(c, k);
    forall j: nat, m' | j < k ensures !IsRangeMatch(c, j, m') {
      NoRangeAtNoMatch(c, j);
    }
  }

  /** Where `RangeAt` reports nothing, the range pattern does not match. */
  lemma NoRangeAtNoMatch(c: string, j: nat)
    requires RangeAt(c, j).None?
    ensures forall m' :: !IsRangeMatch(c, j, m')
  {
    forall m' ensures !IsRangeMatch(c, j, m') {
      RangeAtComplete(c, j, m');
    }
  }

  /**
   * A dash-separated pair anywhere in the cleaned text decides the result:
   * the minimum is the first number of the leftmost pair and the maximum the
   * second, in the order they are written.
   */
  lemma ParseRange(text: string, k: nat, m: RangeMatch)
    requires LeftmostRange(Strip(text), k, m)
    ensures var c := Strip(text); Parse(Some(text)) == RateRange(Some(c[m.minStart..m.minEnd]), Some(c[m.maxStart..m.maxEnd]))
  {
    ParseCleanedRange(Strip(text), k, m);
  }

  lemma ParseCleanedRange(c: string, k: nat, m: RangeMatch)
    requires LeftmostRange(c, k, m)
    ensures ParseCleaned(c) == RateRange(Some(c[m.minStart..m.minEnd]), Some(c[m.maxStart..m.maxEnd]))
  {
    FirstRangeIs(c, k, m);
    assert c[m.minStart..m.minEnd][0] == c[m.minStart];
  }

  /** `re.search` with the range pattern finds the leftmost match. */
  lemma FirstRangeIs(c: string, k: nat, m: RangeMatch)
    requires LeftmostRange(c, k, m)
    ensures FirstMatch(c, 0, RangeAt) == Some((k, m))
  {
    RangeAtComplete(c, k, m);
    assert k <= |c|;
    forall j | 0 <= j < k ensures RangeAt(c, j).None? {
      NoMatchNoRangeAt(c, j);
    }
    FirstMatchIs(c, 0, RangeAt, k);
  }

  /** Where the range pattern does not match, `RangeAt` reports nothing. */
  lemma NoMatchNoRangeAt(c: string, j: nat)
    requires forall m' :: !IsRangeMatch(c, j, m')
    ensures RangeAt(c, j).None?
  {
    RangeAtSound(c, j);
  }

  /** A range match holds a digit. */
  lemma RangeHasDigit(c: string, i: nat)
    requires RangeAt(c, i).Some?
    ensures HasDigit(c)
  {
    var m := RangeAt(c, i).value;
    RangeAtSound(c, i);
    assert c[m.minStart..m.minEnd][0] == c[m.minStart];
  }

  /** A single-number match holds a digit. */
  lemma SingleHasDigit(c: string, i: nat)
    requires SingleAt(c, i).Some?
    ensures HasDigit(c)
  {
    var (a, e) := SingleAt(c, i).value;
    assert c[a..e][0] == c[a];
  }

  /**
   * Without a dash-separated pair, the number at the first digit of the text
   * is the maximum, and no minimum is inferred from it.
   */
  lemma ParseSingle(text: string, k: nat)
    requires !HasRange(Strip(text)) && FirstDigitAt(Strip(text), k)
    ensures NumeralEnd(Strip(text), k).Some?
    ensures Parse(Some(text)) == RateRange(None, Some(Strip(text)[k..NumeralEnd(Strip(text), k).value]))
  {
    ParseCleanedSingle(Strip(text), k);
  }

  lemma ParseCleanedSingle(c: string, k: nat)
    requires !HasRange(c) && FirstDigitAt(c, k)
    ensures NumeralEnd(c, k).Some?
    ensures ParseCleaned(c) == RateRange(None, Some(c[k..NumeralEnd(c, k).value]))
  {
    forall i | 0 <= i <= |c| ensures RangeAt(c, i).None? {
      RangeAtSound(c, i);
    }
    assert SingleAt(c, k).Some?;
    var hit := FirstMatch(c, 0, SingleAt).value;
    var a, e := hit.1.0, hit.1.1;
    assert SingleAt(c, hit.0) == Some((a, e));
    assert hit.0 <= k;
    assert IsDigit(c[a]) by { assert c[a..e][0] == c[a]; }
    assert a == k by {
      SingleAtSound(c, hit.0);
      assert !IsDigit(c[k]) || a <= k;
    }
    assert NumeralEnd(c, a) == Some(e) by {
      assert DollarSpaceEnd(c, hit.0) == a;
    }
  }

  /** Every text with a digit has a first one, so `ParseSingle` covers all digit-bearing texts without a pair. */
  lemma FirstDigitExists(text: string) returns (k: nat)
    requires HasDigit(text)
    ensures FirstDigitAt(Strip(text), k)
  {
    DigitsSurviveStrip(text);
    var c := Strip(text);
    var d :| 0 <= d < |c| && IsDigit(c[d]);
    k := FirstDigit(c, d);
  }

  /** The position of the first digit of `c`, given that `c[d]` is one. */
  function FirstDigit(c: string, d: nat): (k: nat)
    requires d < |c| && IsDigit(c[d])
    ensures k <= d && FirstDigitAt(c, k)
  {
    if exists j :: 0 <= j < d && IsDigit(c[j]) then
      var j :| 0 <= j < d && IsDigit(c[j]);
      FirstDigit(c, j)
    else
      d
  }

  /** A text without digits has neither bound. */
  lemma ParseNoDigit(text: string)
    requires !HasDigit(text)
    ensures Parse(Some(text)) == RateRange(None, None)
  {
    var c := Strip(text);
    DigitsSurviveStrip(text);
    forall i | 0 <= i <= |c| ensures RangeAt(c, i).None? {
      if RangeAt(c, i).Some? { RangeHasDigit(c, i); }
    }
    forall i | 0 <= i <= |c| ensures SingleAt(c, i).None? {
      if SingleAt(c, i).Some? { SingleHasDigit(c, i); }
    }
  }

  /** The range pattern needs a dash. */
  lemma NoDashNoRange(c: string)
    requires '-' !in c
    ensures !HasRange(c)
  {
    forall i: nat, m: RangeMatch ensures !IsRangeMatch(c, i, m) {
      if m.dash < |c| {
        assert c[m.dash] != '-';
      }
    }
  }

  /** `$x-$y` then a text that does not continue `y`, already stripped. */
  lemma CleanedDollarRange(x: string, y: string, t: string)
    requires x != [] && AllDigits(x) && y != [] && AllDigits(y) && EndsNumber(t)
    ensures ParseCleaned("$" + x + "-$" + y + t) == RateRange(Some(x), Some(y))
  {
    var c := "$" + x + "-$" + y + t;
    var ae, be := 1 + |x|, 3 + |x| + |y|;
    assert c[1..ae] == x;
    assert c[ae + 2..be] == y;
    assert c[0] == '$' && c[ae] == '-' && c[ae + 1] == '$';
    assert be == |c| || c[be] == t[0];
    DigitsAreNumeral(x);
    DigitsAreNumeral(y);
    DollarRangeAt(c, ae, be);
  }

  /** `$`, a numeral ending at `ae`, `-$`, a numeral ending at `be`, then nothing that continues it: a range at 0. */
  lemma DollarRangeAt(c: string, ae: nat, be: nat)
    requires 1 < ae && ae + 2 < be <= |c|
    requires c[0] == '$' && c[ae] == '-' && c[ae + 1] == '$'
    requires IsNumeral(c[1..ae]) && IsNumeral(c[ae + 2..be])
    requires be == |c| || (!IsDigit(c[be]) && c[be] != '.')
    ensures RangeAt(c, 0) == Some(RangeMatch(1, ae, ae, ae + 2, be))
    ensures ParseCleaned(c) == RateRange(Some(c[1..ae]), Some(c[ae + 2..be]))
  {
    DollarNumeralAt(c, 0, ae);
    DashDollarNumeralAt(c, ae, be);
  }

  /** `$` at `i`, then a numeral ending at `e` that cannot be extended: `\$?\s*` stops at the numeral. */
  lemma DollarNumeralAt(c: string, i: nat, e: nat)
    requires i + 1 < e <= |c| && c[i] == '$'
    requires IsNumeral(c[i + 1..e])
    requires e == |c| || (!IsDigit(c[e]) && c[e] != '.')
    ensures DollarSpaceEnd(c, i) == i + 1 && NumeralEnd(c, i + 1) == Some(e)
  {
    assert c[i + 1..e][0] == c[i + 1];
    RunEndIs(c, i + 1, i + 1, IsSpace);
    NumeralEndIs(c, i + 1, e);
  }

  /** `-$` right after the first number, then the second number: the rest of the range pattern. */
  lemma DashDollarNumeralAt(c: string, ae: nat, be: nat)
    requires 1 < ae && ae + 2 < be <= |c|
    requires c[ae] == '-' && c[ae + 1] == '$'
    requires IsNumeral(c[ae + 2..be])
    requires be == |c| || (!IsDigit(c[be]) && c[be] != '.')
    ensures RangeAfterMin(c, 1, ae) == Some(RangeMatch(1, ae, ae, ae + 2, be))
  {
    RunEndIs(c, ae, ae, IsSpace);
    RunEndIs(c, ae + 1, ae + 1, IsSpace);
    DollarNumeralAt(c, ae + 1, be);
  }

  /** `$x` then a text without a dash that does not continue `x`, already stripped. */
  lemma CleanedDollarSingle(x: string, t: string)
    requires x != [] && AllDigits(x) && '-' !in t && EndsNumber(t)
    ensures ParseCleaned("$" + x + t) == RateRange(None, Some(x))
  {
    var c := "$" + x + t;
    assert '-' !in c by {
      assert forall k :: 0 <= k < |c| ==> c[k] == '$' || c[k] in x || c[k] in t;
    }
    NoDashNoRange(c);
    assert c[1] == x[0];
    assert FirstDigitAt(c, 1);
    assert c[1..1 + |x|] == x;
    assert 1 + |x| == |c| || c[1 + |x|] == t[0];
    DigitsAreNumeral(x);
    NumeralEndIs(c, 1, 1 + |x|);
    ParseCleanedSingle(c, 1);
  }

  /** `"$70-$85"`, `"$70-$85/hr"`: the two whole numbers, in order. */
  lemma ParseDollarRange(x: string, y: string, t: string)
    requires x != [] && AllDigits(x) && y != [] && AllDigits(y) && EndsNumber(t)
    ensures Parse(Some("$" + x + "-$" + y + t)) == RateRange(Some(x), Some(y))
  {
    var p := "$" + x + "-$" + y;
    assert p[0] == '$' && p[|p| - 1] == y[|y| - 1];
    StripKeepsPrefix(p, t);
    var n: nat :| n <= |t| && Strip(p + t) == p + t[..n];
    assert EndsNumber(t[..n]);
    CleanedDollarRange(x, y, t[..n]);
    assert "$" + x + "-$" + y + t == p + t;
    assert "$" + x + "-$" + y + t[..n] == p + t[..n];
  }

  /** `"$70"`, `"$80 MAX"`: the number is the maximum, and there is no minimum. */
  lemma ParseDollarSingle(x: string, t: string)
    requires x != [] && AllDigits(x) && '-' !in t && EndsNumber(t)
    ensures Parse(Some("$" + x + t)) == RateRange(None, Some(x))
  {
    var p := "$" + x;
    assert p[0] == '$' && p[|p| - 1] == x[|x| - 1];
    StripKeepsPrefix(p, t);
    var n: nat :| n <= |t| && Strip(p + t) == p + t[..n];
    assert EndsNumber(t[..n]);
    assert '-' !in t[..n] by {
      assert forall k :: 0 <= k < n ==> t[..n][k] == t[k];
    }
    CleanedDollarSingle(x, t[..n]);
  }

  // The examples of the docstring of `parse`.

  lemma ExampleRange()
    ensures Parse(Some("$70-$85")) == RateRange(Some("70"), Some("85"))
  {
    assert "$" + "70" + "-$" + "85" + "" == "$70-$85";
    ParseDollarRange("70", "85", "");
  }

  lemma ExampleSingle()
    ensures Parse(Some("$70")) == RateRange(None, Some("70"))
  {
    assert "$" + "70" + "" == "$70";
    ParseDollarSingle("70", "");
  }

  lemma ExampleMax()
    ensures Parse(Some("$80 MAX")) == RateRange(None, Some("80"))
  {
    assert "$" + "80" + " MAX" == "$80 MAX";
    ParseDollarSingle("80", " MAX");
  }
  /** `"70 - $ 85"`: whitespace around the dash and after the dollar sign. */
  lemma ExamplePaddedRange()
    ensures Parse(Some("70 - $ 85")) == RateRange(Some("70"), Some("85"))
  {
    var c := "70 - $ 85";
    StripOfTrimmed(c);
    PaddedRangeAt();
    assert c[0..2] == "70" && c[7..9] == "85";
  }

  /** The range matcher on `"70 - $ 85"`, step by step. */
  lemma PaddedRangeAt()
    ensures RangeAt("70 - $ 85", 0) == Some(RangeMatch(0, 2, 3, 7, 9))
  {
    var c := "70 - $ 85";
    RunEndIs(c, 0, 2, IsDigit);
    RunEndIs(c, 2, 3, IsSpace);
    RunEndIs(c, 4, 5, IsSpace);
    RunEndIs(c, 6, 7, IsSpace);
    RunEndIs(c, 7, 9, IsDigit);
  }

  /** `"1.5-2.5"`: two decimal numbers. */
  lemma ExampleDecimalRange()
    ensures Parse(Some("1.5-2.5")) == RateRange(Some("1.5"), Some("2.5"))
  {
    var c := "1.5-2.5";
    StripOfTrimmed(c);
    DecimalRangeAt();
    assert c[0..3] == "1.5" && c[4..7] == "2.5";
  }

  /** The range matcher on `"1.5-2.5"`, step by step. */
  lemma DecimalRangeAt()
    ensures RangeAt("1.5-2.5", 0) == Some(RangeMatch(0, 3, 3, 4, 7))
  {
    var c := "1.5-2.5";
    RunEndIs(c, 0, 1, IsDigit);
    RunEndIs(c, 2, 3, IsDigit);
    RunEndIs(c, 3, 3, IsSpace);
    RunEndIs(c, 4, 4, IsSpace);
    RunEndIs(c, 4, 5, IsDigit);
    RunEndIs(c, 6, 7, IsDigit);
  }

  /** Without a dash in the input, no minimum is ever reported. */
  lemma ParseNoDash(text: string)
    requires '-' !in text
    ensures Parse(Some(text)).minBillRate.None?
  {
    var c := Strip(text);
    var lo := StripStart(text);
    assert '-' !in c by {
      forall k | 0 <= k < |c| ensures c[k] != '-' {
        assert c[k] == text[lo + k];
      }
    }
    NoDashNoRange(c);
    if HasDigit(text) {
      var k := FirstDigitExists(text);
      ParseSingle(text, k);
    } else {
      ParseNoDigit(text);
    }
  }
}
