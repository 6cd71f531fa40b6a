/**
 * `FallbackExtractor.extract_bill_rate` of services/ai/fallback_extractor.py:
 * six bill-rate patterns, tried in order on the lower-cased text, each with
 * its own formatter, followed by the `$<digits>.00` normalisation.
 *
 * Every pattern is a hand-written matcher at one position. The greedy
 * choices of the patterns never need to be undone: each `\s*`, `[:\s]*` or
 * `[:\s-]*` run is followed by a character its class excludes, and a shorter
 * number is always followed by a digit or a dot, which nothing after it in
 * the pattern accepts. So the greedy match is the match Python finds.
 */
module FallbackBillRate {
  import opened Wrappers
  import opened Text

  predicate IsColonSpaceDash(c: char) {
    c == ':' || IsSpace(c) || c == '-'
  }

  /** What a pattern captured, by formatter. */
  datatype BillMatch =
    | MaxRate(n: string)                        // formatted "$n MAX"
    | RangeRate(lo: string, hi: string, hr: bool) // formatted "$lo-$hi", "/hr" when `hr`
    | SingleRate(n: string, hr: bool)            // formatted "$n", "/hr" when `hr`

  /** End of `bill\s*rate` at `i`. */
  function BillRateLead(s: string, i: nat): (r: Option<nat>)
    ensures r.Some? ==> i + 8 <= r.value <= |s| && LitAt(s, i, "bill")
  {
    if LitAt(s, i, "bill") then
      var j := RunEnd(s, i + 4, IsSpace);
      if LitAt(s, j, "rate") then Some(j + 4) else None
    else None
  }

  /** End of the greedy `\s*(?:/hr)?` after `e`. */
  function HrEnd(s: string, e: nat): (r: nat)
    requires e <= |s|
    ensures e <= r <= |s|
  {
    var t := RunEnd(s, e, IsSpace);
    if LitAt(s, t, "/hr") then t + 3 else t
  }

  /** `\$?\s*(\d+(?:\.\d+)?)` at `q`: where its number lies, which is always a numeral. */
  function AmountAt(s: string, q: nat): (r: Option<(nat, nat)>)
    requires q <= |s|
    ensures r.Some? ==> q <= r.value.0 < r.value.1 <= |s| && IsNumeral(s[r.value.0..r.value.1])
  {
    var a := DollarSpaceEnd(s, q);
    match NumeralEnd(s, a)
    case None => None
    case Some(e) => NumeralEndSound(s, a); Some((a, e))
  }

  /** Pattern 1, `bill\s*rate[:\s-]*max\s*(?:confirmed\s*)?\$?\s*(\d+(?:\.\d+)?)`. */
  function BillP1At(s: string, i: nat): (r: Option<BillMatch>)
    ensures r.Some? ==> LitAt(s, i, "bill") && r.value.MaxRate? && IsNumeral(r.value.n)
  {
    match BillRateLead(s, i)
    case None => None
    case Some(e0) =>
      var r := RunEnd(s, e0, IsColonSpaceDash);
      if LitAt(s, r, "max") then
        var q := RunEnd(s, r + 3, IsSpace);
        var q2 := if LitAt(s, q, "confirmed") then RunEnd(s, q + 9, IsSpace) else q;
        match AmountAt(s, q2)
        case None => None
        case Some((a, e)) => Some(MaxRate(s[a..e]))
      else None
  }

  /** Pattern 2, `max\s*bill\s*rate[:\s]*\$?\s*(\d+(?:\.\d+)?)`. */
  function BillP2At(s: string, i: nat): (r: Option<BillMatch>)
    ensures r.Some? ==> LitAt(s, i, "max") && r.value.MaxRate? && IsNumeral(r.value.n)
  {
    if LitAt(s, i, "max") then
      match BillRateLead(s, RunEnd(s, i + 3, IsSpace))
      case None => None
      case Some(e0) =>
        match AmountAt(s, RunEnd(s, e0, IsColonSpace))
        case None => None
        case Some((a, e)) => Some(MaxRate(s[a..e]))
    else None
  }

  /** Pattern 3, `bill\s*rate[:\s-]*\$?\s*(\d+(?:\.\d+)?)\s*-\s*\$?\s*(\d+(?:\.\d+)?)\s*(?:/hr)?`. */
  function BillP3At(s: string, i: nat): (r: Option<BillMatch>)
    ensures r.Some? ==> LitAt(s, i, "bill") && r.value.RangeRate? && IsNumeral(r.value.lo) && IsNumeral(r.value.hi)
  {
    match BillRateLead(s, i)
    case None => None
    case Some(e0) =>
      match AmountAt(s, RunEnd(s, e0, IsColonSpaceDash))
      case None => None
      case Some((a, ae)) =>
        var d := RunEnd(s, ae, IsSpace);
        if d < |s| && s[d] == '-' then
          match AmountAt(s, RunEnd(s, d + 1, IsSpace))
          case None => None
          case Some((b, be)) =>
            var end := HrEnd(s, be);
            Some(RangeRate(s[a..ae], s[b..be], Contains(s[i..end], "/hr")))
        else None
  }

  /** Pattern 4, `bill\s*rate[:\s-]*\$?\s*(\d+(?:\.\d+)?)\s*max`. */
  function BillP4At(s: string, i: nat): (r: Option<BillMatch>)
    ensures r.Some? ==> LitAt(s, i, "bill") && r.value.MaxRate? && IsNumeral(r.value.n)
  {
    match BillRateLead(s, i)
    case None => None
    case Some(e0) =>
      match AmountAt(s, RunEnd(s, e0, IsColonSpaceDash))
      case None => None
      case Some((a, e)) => if LitAt(s, RunEnd(s, e, IsSpace), "max") then Some(MaxRate(s[a..e])) else None
  }

  /** Pattern 5, `bill\s*rate[:\s-]*\$?\s*(\d+(?:\.\d+)?)\s*(?:/hr)?`. */
  function BillP5At(s: string, i: nat): (r: Option<BillMatch>)
    ensures r.Some? ==> LitAt(s, i, "bill") && r.value.SingleRate? && IsNumeral(r.value.n)
  {
    match BillRateLead(s, i)
    case None => None
    case Some(e0) =>
      match AmountAt(s, RunEnd(s, e0, IsColonSpaceDash))
      case None => None
      case Some((a, e)) => Some(SingleRate(s[a..e], Contains(s[i..HrEnd(s, e)], "/hr")))
  }

  /** Pattern 6, `bill\s*rate[:\s]*(\d+)\s*-\s*(\d+)`. */
  function BillP6At(s: string, i: nat): (r: Option<BillMatch>)
    ensures r.Some? ==> LitAt(s, i, "bill") && r.value.RangeRate? && !r.value.hr && IsNumeral(r.value.lo) && IsNumeral(r.value.hi)
  {
    match BillRateLead(s, i)
    case None => None
    case Some(e0) =>
      var a := RunEnd(s, e0, IsColonSpace);
      if a < |s| && IsDigit(s[a]) then
        var ae := RunEnd(s, a, IsDigit);
        var d := RunEnd(s, ae, IsSpace);
        if d < |s| && s[d] == '-' then
          var b := RunEnd(s, d + 1, IsSpace);
          if b < |s| && IsDigit(s[b]) then
            DigitRunNumeral(s, a);
            DigitRunNumeral(s, b);
            Some(RangeRate(s[a..ae], s[b..RunEnd(s, b, IsDigit)], false))
          else None
        else None
      else None
  }

  /** The pattern list, in its priority order. */
  function BillRatePatterns(): seq<(string, nat) -> Option<BillMatch>> {
    [BillP1At, BillP2At, BillP3At, BillP4At, BillP5At, BillP6At]
  }

  function HrSuffix(hr: bool): string {
    if hr then "/hr" else ""
  }

  /** The formatters of the six patterns. */
  function Format(m: BillMatch): (r: string)
    ensures r != [] && r[0] == '$'
    ensures AmountsAreNumerals(m) ==> (m.MaxRate? <==> r[|r| - 1] == 'X')
    ensures AmountsAreNumerals(m) && !m.MaxRate? ==> (m.hr <==> r[|r| - 1] == 'r')
  {
    match m
    case MaxRate(n) => "$" + n + " MAX"
    case RangeRate(lo, hi, hr) => "$" + lo + "-$" + hi + HrSuffix(hr)
    case SingleRate(n, hr) => "$" + n + HrSuffix(hr)
  }

  // ------------------------------------------------- the ".00" normalisation

  /** `\$(\d+)\.00` at the start of `s`, as written: the length of the match and `$\1`. */
  function ZeroCentsAsWrittenAt(s: string): (r: Option<(nat, string)>)
    ensures r.Some? ==> s != [] && s[0] == '$' && 4 < r.value.0 <= |s|
  {
    if s != [] && s[0] == '$' then
      var j := RunEnd(s, 1, IsDigit);
      if 1 < j && LitAt(s, j, ".00") then Some((j + 3, "$" + s[1..j])) else None
    else None
  }

  /** `re.sub(r'\$(\d+)\.00', r'$\1', result)` as written. */
  function ZeroCentsAsWritten(s: string): (r: string)
  {
    SubAll(s, ZeroCentsAsWrittenAt)
  }

  /**
   * The intended normalisation: `\$(\d+)\.00(?!\d)`, which drops ".00" only
   * when it is the whole fractional part of the amount.
   */
  function ZeroCentsAt(s: string): (r: Option<(nat, string)>)
    ensures r.Some? ==> s != [] && s[0] == '$' && 4 < r.value.0 <= |s|
  {
    if s != [] && s[0] == '$' then
      var j := RunEnd(s, 1, IsDigit);
      if 1 < j && LitAt(s, j, ".00") && (j + 3 == |s| || !IsDigit(s[j + 3])) then Some((j + 3, "$" + s[1..j]))
      else None
    else None
  }

  /** `re.sub(r'\$(\d+)\.00(?!\d)', r'$\1', result)`, the corrected rewrite. */
  function ZeroCents(s: string): (r: string)
  {
    SubAll(s, ZeroCentsAt)
  }

  /** An amount with its zero cents removed: "70.00" becomes "70"; any other amount is kept. */
  function DropZeroCents(n: string): (r: string)
    ensures |r| <= |n| && r == n[..|r|]
  {
    if HasZeroCents(n) then n[..|n| - 3] else n
  }

  /** The amount is whole digits followed by ".00". */
  predicate HasZeroCents(n: string) {
    4 <= |n| && n[|n| - 3..] == ".00" && AllDigits(n[..|n| - 3])
  }

  /**
   * An amount as the written rewrite leaves it: a ".00" right after its
   * whole digits is cut out, whatever digits follow it.
   */
  function DropZeroCentsAsWritten(n: string): (r: string)
    ensures |r| == |n| || |r| + 3 == |n|
  {
    var p := RunEnd(n, 0, IsDigit);
    if 0 < p && LitAt(n, p, ".00") then n[..p] + n[p + 3..] else n
  }

  /** The amounts of a match, each passed through `f`. */
  function MapAmounts(m: BillMatch, f: string -> string): BillMatch {
    match m
    case MaxRate(n) => MaxRate(f(n))
    case RangeRate(lo, hi, hr) => RangeRate(f(lo), f(hi), hr)
    case SingleRate(n, hr) => SingleRate(f(n), hr)
  }

  /** `extract_bill_rate`: the first pattern that matches anywhere decides; `None` when none does. */
  function ExtractBillRate(jdText: string): (r: Option<string>)
    ensures r.None? <==> forall k :: 0 <= k < 6 ==> FirstMatch(LowerStr(jdText), 0, BillRatePatterns()[k]).None?
  {
    match Cascade(LowerStr(jdText), BillRatePatterns())
    case None => None
    case Some((_, _, m)) => Some(ZeroCentsAsWritten(Format(m)))
  }

  /** `extract_bill_rate` with the intended normalisation. */
  function ExtractBillRateIntended(jdText: string): (r: Option<string>)
    ensures r.None? <==> forall k :: 0 <= k < 6 ==> FirstMatch(LowerStr(jdText), 0, BillRatePatterns()[k]).None?
  {
    match Cascade(LowerStr(jdText), BillRatePatterns())
    case None => None
    case Some((_, _, m)) => Some(ZeroCents(Format(m)))
  }

  // ------------------------------------------------------------ properties

  /** Pattern 6 is subsumed: wherever it matches, pattern 5 matches too. */
  lemma P6ImpliesP5(s: string, i: nat)
    requires BillP6At(s, i).Some?
    ensures BillP5At(s, i).Some?
  {
    var e0 := BillRateLead(s, i).value;
    var a := RunEnd(s, e0, IsColonSpace);
    RunEndSound(s, e0, IsColonSpace);
    RunEndIs(s, e0, a, IsColonSpaceDash);
    RunEndIs(s, a, a, IsSpace);
  }

  /** So pattern 6 never decides the result: some earlier pattern always matches first. */
  lemma Pattern6NeverDecides(s: string)
    requires Cascade(s, BillRatePatterns()).Some?
    ensures Cascade(s, BillRatePatterns()).value.0 != 5
  {
    var (k, i, _) := Cascade(s, BillRatePatterns()).value;
    if k == 5 {
      P6ImpliesP5(s, i);
    }
  }

  /** Each number a pattern captures is a numeral. */
  predicate AmountsAreNumerals(m: BillMatch) {
    match m
    case MaxRate(n) => IsNumeral(n)
    case RangeRate(lo, hi, _) => IsNumeral(lo) && IsNumeral(hi)
    case SingleRate(n, _) => IsNumeral(n)
  }

  /** A run of digits that starts with one is a numeral. */
  lemma DigitRunNumeral(s: string, a: nat)
    requires a < |s| && IsDigit(s[a])
    ensures IsNumeral(s[a..RunEnd(s, a, IsDigit)])
  {
    var e := RunEnd(s, a, IsDigit);
    RunEndSound(s, a, IsDigit);
    assert forall k :: 0 <= k < e - a ==> s[a..e][k] == s[a + k];
    DigitsAreNumeral(s[a..e]);
  }

  /** The formatter each pattern uses: patterns 1, 2 and 4 are MAX rates, 3 and 6 ranges, 5 a single rate. */
  lemma PatternShapes(s: string, k: nat, i: nat)
    requires k < 6 && BillRatePatterns()[k](s, i).Some?
    ensures var m := BillRatePatterns()[k](s, i).value;
      && AmountsAreNumerals(m)
      && ((k == 0 || k == 1 || k == 3) <==> m.MaxRate?)
      && ((k == 2 || k == 5) <==> m.RangeRate?)
      && (k == 4 <==> m.SingleRate?)
  {
    var pats := BillRatePatterns();
    if k == 0 { assert pats[0] == BillP1At; }
    else if k == 1 { assert pats[1] == BillP2At; }
    else if k == 2 { assert pats[2] == BillP3At; }
    else if k == 3 { assert pats[3] == BillP4At; }
    else if k == 4 { assert pats[4] == BillP5At; }
    else { assert pats[5] == BillP6At; }
  }
  /** Where the integer part of a numeral ends: at its dot, or at its end. */
  lemma NumeralIntPart(n: string) returns (p: nat)
    requires IsNumeral(n)
    ensures 1 <= p <= |n| && AllDigits(n[..p])
    ensures p < |n| ==> n[p] == '.' && p + 1 < |n| && AllDigits(n[p + 1..])
    ensures '$' !in n
  {
    p := 0;
    while p < |n| && n[p] != '.'
      invariant p <= |n| && AllDigits(n[..p])
    {
      p := p + 1;
    }
    if p < |n| {
      assert p != 0 && p != |n| - 1;
      forall k | p + 1 <= k < |n| ensures IsDigit(n[k]) {
        assert n[k] != '.';
      }
    }
    assert '$' !in n by {
      forall k | 0 <= k < |n| ensures n[k] != '$' {
        assert IsDigit(n[k]) || n[k] == '.';
      }
    }
  }
  /** The integer part of an amount written after a dollar sign ends the scan for its digits. */
  lemma IntPartRun(s: string, n: string, p: nat)
    requires 1 + |n| <= |s| && forall k :: 0 <= k < |n| ==> s[1 + k] == n[k]
    requires 1 + |n| == |s| || (!IsDigit(s[1 + |n|]) && s[1 + |n|] != '.')
    requires 1 <= p <= |n| && AllDigits(n[..p])
    requires p < |n| ==> n[p] == '.'
    ensures RunEnd(s, 1, IsDigit) == 1 + p
  {
    forall k | 1 <= k < 1 + p ensures IsDigit(s[k]) {
      assert s[k] == n[..p][k - 1];
    }
    RunEndIs(s, 1, 1 + p, IsDigit);
  }


  /** Text without a dollar sign passes both rewrites unchanged, whatever follows it. */
  lemma NoDollarKeeps(u: string, t: string)
    requires '$' !in u
    ensures ZeroCents(u + t) == u + ZeroCents(t)
    ensures ZeroCentsAsWritten(u + t) == u + ZeroCentsAsWritten(t)
  {
    assert forall j :: 0 <= j < |u| ==> (u[j..] + t)[0] == u[j];
    SubAllKeeps(u, t, ZeroCentsAt);
    SubAllKeeps(u, t, ZeroCentsAsWrittenAt);
  }

  /**
   * The normalisation on one amount: "$n" followed by text that does not
   * continue the number becomes "$" + DropZeroCents(n), and the rest is
   * normalised on its own.
   */
  lemma ZeroCentsAmount(n: string, t: string)
    requires IsNumeral(n) && EndsNumber(t)
    ensures ZeroCents("$" + n + t) == "$" + DropZeroCents(n) + ZeroCents(t)
  {
    AppendAssoc("$", n, t);
    var s := ['$'] + (n + t);
    assert s[1..] == n + t;
    assert forall k :: 0 <= k < |n| ==> s[1 + k] == n[k];
    assert 1 + |n| == |s| || s[1 + |n|] == t[0];
    var p := NumeralIntPart(n);
    IntPartRun(s, n, p);
    if HasZeroCents(n) {
      ZeroCentsAtHit(s, n, p);
      assert s[|n| + 1..] == t;
      SubAllReplace(s, ZeroCentsAt, |n| + 1, "$" + n[..|n| - 3]);
    } else {
      if ZeroCentsAt(s).Some? {
        ZeroCentsAtShape(s, n, p);
      }
      SubAllCopy(s, ZeroCentsAt);
      NoDollarKeeps(n, t);
      AppendAssoc("$", n, ZeroCents(t));
    }
  }

  /** As written, every `$<digits>.00` becomes `$<digits>`, whatever follows it. */
  lemma ZeroCentsAsWrittenHit(x: string, t: string)
    requires x != [] && AllDigits(x)
    ensures ZeroCentsAsWritten("$" + x + ".00" + t) == "$" + x + ZeroCentsAsWritten(t)
  {
    var s := "$" + x + ".00" + t;
    assert s[1..1 + |x|] == x;
    assert s[1 + |x|] == '.';
    RunEndIs(s, 1, 1 + |x|, IsDigit);
    assert LitAt(s, 1 + |x|, ".00");
    assert s[|x| + 4..] == t;
    SubAllReplace(s, ZeroCentsAsWrittenAt, |x| + 4, "$" + x);
  }

  /** The digits an amount starts with are its integer part. */
  lemma IntPartEnd(n: string, p: nat)
    requires 1 <= p <= |n| && AllDigits(n[..p])
    requires p < |n| ==> n[p] == '.'
    ensures RunEnd(n, 0, IsDigit) == p
  {
    assert forall k :: 0 <= k < p ==> n[k] == n[..p][k];
    RunEndIs(n, 0, p, IsDigit);
  }

  /** When ".00" does not follow the integer part of `n`, it does not follow it in "$n..." either. */
  lemma AsWrittenMiss(s: string, n: string, p: nat)
    requires 1 + |n| <= |s| && forall k :: 0 <= k < |n| ==> s[1 + k] == n[k]
    requires 1 + |n| == |s| || (!IsDigit(s[1 + |n|]) && s[1 + |n|] != '.')
    requires 1 <= p <= |n| && (p < |n| ==> p + 1 < |n| && AllDigits(n[p + 1..]))
    requires !LitAt(n, p, ".00")
    ensures !LitAt(s, 1 + p, ".00")
  {
    if p == |n| {
      assert 1 + p == |s| || s[1 + p + 0] != ".00"[0];
    } else if p + 2 == |n| {
      assert 1 + p + 2 == |s| || s[1 + p + 2] != ".00"[2];
    } else {
      assert s[1 + p] == n[p] && s[2 + p] == n[p + 1] && s[3 + p] == n[p + 2];
    }
  }

  /**
   * The written rewrite on one amount: "$n" followed by text that does not
   * continue the number becomes "$" + DropZeroCentsAsWritten(n), and the
   * rest is rewritten on its own.
   */
  lemma ZeroCentsAmountAsWritten(n: string, t: string)
    requires IsNumeral(n) && EndsNumber(t)
    ensures ZeroCentsAsWritten("$" + n + t) == "$" + DropZeroCentsAsWritten(n) + ZeroCentsAsWritten(t)
  {
    AppendAssoc("$", n, t);
    var s := ['$'] + (n + t);
    assert forall k :: 0 <= k < |n| ==> s[1 + k] == n[k];
    assert 1 + |n| == |s| || s[1 + |n|] == t[0];
    var p := NumeralIntPart(n);
    IntPartEnd(n, p);
    IntPartRun(s, n, p);
    assert "$" + n + t == s;
    if LitAt(n, p, ".00") {
      assert DropZeroCentsAsWritten(n) == n[..p] + n[p + 3..];
      AsWrittenCutAt(s, n, t, p);
    } else {
      assert DropZeroCentsAsWritten(n) == n;
      AsWrittenMiss(s, n, p);
      AsWrittenKeepAt(s, n, t);
    }
  }

  /** The written rewrite at "$n...", where ".00" follows the whole digits `n[..p]`: the ".00" is cut out. */
  lemma AsWrittenCutAt(s: string, n: string, t: string, p: nat)
    requires s == ['$'] + (n + t) && '$' !in n
    requires 1 <= p && p + 3 <= |n| && LitAt(n, p, ".00")
    requires RunEnd(s, 1, IsDigit) == 1 + p
    ensures ZeroCentsAsWritten(s) == "$" + (n[..p] + n[p + 3..]) + ZeroCentsAsWritten(t)
  {
    var x, y := n[..p], n[p + 3..];
    assert s[1 + p] == n[p] && s[2 + p] == n[p + 1] && s[3 + p] == n[p + 2];
    assert LitAt(s, 1 + p, ".00");
    assert s[1..1 + p] == x;
    SubAllReplace(s, ZeroCentsAsWrittenAt, p + 4, "$" + x);
    assert s[p + 4..] == y + t;
    assert forall k :: 0 <= k < |y| ==> y[k] == n[p + 3 + k];
    NoDollarKeeps(y, t);
    AppendAssoc("$" + x, y, ZeroCentsAsWritten(t));
    AppendAssoc("$", x, y);
  }

  /** The written rewrite at "$n...", where no ".00" follows the whole digits: "$n" is copied. */
  lemma AsWrittenKeepAt(s: string, n: string, t: string)
    requires s == ['$'] + (n + t) && '$' !in n
    requires !LitAt(s, RunEnd(s, 1, IsDigit), ".00")
    ensures ZeroCentsAsWritten(s) == "$" + n + ZeroCentsAsWritten(t)
  {
    SubAllCopy(s, ZeroCentsAsWrittenAt);
    assert s[1..] == n + t;
    NoDollarKeeps(n, t);
    AppendAssoc("$", n, ZeroCentsAsWritten(t));
  }

  /** The amount has zero cents exactly when ".00" ends it right after its integer part. */
  lemma HasZeroCentsAt(n: string, p: nat)
    requires 1 <= p <= |n| && AllDigits(n[..p])
    requires p < |n| ==> n[p] == '.'
    ensures HasZeroCents(n) <==> p + 3 == |n| && LitAt(n, p, ".00")
  {
    if HasZeroCents(n) {
      assert n[|n| - 3] == n[|n| - 3..][0] == '.';
      assert forall k :: 0 <= k < |n| - 3 ==> n[k] == n[..|n| - 3][k];
      assert p == |n| - 3;
      assert n[p] == n[|n| - 3..][0] && n[p + 1] == n[|n| - 3..][1] && n[p + 2] == n[|n| - 3..][2];
    }
    if p + 3 == |n| && LitAt(n, p, ".00") {
      assert n[|n| - 3..][0] == n[p] && n[|n| - 3..][1] == n[p + 1] && n[|n| - 3..][2] == n[p + 2];
      assert n[..|n| - 3] == n[..p];
    }
  }

  /**
   * The two ways of dropping cents differ on a numeral exactly when ".00"
   * follows its integer part and more digits follow the ".00".
   */
  lemma DropsDiffer(n: string)
    requires IsNumeral(n)
    ensures DropZeroCentsAsWritten(n) != DropZeroCents(n)
      <==> RunEnd(n, 0, IsDigit) + 3 < |n| && LitAt(n, RunEnd(n, 0, IsDigit), ".00")
  {
    var p := NumeralIntPart(n);
    IntPartEnd(n, p);
    HasZeroCentsAt(n, p);
    if LitAt(n, p, ".00") && p + 3 == |n| {
      assert n[p + 3..] == [];
      assert n[..p] + [] == n[..|n| - 3];
    }
  }

  /** The corrected rewrite removes the zero cents of an amount that has them. */
  lemma ZeroCentsAtHit(s: string, n: string, p: nat)
    requires 1 + |n| <= |s| && s[0] == '$' && forall k :: 0 <= k < |n| ==> s[1 + k] == n[k]
    requires 1 + |n| == |s| || (!IsDigit(s[1 + |n|]) && s[1 + |n|] != '.')
    requires 1 <= p <= |n| && AllDigits(n[..p])
    requires p < |n| ==> n[p] == '.'
    requires RunEnd(s, 1, IsDigit) == 1 + p
    requires HasZeroCents(n)
    ensures ZeroCentsAt(s) == Some((|n| + 1, "$" + n[..|n| - 3]))
  {
    HasZeroCentsAt(n, p);
    assert s[1 + p] == n[p] && s[2 + p] == n[p + 1] && s[3 + p] == n[p + 2];
    assert LitAt(s, 1 + p, ".00");
    assert s[1..1 + p] == n[..p];
  }

  /** The corrected rewrite matches at the start of "$n..." only when `n` has zero cents. */
  lemma ZeroCentsAtShape(s: string, n: string, p: nat)
    requires 1 + |n| <= |s| && forall k :: 0 <= k < |n| ==> s[1 + k] == n[k]
    requires 1 + |n| == |s| || (!IsDigit(s[1 + |n|]) && s[1 + |n|] != '.')
    requires 1 <= p <= |n| && AllDigits(n[..p])
    requires p < |n| ==> n[p] == '.' && p + 1 < |n| && AllDigits(n[p + 1..])
    requires RunEnd(s, 1, IsDigit) == 1 + p
    requires ZeroCentsAt(s).Some?
    ensures HasZeroCents(n)
  {
    var j := 1 + p;
    assert LitAt(s, j, ".00") && (j + 3 == |s| || !IsDigit(s[j + 3]));
    assert s[j + 0] == ".00"[0] && s[j + 1] == ".00"[1] && s[j + 2] == ".00"[2];
    assert p < |n|;
    // The digits after the dot run to the end of `n`, and also stop after the two zeros.
    forall k | j + 1 <= k < 1 + |n| ensures IsDigit(s[k]) {
      assert s[1 + (k - 1)] == n[k - 1] == n[p + 1..][k - 1 - (p + 1)];
    }
    RunEndIs(s, j + 1, 1 + |n|, IsDigit);
    forall k | j + 1 <= k < j + 3 ensures IsDigit(s[k]) {
      assert s[k] == ".00"[k - j];
    }
    RunEndIs(s, j + 1, j + 3, IsDigit);
    assert p + 3 == |n|;
    assert n[|n| - 3..] == ".00";
    assert n[..|n| - 3] == n[..p];
  }

  /** A suffix without a dollar sign is its own rewrite, by either pattern. */
  lemma NoDollarFixed(u: string)
    requires '$' !in u
    ensures ZeroCents(u) == u && ZeroCentsAsWritten(u) == u
  {
    NoDollarKeeps(u, []);
    assert u + [] == u;
  }

  /** Splitting the "-$" of a range, stated once: the solver finds it slowly inside the calculations below. */
  lemma DashDollar(x: string, y: string)
    ensures x + "-$" + y == x + "-" + ("$" + y)
  {}

  /** Regrouping a five-part concatenation, for the same reason. */
  lemma Regroup(a: string, b: string, c: string, d: string, e: string)
    ensures a + b + c + d + e == (a + b) + (c + (d + e))
  {}

  /** The corrected rewrite of a formatted rate removes only the zero cents of its amounts. */
  lemma FormatNormalized(m: BillMatch)
    requires AmountsAreNumerals(m)
    ensures ZeroCents(Format(m)) == Format(MapAmounts(m, DropZeroCents))
  {
    match m
    case MaxRate(n) =>
      NoDollarFixed(" MAX");
      ZeroCentsAmount(n, " MAX");
    case SingleRate(n, hr) =>
      NoDollarFixed(HrSuffix(hr));
      ZeroCentsAmount(n, HrSuffix(hr));
    case RangeRate(lo, hi, hr) =>
      var h := HrSuffix(hr);
      var lo', hi' := DropZeroCents(lo), DropZeroCents(hi);
      calc {
        ZeroCents("$" + lo + "-$" + hi + h);
      == { DashDollar("$" + lo, hi); Regroup("$", lo, "-", "$" + hi, h); }
        ZeroCents("$" + lo + ("-" + ("$" + hi + h)));
      == { ZeroCentsAmount(lo, "-" + ("$" + hi + h)); }
        "$" + lo' + ZeroCents("-" + ("$" + hi + h));
      == { NoDollarKeeps("-", "$" + hi + h); ZeroCentsAmount(hi, h); NoDollarFixed(h); }
        "$" + lo' + ("-" + ("$" + hi' + h));
      == { DashDollar("$" + lo', hi'); Regroup("$", lo', "-", "$" + hi', h); }
        "$" + lo' + "-$" + hi' + h;
      }
  }

  /** The written rewrite of a formatted rate cuts ".00" out of each amount whose integer part it follows. */
  lemma FormatNormalizedAsWritten(m: BillMatch)
    requires AmountsAreNumerals(m)
    ensures ZeroCentsAsWritten(Format(m)) == Format(MapAmounts(m, DropZeroCentsAsWritten))
  {
    match m
    case MaxRate(n) =>
      NoDollarFixed(" MAX");
      ZeroCentsAmountAsWritten(n, " MAX");
    case SingleRate(n, hr) =>
      NoDollarFixed(HrSuffix(hr));
      ZeroCentsAmountAsWritten(n, HrSuffix(hr));
    case RangeRate(lo, hi, hr) =>
      var h := HrSuffix(hr);
      var lo', hi' := DropZeroCentsAsWritten(lo), DropZeroCentsAsWritten(hi);
      calc {
        ZeroCentsAsWritten("$" + lo + "-$" + hi + h);
      == { DashDollar("$" + lo, hi); Regroup("$", lo, "-", "$" + hi, h); }
        ZeroCentsAsWritten("$" + lo + ("-" + ("$" + hi + h)));
      == { ZeroCentsAmountAsWritten(lo, "-" + ("$" + hi + h)); }
        "$" + lo' + ZeroCentsAsWritten("-" + ("$" + hi + h));
      == { NoDollarKeeps("-", "$" + hi + h); ZeroCentsAmountAsWritten(hi, h); NoDollarFixed(h); }
        "$" + lo' + ("-" + ("$" + hi' + h));
      == { DashDollar("$" + lo', hi'); Regroup("$", lo', "-", "$" + hi', h); }
        "$" + lo' + "-$" + hi' + h;
      }
  }

  /**
   * What `extract_bill_rate` returns when a pattern matches: the first
   * matching pattern's formatter applied to its leftmost match, with the
   * written rewrite applied to each amount; MAX-style patterns give
   * "$n MAX", pattern 3 "$a-$b" (plus "/hr"), pattern 5 "$n" (plus "/hr").
   */
  lemma ExtractBillRateFormats(jdText: string)
    requires Cascade(LowerStr(jdText), BillRatePatterns()).Some?
    ensures var (k, i, m) := Cascade(LowerStr(jdText), BillRatePatterns()).value;
      && ExtractBillRate(jdText) == Some(Format(MapAmounts(m, DropZeroCentsAsWritten)))
      && (forall j :: 0 <= j < k ==> FirstMatch(LowerStr(jdText), 0, BillRatePatterns()[j]).None?)
      && k != 5
      && ((k == 0 || k == 1 || k == 3) <==> m.MaxRate?)
      && (k == 2 <==> m.RangeRate?)
      && (k == 4 <==> m.SingleRate?)
  {
    var s := LowerStr(jdText);
    var (k, i, m) := Cascade(s, BillRatePatterns()).value;
    Pattern6NeverDecides(s);
    PatternShapes(s, k, i);
    FormatNormalizedAsWritten(m);
  }

  /** With the intended rewrite, exactly the zero cents are removed from the amounts. */
  lemma ExtractBillRateIntendedFormats(jdText: string)
    requires Cascade(LowerStr(jdText), BillRatePatterns()).Some?
    ensures ExtractBillRateIntended(jdText) == Some(Format(MapAmounts(Cascade(LowerStr(jdText), BillRatePatterns()).value.2, DropZeroCents)))
  {
    var s := LowerStr(jdText);
    var (k, i, m) := Cascade(s, BillRatePatterns()).value;
    PatternShapes(s, k, i);
    FormatNormalized(m);
  }

  // --------------------------------------------- the ".00" normalisation finding

  /** As written, ".00" followed by more digits loses the dot and the two zeros: "$70.001" becomes "$701". */
  lemma ZeroCentsAsWrittenMergesDigits(x: string, y: string)
    requires x != [] && AllDigits(x) && y != [] && AllDigits(y)
    ensures ZeroCentsAsWritten("$" + x + ".00" + y) == "$" + x + y
  {
    ZeroCentsAsWrittenHit(x, y);
    assert forall k :: 0 <= k < |y| ==> y[k] != '$';
    NoDollarFixed(y);
  }

  /** The corrected normalisation keeps such an amount, which has non-zero cents. */
  lemma ZeroCentsKeepsNonZeroCents(x: string, y: string)
    requires x != [] && AllDigits(x) && y != [] && AllDigits(y)
    ensures ZeroCents("$" + x + ".00" + y) == "$" + x + ".00" + y
  {
    var n := x + ".00" + y;
    assert n[|x|] == '.';
    assert forall k :: 0 <= k < |n| && k != |x| ==> IsDigit(n[k]);
    assert IsNumeral(n);
    assert n[|n| - 3..] != ".00" by {
      assert n[|n| - 1] == y[|y| - 1];
    }
    assert DropZeroCents(n) == n;
    ZeroCentsAmount(n, []);
    assert ZeroCents([]) == [];
    assert "$" + x + ".00" + y == "$" + n + [] by {
      AppendAssoc("$", x + ".00", y);
      AppendAssoc("$", x, ".00");
    }
  }

  /** The two differ on "$70.001", which pattern 5 formats from "bill rate: $70.001". */
  lemma ZeroCentsFindingExample()
    ensures ZeroCentsAsWritten("$70.001") == "$701"
    ensures ZeroCents("$70.001") == "$70.001"
  {
    assert "$" + "70" + ".00" + "1" == "$70.001";
    assert "$" + "70" + "1" == "$701";
    ZeroCentsAsWrittenMergesDigits("70", "1");
    ZeroCentsKeepsNonZeroCents("70", "1");
  }

  /** Without ".00" followed by a digit, the corrected and the written normalisation agree. */
  lemma ZeroCentsAgree(s: string)
    requires forall k :: 0 <= k && k + 3 < |s| && LitAt(s, k, ".00") ==> !IsDigit(s[k + 3])
    ensures ZeroCents(s) == ZeroCentsAsWritten(s)
    decreases |s|
  {
    if s != [] {
      assert s[0..] == s;
      if ZeroCentsAsWrittenAt(s).Some? {
        var j := RunEnd(s, 1, IsDigit);
        assert ZeroCentsAt(s) == ZeroCentsAsWrittenAt(s);
        var rest := s[j + 3..];
        forall k | 0 <= k && k + 3 < |rest| && LitAt(rest, k, ".00") ensures !IsDigit(rest[k + 3]) {
          assert LitAt(s, j + 3 + k, ".00");
        }
        ZeroCentsAgree(rest);
      } else {
        assert ZeroCentsAt(s).None?;
        var rest := s[1..];
        forall k | 0 <= k && k + 3 < |rest| && LitAt(rest, k, ".00") ensures !IsDigit(rest[k + 3]) {
          assert LitAt(s, 1 + k, ".00");
        }
        ZeroCentsAgree(rest);
      }
    }
  }
}
