/**
 * `extract_duration`, `extract_gbams_id`, `extract_location` and
 * `extract_msp_owner` of services/ai/fallback_extractor.py. Each tries its
 * patterns in order, case-insensitively, on the original text; the first
 * pattern that matches anywhere gives its first group, which is then
 * cleaned up.
 *
 * The matchers are greedy. The one place where Python's backtracking finds
 * a different match is `[:\s]*([^\n]+)` when the `[:\s]` run reaches the end
 * of the text: the run is then given back one character at a time until a
 * character other than a newline can start the group (`RestOfLine`).
 */
module FallbackFields {
  import opened Wrappers
  import opened Text

  predicate NotNewline(c: char) {
    c != '\n'
  }

  /** `s?` after position `k`, case-insensitively. */
  function OptS(s: string, k: nat): nat {
    if k < |s| && Lower(s[k]) == 's' then k + 1 else k
  }

  /** End of `\d+` at `r`, if a digit stands there. */
  function DigitsEnd(s: string, r: nat): (e: Option<nat>)
    requires r <= |s|
    ensures e.Some? ==> r < e.value <= |s| && AllDigits(s[r..e.value])
  {
    if r < |s| && IsDigit(s[r]) then
      RunEndSound(s, r, IsDigit);
      Some(RunEnd(s, r, IsDigit))
    else None
  }

  // ------------------------------------------------------------- duration

  /** End of `(?:months?|yrs?|years?)` at `w`, or of `(?:months?|years?)` when `yr` is false. */
  function UnitEnd(s: string, w: nat, yr: bool): (e: Option<nat>)
    ensures e.Some? ==> w < e.value
  {
    if LitAtCI(s, w, "month") then Some(OptS(s, w + 5))
    else if yr && LitAtCI(s, w, "yr") then Some(OptS(s, w + 2))
    else if LitAtCI(s, w, "year") then Some(OptS(s, w + 4))
    else None
  }

  /** End of `\d+\+?\s*` followed by the unit alternation, at `j`. */
  function AmountEnd(s: string, j: nat, yr: bool): (e: Option<nat>)
    ensures e.Some? ==> j < |s| && IsDigit(s[j]) && j < e.value
  {
    if j < |s| && IsDigit(s[j]) then
      var d := RunEnd(s, j, IsDigit);
      var p := if d < |s| && s[d] == '+' then d + 1 else d;
      UnitEnd(s, RunEnd(s, p, IsSpace), yr)
    else None
  }

  /** `([:\s]*)` then the duration group at `r`: the group's text. */
  function DurationGroup(s: string, q: nat): Option<string>
    requires q <= |s|
  {
    var r := RunEnd(s, q, IsColonSpace);
    match AmountEnd(s, r, true)
    case None => None
    case Some(e) => if e <= |s| then Some(s[r..e]) else None
  }

  /** Pattern 1, `duration[:\s]*(\d+\+?\s*(?:months?|yrs?|years?))`. */
  function DurationP1At(s: string, i: nat): Option<string> {
    if LitAtCI(s, i, "duration") then DurationGroup(s, i + 8) else None
  }

  /** Pattern 2, `contract\s*(?:length|duration)[:\s]*(\d+\+?\s*(?:months?|yrs?|years?))`. */
  function DurationP2At(s: string, i: nat): Option<string> {
    if LitAtCI(s, i, "contract") then
      var j := RunEnd(s, i + 8, IsSpace);
      if LitAtCI(s, j, "length") then DurationGroup(s, j + 6)
      else if LitAtCI(s, j, "duration") then DurationGroup(s, j + 8)
      else None
    else None
  }

  /** Pattern 3, `(\d+\+?\s*(?:months?|years?)\s*(?:contract)?)`. */
  function DurationP3At(s: string, i: nat): Option<string> {
    match AmountEnd(s, i, false)
    case None => None
    case Some(e) =>
      if e <= |s| then
        var t := RunEnd(s, e, IsSpace);
        Some(s[i..if LitAtCI(s, t, "contract") then t + 8 else t])
      else None
  }

  function DurationPatterns(): seq<(string, nat) -> Option<string>> {
    [DurationP1At, DurationP2At, DurationP3At]
  }

  /** `mo(?:nth)?s?` at the start of `u`, replaced by "months". */
  function MonthAt(u: string): Option<(nat, string)> {
    if LitAtCI(u, 0, "mo") then Some((OptS(u, if LitAtCI(u, 2, "nth") then 5 else 2), "months")) else None
  }

  /** `yr(?:s)?` at the start of `u`, replaced by "year". */
  function YearAt(u: string): Option<(nat, string)> {
    if LitAtCI(u, 0, "yr") then Some((OptS(u, 2), "year")) else None
  }

  /** The two substitutions and the final `strip()` of `extract_duration`. */
  function NormalizeDuration(g: string): (r: string)
    ensures r == [] || (!IsSpace(r[0]) && !IsSpace(r[|r| - 1]))
    ensures (forall j :: 0 <= j < |g| ==> MonthAt(g[j..]).None? && YearAt(g[j..]).None?) ==> r == Strip(g)
  {
    assert (forall j :: 0 <= j < |g| ==> MonthAt(g[j..]).None? && YearAt(g[j..]).None?) ==>
      SubAll(SubAll(g, MonthAt), YearAt) == g by {
      if forall j :: 0 <= j < |g| ==> MonthAt(g[j..]).None? && YearAt(g[j..]).None? {
        SubAllNoMatch(g, MonthAt);
        SubAllNoMatch(g, YearAt);
      }
    }
    Strip(SubAll(SubAll(g, MonthAt), YearAt))
  }

  /** `extract_duration`. */
  function ExtractDuration(jdText: string): (r: Option<string>)
    ensures r.None? <==> forall k :: 0 <= k < 3 ==> FirstMatch(jdText, 0, DurationPatterns()[k]).None?
  {
    match Cascade(jdText, DurationPatterns())
    case None => None
    case Some((_, _, g)) => Some(NormalizeDuration(g))
  }

  // --------------------------------------------------------------- GBAMS id

  /** `[:\s]*(\d+)` at `q`: the digits. */
  function IdGroup(s: string, q: nat): Option<string>
    requires q <= |s|
  {
    var r := RunEnd(s, q, IsColonSpace);
    match DigitsEnd(s, r)
    case None => None
    case Some(e) => Some(s[r..e])
  }

  /** Pattern 1, `gbams\s*req(?:id)?[:\s]*(\d+)`. */
  function GbamsP1At(s: string, i: nat): Option<string> {
    if LitAtCI(s, i, "gbams") then
      var j := RunEnd(s, i + 5, IsSpace);
      if LitAtCI(s, j, "req") then IdGroup(s, if LitAtCI(s, j + 3, "id") then j + 5 else j + 3) else None
    else None
  }

  /** Pattern 2, `rgs\s*id[:\s]*(\d+)`. */
  function GbamsP2At(s: string, i: nat): Option<string> {
    if LitAtCI(s, i, "rgs") then
      var j := RunEnd(s, i + 3, IsSpace);
      if LitAtCI(s, j, "id") then IdGroup(s, j + 2) else None
    else None
  }

  /** Pattern 3, `req\s*id[:\s]*(\d+)`. */
  function GbamsP3At(s: string, i: nat): Option<string> {
    if LitAtCI(s, i, "req") then
      var j := RunEnd(s, i + 3, IsSpace);
      if LitAtCI(s, j, "id") then IdGroup(s, j + 2) else None
    else None
  }

  /** Pattern 4, `requisition[:\s]*(\d+)`. */
  function GbamsP4At(s: string, i: nat): Option<string> {
    if LitAtCI(s, i, "requisition") then IdGroup(s, i + 11) else None
  }

  function GbamsPatterns(): seq<(string, nat) -> Option<string>> {
    [GbamsP1At, GbamsP2At, GbamsP3At, GbamsP4At]
  }

  /** `extract_gbams_id`: `None`, or the digits of the first pattern that matches. */
  function ExtractGbamsId(jdText: string): (r: Option<string>)
    ensures r.None? <==> forall k :: 0 <= k < 4 ==> FirstMatch(jdText, 0, GbamsPatterns()[k]).None?
    ensures r.Some? ==> r.value != [] && AllDigits(r.value)
  {
    match Cascade(jdText, GbamsPatterns())
    case None => None
    case Some((k, i, g)) =>
      GbamsGroupDigits(jdText, k, i);
      Some(g)
  }

  /** Every GBAMS pattern captures a non-empty run of digits. */
  lemma GbamsGroupDigits(s: string, k: nat, i: nat)
    requires k < 4 && GbamsPatterns()[k](s, i).Some?
    ensures GbamsPatterns()[k](s, i).value != [] && AllDigits(GbamsPatterns()[k](s, i).value)
  {
  }

  // ------------------------------------------------------- rest of the line

  /**
   * `[:\s]*([^\n]+)` at `q`: the group. When the run of `[:\s]` stops before
   * the end of the text, the group starts there; when it reaches the end,
   * the run gives back characters until one that is not a newline.
   */
  function RestOfLine(s: string, q: nat): Option<string>
    requires q <= |s|
  {
    var p := RunEnd(s, q, IsColonSpace);
    if p < |s| then Some(s[p..RunEnd(s, p, NotNewline)])
    else match LastWhere(s, q, p, NotNewline)
      case None => None
      case Some(e) => Some(s[e..RunEnd(s, e, NotNewline)])
  }

  /** A literal then `[:\s]*([^\n]+)`. */
  function LabelledLine(s: string, i: nat, lit: string): Option<string> {
    if LitAtCI(s, i, lit) then RestOfLine(s, i + |lit|) else None
  }

  /** `\s*` between two words of a label, then the rest of the line. */
  function TwoWordLine(s: string, i: nat, w1: string, w2: string): Option<string> {
    if LitAtCI(s, i, w1) then LabelledLine(s, RunEnd(s, i + |w1|, IsSpace), w2) else None
  }

  // --------------------------------------------------------------- location

  function LocationP1At(s: string, i: nat): Option<string> {
    LabelledLine(s, i, "location")
  }

  function LocationP2At(s: string, i: nat): Option<string> {
    TwoWordLine(s, i, "based", "in")
  }

  function LocationP3At(s: string, i: nat): Option<string> {
    LabelledLine(s, i, "office")
  }

  function LocationPatterns(): seq<(string, nat) -> Option<string>> {
    [LocationP1At, LocationP2At, LocationP3At]
  }

  /** `re.sub(r'[~`]', '', s)`. */
  function RemoveTicks(s: string): (r: string)
    ensures forall k :: 0 <= k < |r| ==> r[k] != '~' && r[k] != '`'
    ensures |r| <= |s|
  {
    if s == [] then []
    else if s[0] == '~' || s[0] == '`' then RemoveTicks(s[1..])
    else [s[0]] + RemoveTicks(s[1..])
  }

  /** The keywords that end a location: `(?:duration|experience|skills|msp)`. */
  function LocationStops(): seq<string> {
    ["duration", "experience", "skills", "msp"]
  }

  function LocationStopAt(s: string, j: nat): Option<string> {
    WordAt(LocationStops(), s, j)
  }

  /** The clean-up of `extract_location`. */
  function CleanLocation(g: string): (r: string)
    ensures |r| <= 100 && (r != [] ==> !IsSpace(r[0]))
  {
    Take(Strip(SplitHead(RemoveTicks(Strip(g)), LocationStopAt)), 100)
  }

  /** `extract_location`. */
  function ExtractLocation(jdText: string): (r: Option<string>)
    ensures r.None? <==> forall k :: 0 <= k < 3 ==> FirstMatch(jdText, 0, LocationPatterns()[k]).None?
  {
    match Cascade(jdText, LocationPatterns())
    case None => None
    case Some((_, _, g)) => Some(CleanLocation(g))
  }

  // -------------------------------------------------------------- MSP owner

  function MspP1At(s: string, i: nat): Option<string> {
    TwoWordLine(s, i, "msp", "owner")
  }

  function MspP2At(s: string, i: nat): Option<string> {
    TwoWordLine(s, i, "msp", "contact")
  }

  /** `staffing\s*(?:contact|owner)[:\s]*([^\n]+)`. */
  function MspP3At(s: string, i: nat): Option<string> {
    match TwoWordLine(s, i, "staffing", "contact")
    case Some(g) => Some(g)
    case None => TwoWordLine(s, i, "staffing", "owner")
  }

  function MspPatterns(): seq<(string, nat) -> Option<string>> {
    [MspP1At, MspP2At, MspP3At]
  }

  /** The keywords that end an MSP owner: `(?:location|duration|gbams)`. */
  function MspStops(): seq<string> {
    ["location", "duration", "gbams"]
  }

  function MspStopAt(s: string, j: nat): Option<string> {
    WordAt(MspStops(), s, j)
  }

  /** The clean-up of `extract_msp_owner`. */
  function CleanMspOwner(g: string): (r: string)
    ensures |r| <= 100 && (r != [] ==> !IsSpace(r[0]))
  {
    Take(Strip(SplitHead(Strip(g), MspStopAt)), 100)
  }

  /** `extract_msp_owner`. */
  function ExtractMspOwner(jdText: string): (r: Option<string>)
    ensures r.None? <==> forall k :: 0 <= k < 3 ==> FirstMatch(jdText, 0, MspPatterns()[k]).None?
  {
    match Cascade(jdText, MspPatterns())
    case None => None
    case Some((_, _, g)) => Some(CleanMspOwner(g))
  }

  // ------------------------------------------------------------ properties

  /** Every duration pattern captures text that starts with a digit. */
  lemma DurationGroupShape(s: string, k: nat, i: nat)
    requires k < 3 && DurationPatterns()[k](s, i).Some?
    ensures DurationPatterns()[k](s, i).value != [] && IsDigit(DurationPatterns()[k](s, i).value[0])
  {
    var pats := DurationPatterns();
    assert pats[0] == DurationP1At && pats[1] == DurationP2At && pats[2] == DurationP3At;
  }

  /** The unit substitutions and `strip()` keep a leading digit in place. */
  lemma NormalizeKeepsLeadingDigit(g: string)
    requires g != [] && IsDigit(g[0])
    ensures NormalizeDuration(g) != [] && NormalizeDuration(g)[0] == g[0]
  {
    assert Lower(g[0]) == g[0];
    if LitAtCI(g, 0, "mo") { LitAtCIHead(g, 0, "mo"); }
    SubAllCopy(g, MonthAt);
    var h := SubAll(g, MonthAt);
    assert h[0] == g[0] && Lower(h[0]) == h[0];
    if LitAtCI(h, 0, "yr") { LitAtCIHead(h, 0, "yr"); }
    SubAllCopy(h, YearAt);
    var h2 := SubAll(h, YearAt);
    assert h2 == [g[0]] + h2[1..];
    StripKeepsPrefix([g[0]], h2[1..]);
  }

  /** `extract_duration` returns `None` or a value that starts with a digit. */
  lemma DurationStartsWithDigit(jdText: string)
    ensures ExtractDuration(jdText).Some? ==> ExtractDuration(jdText).value != [] && IsDigit(ExtractDuration(jdText).value[0])
  {
    match Cascade(jdText, DurationPatterns())
    case None =>
    case Some((k, i, g)) =>
      DurationGroupShape(jdText, k, i);
      NormalizeKeepsLeadingDigit(g);
  }

  /** `extract_duration` gives the normalised group of the first pattern that matches. */
  lemma DurationFromFirstPattern(jdText: string, k: nat)
    requires k < 3 && FirstMatch(jdText, 0, DurationPatterns()[k]).Some?
    requires forall j :: 0 <= j < k ==> FirstMatch(jdText, 0, DurationPatterns()[j]).None?
    ensures ExtractDuration(jdText) == Some(NormalizeDuration(FirstMatch(jdText, 0, DurationPatterns()[k]).value.1))
  {
    CascadeFirst(jdText, DurationPatterns(), k);
  }

  /** `extract_gbams_id` gives the digits of the first pattern that matches. */
  lemma GbamsIdFromFirstPattern(jdText: string, k: nat)
    requires k < 4 && FirstMatch(jdText, 0, GbamsPatterns()[k]).Some?
    requires forall j :: 0 <= j < k ==> FirstMatch(jdText, 0, GbamsPatterns()[j]).None?
    ensures ExtractGbamsId(jdText) == Some(FirstMatch(jdText, 0, GbamsPatterns()[k]).value.1)
  {
    CascadeFirst(jdText, GbamsPatterns(), k);
  }

  /** `extract_location` gives the cleaned group of the first pattern that matches. */
  lemma LocationFromFirstPattern(jdText: string, k: nat)
    requires k < 3 && FirstMatch(jdText, 0, LocationPatterns()[k]).Some?
    requires forall j :: 0 <= j < k ==> FirstMatch(jdText, 0, LocationPatterns()[j]).None?
    ensures ExtractLocation(jdText) == Some(CleanLocation(FirstMatch(jdText, 0, LocationPatterns()[k]).value.1))
  {
    CascadeFirst(jdText, LocationPatterns(), k);
  }

  /** `extract_msp_owner` gives the cleaned group of the first pattern that matches. */
  lemma MspOwnerFromFirstPattern(jdText: string, k: nat)
    requires k < 3 && FirstMatch(jdText, 0, MspPatterns()[k]).Some?
    requires forall j :: 0 <= j < k ==> FirstMatch(jdText, 0, MspPatterns()[j]).None?
    ensures ExtractMspOwner(jdText) == Some(CleanMspOwner(FirstMatch(jdText, 0, MspPatterns()[k]).value.1))
  {
    CascadeFirst(jdText, MspPatterns(), k);
  }

  /** A slice of text in which no keyword starts before `b` has no keyword in it. */
  lemma StopFreeSlice(words: seq<string>, u: string, a: nat, b: nat)
    requires a <= b <= |u|
    requires forall k :: 0 <= k < |words| ==> words[k] != []
    requires forall j :: 0 <= j < b ==> WordAt(words, u, j).None?
    ensures forall j :: 0 <= j <= b - a ==> WordAt(words, u[a..b], j).None?
  {
    forall j | 0 <= j <= b - a
      ensures WordAt(words, u[a..b], j).None?
    {
      if WordAt(words, u[a..b], j).Some? {
        WordAtInfix(words, u, a, b, j);
      }
    }
  }

  /** Stripping and truncating a keyword-free prefix `h` of `t` leaves no keyword. */
  lemma CutIsStopFree(words: seq<string>, t: string, h: string, n: nat)
    requires forall k :: 0 <= k < |words| ==> words[k] != []
    requires |h| <= |t| && h == t[..|h|]
    requires forall j :: 0 <= j < |h| ==> WordAt(words, t, j).None?
    ensures forall j :: 0 <= j <= |Take(Strip(h), n)| ==> WordAt(words, Take(Strip(h), n), j).None?
  {
    StripTakeSlice(t, h, n);
    StopFreeSlice(words, t, StripStart(h), StripStart(h) + |Take(Strip(h), n)|);
  }

  /** A slice of a text without `~` and backticks has none either. */
  lemma SliceOfTickFree(t: string, a: nat, b: nat)
    requires a <= b <= |t|
    requires forall k :: 0 <= k < |t| ==> t[k] != '~' && t[k] != '`'
    ensures '~' !in t[a..b] && '`' !in t[a..b]
  {
    assert forall k :: 0 <= k < b - a ==> t[a..b][k] == t[a + k];
  }

  /** A cleaned location is at most 100 characters long and holds no `~` or backtick. */
  lemma CleanLocationTickFree(g: string)
    ensures |CleanLocation(g)| <= 100
    ensures '~' !in CleanLocation(g) && '`' !in CleanLocation(g)
  {
    var t := RemoveTicks(Strip(g));
    var h := SplitHead(t, LocationStopAt);
    var lo := StripStart(h);
    var r := Take(Strip(h), 100);
    StripTakeSlice(t, h, 100);
    SliceOfTickFree(t, lo, lo + |r|);
  }

  /** A cleaned location contains none of the keywords that end it. */
  lemma CleanLocationStopFree(g: string)
    ensures forall j :: 0 <= j <= |CleanLocation(g)| ==> LocationStopAt(CleanLocation(g), j).None?
  {
    var t := RemoveTicks(Strip(g));
    var h := SplitHead(t, LocationStopAt);
    forall j | 0 <= j < |h| ensures WordAt(LocationStops(), t, j).None? {
      assert LocationStopAt(t, j).None?;
    }
    CutIsStopFree(LocationStops(), t, h, 100);
    var r := CleanLocation(g);
    forall j | 0 <= j <= |r| ensures LocationStopAt(r, j).None? {
      assert WordAt(LocationStops(), r, j).None?;
    }
  }

  /** A cleaned MSP owner is at most 100 characters long and contains none of the keywords that end it. */
  lemma CleanMspOwnerProperties(g: string)
    ensures |CleanMspOwner(g)| <= 100
    ensures forall j :: 0 <= j <= |CleanMspOwner(g)| ==> MspStopAt(CleanMspOwner(g), j).None?
  {
    var t := Strip(g);
    var h := SplitHead(t, MspStopAt);
    forall j | 0 <= j < |h| ensures WordAt(MspStops(), t, j).None? {
      assert MspStopAt(t, j).None?;
    }
    CutIsStopFree(MspStops(), t, h, 100);
    var r := CleanMspOwner(g);
    forall j | 0 <= j <= |r| ensures MspStopAt(r, j).None? {
      assert WordAt(MspStops(), r, j).None?;
    }
  }
}
