/**
 * Character classes and the scanning primitives from which the hand-written
 * matchers of the regular expressions are built. Each primitive is one
 * regular-expression construct with greedy semantics:
 *   RunEnd       `c*` for a class `c`
 *   LitAt(CI)    a literal, optionally case-insensitive (`re.IGNORECASE`)
 *   NumeralEnd   `\d+(?:\.\d+)?`
 *   FirstMatch   `re.search`: the leftmost position where a matcher succeeds
 *   SubAll       `re.sub`: replace every non-overlapping match, left to right
 *   SplitHead    `re.split(...)[0]`: the text before the leftmost match
 */
module Text {
  import opened Wrappers

  /** Python's `\s` on a `str`, which is also what `str.strip()` removes. */
  predicate IsSpace(c: char) {
    c == ' ' || ('\t' <= c <= '\r') || ('\U{1C}' <= c <= '\U{1F}') || c == '\U{85}' || c == '\U{A0}'
    || c == '\U{1680}' || ('\U{2000}' <= c <= '\U{200A}') || c == '\U{2028}' || c == '\U{2029}'
    || c == '\U{202F}' || c == '\U{205F}' || c == '\U{3000}'
  }

  /** `\d`, restricted to the ASCII digits. */
  predicate IsDigit(c: char) {
    '0' <= c <= '9'
  }

  /** The class `[:\s]`. */
  predicate IsColonSpace(c: char) {
    c == ':' || IsSpace(c)
  }

  predicate AllDigits(t: string) {
    forall k :: 0 <= k < |t| ==> IsDigit(t[k])
  }

  predicate HasDigit(t: string) {
    exists k :: 0 <= k < |t| && IsDigit(t[k])
  }

  /** ASCII lower-casing, the case mapping `str.lower()` and `re.IGNORECASE` apply to ASCII letters. */
  function Lower(c: char): char {
    if 'A' <= c <= 'Z' then (c as int + 32) as char else c
  }

  function LowerStr(s: string): (r: string)
    ensures |r| == |s| && forall k :: 0 <= k < |s| ==> r[k] == Lower(s[k])
  {
    seq(|s|, k requires 0 <= k < |s| => Lower(s[k]))
  }

  // ---------------------------------------------------------------- strip

  /** Trimmed(s, lo, r): `r` is `s` with the whitespace `s[..lo]` and the whitespace after `r` removed. */
  ghost predicate Trimmed(s: string, lo: nat, r: string) {
    && lo + |r| <= |s| && r == s[lo..lo + |r|]
    && (forall k :: 0 <= k < lo ==> IsSpace(s[k]))
    && (forall k :: lo + |r| <= k < |s| ==> IsSpace(s[k]))
    && (r == [] || (!IsSpace(r[0]) && !IsSpace(r[|r| - 1])))
  }

  /** The number of whitespace characters `str.strip()` removes from the front. */
  function StripStart(s: string): (lo: nat)
    ensures lo <= |s|
  {
    RunEnd(s, 0, IsSpace)
  }

  /** Where the kept text ends: the whitespace run that ends at `hi` is dropped, but not below `lo`. */
  function BackRun(s: string, lo: nat, hi: nat): (e: nat)
    requires lo <= hi <= |s|
    ensures lo <= e <= hi
    decreases hi - lo
  {
    if lo < hi && IsSpace(s[hi - 1]) then BackRun(s, lo, hi - 1) else hi
  }

  /** What `BackRun` drops is whitespace, and it stops at `lo` or after a non-whitespace character. */
  lemma BackRunSound(s: string, lo: nat, hi: nat)
    requires lo <= hi <= |s|
    ensures forall k :: BackRun(s, lo, hi) <= k < hi ==> IsSpace(s[k])
    ensures BackRun(s, lo, hi) == lo || !IsSpace(s[BackRun(s, lo, hi) - 1])
    decreases hi - lo
  {
    if lo < hi && IsSpace(s[hi - 1]) {
      BackRunSound(s, lo, hi - 1);
    }
  }

  /** `str.strip()`. */
  function Strip(s: string): (r: string)
    ensures Trimmed(s, StripStart(s), r)
    ensures r == [] <==> forall k :: 0 <= k < |s| ==> IsSpace(s[k])
  {
    var lo := StripStart(s);
    RunEndSound(s, 0, IsSpace);
    var e := BackRun(s, lo, |s|);
    BackRunSound(s, lo, |s|);
    s[lo..e]
  }

  /** A string whose ends are not whitespace is its own `strip()`. */
  lemma StripOfTrimmed(s: string)
    requires s == [] || (!IsSpace(s[0]) && !IsSpace(s[|s| - 1]))
    ensures Strip(s) == s
  {
    var r := Strip(s);
    var lo := StripStart(s);
    if s != [] {
      assert !IsSpace(s[0]) && !IsSpace(s[|s| - 1]);
      assert lo == 0;
      assert r != [];
      assert lo + |r| == |s|;
    }
  }

  /** Stripping `p + t` keeps all of `p` when `p` begins and ends with non-whitespace. */
  lemma StripKeepsPrefix(p: string, t: string)
    requires p != [] && !IsSpace(p[0]) && !IsSpace(p[|p| - 1])
    ensures exists n: nat :: n <= |t| && Strip(p + t) == p + t[..n]
  {
    var s := p + t;
    var r := Strip(s);
    var lo := StripStart(s);
    assert !IsSpace(s[0]) && !IsSpace(s[|p| - 1]);
    assert lo == 0;
    assert |r| >= |p|;
    assert r == p + t[..|r| - |p|];
  }

  /** Stripping and truncating a prefix `h` of `t` leaves a slice of `t`. */
  lemma StripTakeSlice(t: string, h: string, n: nat)
    requires |h| <= |t| && h == t[..|h|]
    ensures StripStart(h) + |Take(Strip(h), n)| <= |h|
    ensures Take(Strip(h), n) == t[StripStart(h)..StripStart(h) + |Take(Strip(h), n)|]
  {
    var lo, st := StripStart(h), Strip(h);
    assert Trimmed(h, lo, st);
    TakeSlice(t, h, lo, st, n);
  }

  /** Truncating a slice `st` of a prefix `h` of `t` leaves a slice of `t`. */
  lemma TakeSlice(t: string, h: string, lo: nat, st: string, n: nat)
    requires |h| <= |t| && h == t[..|h|]
    requires lo + |st| <= |h| && st == h[lo..lo + |st|]
    ensures lo + |Take(st, n)| <= |h| && Take(st, n) == t[lo..lo + |Take(st, n)|]
  {
    var r := Take(st, n);
    SliceTake(h, lo, |st|, |r|);
    SliceOfPrefix(t, h, lo, lo + |r|);
  }

  /** A prefix of a slice is a shorter slice. */
  lemma SliceTake<T>(s: seq<T>, a: nat, m: nat, k: nat)
    requires a + m <= |s| && k <= m
    ensures s[a..a + m][..k] == s[a..a + k]
  {
  }

  /** A slice of a prefix of `t` is the same slice of `t`. */
  lemma SliceOfPrefix<T>(t: seq<T>, h: seq<T>, a: nat, b: nat)
    requires |h| <= |t| && h == t[..|h|] && a <= b <= |h|
    ensures h[a..b] == t[a..b]
  {
  }

  /** `s[:n]`. */
  function Take(s: string, n: nat): (r: string)
    ensures |r| <= n && |r| <= |s| && r == s[..|r|]
    ensures |s| <= n ==> r == s
  {
    if |s| <= n then s else s[..n]
  }

  // ---------------------------------------------------------------- scanning

  /** End of the greedy run `c*` that starts at `i`, for the class `p`. */
  function RunEnd(s: string, i: nat, p: char -> bool): (j: nat)
    requires i <= |s|
    ensures i <= j <= |s|
    decreases |s| - i
  {
    if i < |s| && p(s[i]) then RunEnd(s, i + 1, p) else i
  }

  /** The run holds only characters of the class, and stops at one outside it or at the end. */
  lemma RunEndSound(s: string, i: nat, p: char -> bool)
    requires i <= |s|
    ensures forall k :: i <= k < RunEnd(s, i, p) ==> p(s[k])
    ensures RunEnd(s, i, p) == |s| || !p(s[RunEnd(s, i, p)])
    decreases |s| - i
  {
    if i < |s| && p(s[i]) {
      RunEndSound(s, i + 1, p);
    }
  }

  /** End of `\$?\s*` at `i`: an optional dollar sign, then whitespace. */
  function DollarSpaceEnd(s: string, i: nat): (j: nat)
    requires i <= |s|
    ensures i <= j <= |s|
  {
    RunEnd(s, if i < |s| && s[i] == '$' then i + 1 else i, IsSpace)
  }

  /** `\$?\s*` skips neither a digit nor a dash. */
  lemma DollarSpaceEndSound(s: string, i: nat)
    requires i <= |s|
    ensures forall k :: i <= k < DollarSpaceEnd(s, i) ==> !IsDigit(s[k]) && s[k] != '-'
  {
    RunEndSound(s, if i < |s| && s[i] == '$' then i + 1 else i, IsSpace);
  }

  /** The literal `w` stands at `i`. */
  predicate LitAt(s: string, i: nat, w: string) {
    i + |w| <= |s| && forall k :: 0 <= k < |w| ==> s[i + k] == w[k]
  }

  /** The lower-case literal `w` stands at `i`, up to ASCII case. */
  predicate LitAtCI(s: string, i: nat, w: string) {
    i + |w| <= |s| && forall k :: 0 <= k < |w| ==> Lower(s[i + k]) == w[k]
  }

  /** A literal that stands at `i` starts with the character there. */
  lemma LitAtHead(s: string, i: nat, w: string)
    requires LitAt(s, i, w) && w != []
    ensures i < |s| && s[i] == w[0]
  {
    assert s[i + 0] == s[i];
  }

  /** A literal that stands at `i` starts with the character there, up to case. */
  lemma LitAtCIHead(s: string, i: nat, w: string)
    requires LitAtCI(s, i, w) && w != []
    ensures i < |s| && Lower(s[i]) == w[0]
  {
    assert s[i + 0] == s[i];
  }

  /** `\d+(?:\.\d+)?` as a whole string: digits with at most one inner dot. */
  predicate IsNumeral(t: string) {
    && |t| > 0 && IsDigit(t[0]) && IsDigit(t[|t| - 1])
    && (forall k :: 0 <= k < |t| ==> IsDigit(t[k]) || t[k] == '.')
    && (forall k, l :: 0 <= k < l < |t| && t[k] == '.' ==> t[l] != '.')
  }

  /** A non-empty run of digits is a numeral. */
  lemma DigitsAreNumeral(x: string)
    requires x != [] && AllDigits(x)
    ensures IsNumeral(x)
  {}

  /** The match of `\d+(?:\.\d+)?` at `i` cannot be extended. */
  ghost predicate NumeralMaximal(s: string, i: nat, e: nat)
    requires i <= e <= |s|
  {
    e == |s| || (!IsDigit(s[e]) && (s[e] == '.' ==> '.' in s[i..e] || e + 1 == |s| || !IsDigit(s[e + 1])))
  }

  /** End of the greedy match of `\d+(?:\.\d+)?` at `i`; `None` when no digit stands there. */
  function NumeralEnd(s: string, i: nat): (r: Option<nat>)
    requires i <= |s|
    ensures r.Some? <==> i < |s| && IsDigit(s[i])
    ensures r.Some? ==> i < r.value <= |s|
  {
    if i < |s| && IsDigit(s[i]) then
      var j := RunEnd(s, i, IsDigit);
      if j + 1 < |s| && s[j] == '.' && IsDigit(s[j + 1]) then
        Some(RunEnd(s, j + 1, IsDigit))
      else
        Some(j)
    else
      None
  }

  /** What `NumeralEnd` matches is a numeral that cannot be extended. */
  lemma NumeralEndSound(s: string, i: nat)
    requires i <= |s|
    ensures NumeralEnd(s, i).Some? ==> IsNumeral(s[i..NumeralEnd(s, i).value]) && NumeralMaximal(s, i, NumeralEnd(s, i).value)
  {
    if i < |s| && IsDigit(s[i]) {
      var j := RunEnd(s, i, IsDigit);
      RunEndSound(s, i, IsDigit);
      if j + 1 < |s| && s[j] == '.' && IsDigit(s[j + 1]) {
        var e := RunEnd(s, j + 1, IsDigit);
        RunEndSound(s, j + 1, IsDigit);
        FractionNumeral(s, i, j, e);
      } else {
        DigitsNumeral(s, i, j);
      }
    }
  }

  /** Digits from `i` to `j`: a numeral. */
  lemma DigitsNumeral(s: string, i: nat, j: nat)
    requires i < j <= |s| && forall k :: i <= k < j ==> IsDigit(s[k])
    ensures IsNumeral(s[i..j])
  {
    var t := s[i..j];
    assert forall k :: 0 <= k < |t| ==> t[k] == s[i + k] && IsDigit(t[k]);
  }

  /** Digits from `i` to `j`, a dot, digits from `j + 1` to `e`: a numeral. */
  lemma FractionNumeral(s: string, i: nat, j: nat, e: nat)
    requires i < j < j + 1 < e <= |s| && s[j] == '.'
    requires forall k :: i <= k < j ==> IsDigit(s[k])
    requires forall k :: j + 1 <= k < e ==> IsDigit(s[k])
    ensures IsNumeral(s[i..e]) && '.' in s[i..e]
  {
    var t := s[i..e];
    assert forall k :: 0 <= k < |t| ==> t[k] == s[i + k];
    assert forall k :: 0 <= k < |t| && k != j - i ==> IsDigit(t[k]);
    assert t[j - i] == '.';
  }

  /** Text after a number that cannot continue it: nothing, or neither a digit nor a dot. */
  predicate EndsNumber(t: string) {
    t == [] || (!IsDigit(t[0]) && t[0] != '.')
  }

  /** `w in t`, Python's substring test. */
  predicate Contains(t: string, w: string) {
    exists k: nat :: k <= |t| && LitAt(t, k, w)
  }

  predicate AllSpace(t: string) {
    forall k :: 0 <= k < |t| ==> IsSpace(t[k])
  }

  /** A greedy run ends where the class first fails. */
  lemma RunEndIs(s: string, i: nat, j: nat, p: char -> bool)
    requires i <= j <= |s|
    requires forall k :: i <= k < j ==> p(s[k])
    requires j == |s| || !p(s[j])
    ensures RunEnd(s, i, p) == j
    decreases j - i
  {
    if i < j {
      RunEndIs(s, i + 1, j, p);
    }
  }

  /** A numeral that cannot be extended is exactly what `NumeralEnd` matches. */
  lemma NumeralEndIs(s: string, i: nat, e: nat)
    requires i < e <= |s| && IsNumeral(s[i..e]) && NumeralMaximal(s, i, e)
    ensures NumeralEnd(s, i) == Some(e)
  {
    assert s[i..e][0] == s[i];
    var e' := NumeralEnd(s, i).value;
    NumeralEndSound(s, i);
    if e' < e { NumeralNotMaximalInside(s, i, e', e); }
    if e < e' { NumeralNotMaximalInside(s, i, e, e'); }
  }

  /** A numeral strictly inside a longer numeral is not maximal. */
  lemma NumeralNotMaximalInside(s: string, i: nat, e1: nat, e2: nat)
    requires i < e1 < e2 <= |s| && IsNumeral(s[i..e1]) && IsNumeral(s[i..e2])
    ensures !NumeralMaximal(s, i, e1)
  {
    var u := s[i..e2];
    assert u[e1 - i] == s[e1];
    if s[e1] == '.' {
      assert e1 + 1 < e2 by {
        assert u[|u| - 1] == s[e2 - 1];
      }
      assert u[e1 + 1 - i] == s[e1 + 1];
      assert s[e1 + 1] != '.';
      assert '.' !in s[i..e1] by {
        forall k | i <= k < e1 ensures s[k] != '.' {
          assert u[k - i] == s[k];
        }
      }
    }
  }

  /** The last position in `[lo, hi)` whose character is in the class `p`. */
  function LastWhere(s: string, lo: nat, hi: nat, p: char -> bool): (r: Option<nat>)
    requires lo <= hi <= |s|
    ensures r.Some? ==> lo <= r.value < hi && p(s[r.value]) && forall k :: r.value < k < hi ==> !p(s[k])
    ensures r.None? ==> forall k :: lo <= k < hi ==> !p(s[k])
    decreases hi - lo
  {
    if hi == lo then None
    else if p(s[hi - 1]) then Some(hi - 1)
    else LastWhere(s, lo, hi - 1, p)
  }

  /** `re.search`: the leftmost position at or after `from` where `m` matches, with its match. */
  function FirstMatch<M>(s: string, from: nat, m: (string, nat) -> Option<M>): (r: Option<(nat, M)>)
    requires from <= |s|
    ensures r.Some? ==> from <= r.value.0 <= |s| && m(s, r.value.0) == Some(r.value.1)
    ensures r.Some? ==> forall j :: from <= j < r.value.0 ==> m(s, j).None?
    ensures r.None? <==> forall j :: from <= j <= |s| ==> m(s, j).None?
    decreases |s| - from
  {
    match m(s, from)
    case Some(v) => Some((from, v))
    case None => if from == |s| then None else FirstMatch(s, from + 1, m)
  }

  /**
   * `re.sub` with a pattern that never looks behind its match: where `m`
   * reports a match of the first `n` characters of the remaining text, with
   * replacement `rep`, emit `rep` and continue after the match; elsewhere
   * copy one character. The matchers used never report an empty match; the
   * guard on `n` only makes termination evident.
   */
  function SubAll(s: string, m: string -> Option<(nat, string)>): string {
    if s == [] then []
    else
      match m(s)
      case Some((n, rep)) => if 0 < n <= |s| then rep + SubAll(s[n..], m) else [s[0]] + SubAll(s[1..], m)
      case None => [s[0]] + SubAll(s[1..], m)
  }

  /** `re.sub` leaves a text at none of whose positions a match starts unchanged. */
  lemma {:induction false} SubAllNoMatch(s: string, m: string -> Option<(nat, string)>)
    requires forall j :: 0 <= j < |s| ==> m(s[j..]).None?
    ensures SubAll(s, m) == s
    decreases |s|
  {
    if s != [] {
      assert s[0..] == s;
      assert forall j :: 0 <= j < |s| - 1 ==> s[1..][j..] == s[j + 1..];
      SubAllNoMatch(s[1..], m);
    }
  }

  /** `re.sub` copies a character where no match starts. */
  lemma SubAllCopy(s: string, m: string -> Option<(nat, string)>)
    requires s != [] && m(s).None?
    ensures SubAll(s, m) == [s[0]] + SubAll(s[1..], m)
  {}

  /** `re.sub` copies a prefix at none of whose positions a match starts. */
  lemma SubAllKeeps(u: string, t: string, m: string -> Option<(nat, string)>)
    requires forall j :: 0 <= j < |u| ==> m(u[j..] + t).None?
    ensures SubAll(u + t, m) == u + SubAll(t, m)
    decreases |u|
  {
    if u != [] {
      assert m(u + t).None? by { assert u[0..] == u; }
      SubAllCopyFront(u, t, m);
      NoMatchTail(u, t, m);
      SubAllKeeps(u[1..], t, m);
      AppendAssoc([u[0]], u[1..], SubAll(t, m));
      assert [u[0]] + u[1..] == u;
    } else {
      assert u + t == t;
    }
  }

  /** The first character of `u + t` is copied when no match starts there. */
  lemma SubAllCopyFront(u: string, t: string, m: string -> Option<(nat, string)>)
    requires u != [] && m(u + t).None?
    ensures SubAll(u + t, m) == [u[0]] + SubAll(u[1..] + t, m)
  {
    SubAllCopy(u + t, m);
    assert (u + t)[1..] == u[1..] + t;
  }

  /** No match starts in the tail of a prefix when none starts in the prefix. */
  lemma NoMatchTail(u: string, t: string, m: string -> Option<(nat, string)>)
    requires u != [] && forall j :: 0 <= j < |u| ==> m(u[j..] + t).None?
    ensures forall j :: 0 <= j < |u| - 1 ==> m(u[1..][j..] + t).None?
  {
    forall j | 0 <= j < |u| - 1 ensures m(u[1..][j..] + t).None? {
      assert u[1..][j..] == u[j + 1..];
    }
  }

  /** `re.sub` replaces a match and continues after it. */
  lemma SubAllReplace(s: string, m: string -> Option<(nat, string)>, n: nat, rep: string)
    requires 0 < n <= |s| && m(s) == Some((n, rep))
    ensures SubAll(s, m) == rep + SubAll(s[n..], m)
  {}

  /** `re.split(pattern, s)[0]`: the text before the leftmost match of `m`, or all of `s`. */
  function SplitHead<M>(s: string, m: (string, nat) -> Option<M>): (r: string)
    ensures |r| <= |s| && r == s[..|r|]
    ensures forall j :: 0 <= j < |r| ==> m(s, j).None?
    ensures |r| < |s| ==> m(s, |r|).Some?
  {
    match FirstMatch(s, 0, m)
    case Some((k, _)) => s[..k]
    case None => s
  }

  /**
   * The `for pattern in patterns: match = re.search(...)` cascade: the index
   * of the first matcher of `ms` that matches anywhere in `s`, with its
   * leftmost match; `None` when none of them matches.
   */
  function Cascade<M>(s: string, ms: seq<(string, nat) -> Option<M>>, from: nat := 0): (r: Option<(nat, nat, M)>)
    requires from <= |ms|
    ensures r.Some? ==> from <= r.value.0 < |ms| && FirstMatch(s, 0, ms[r.value.0]) == Some((r.value.1, r.value.2))
    ensures r.Some? ==> forall k :: from <= k < r.value.0 ==> FirstMatch(s, 0, ms[k]).None?
    ensures r.None? <==> forall k :: from <= k < |ms| ==> FirstMatch(s, 0, ms[k]).None?
    decreases |ms| - from
  {
    if from == |ms| then None
    else match FirstMatch(s, 0, ms[from])
      case Some((i, v)) => Some((from, i, v))
      case None => Cascade(s, ms, from + 1)
  }

  /** The leftmost match is at `p` when `m` matches at `p` and nowhere before it. */
  lemma {:induction false} FirstMatchIs<M>(s: string, from: nat, m: (string, nat) -> Option<M>, p: nat)
    requires from <= p <= |s| && m(s, p).Some?
    requires forall j :: from <= j < p ==> m(s, j).None?
    ensures FirstMatch(s, from, m) == Some((p, m(s, p).value))
    decreases p - from
  {
    if from < p {
      FirstMatchIs(s, from + 1, m, p);
    }
  }

  /** The cascade's result is fixed by the first matcher that matches anywhere. */
  lemma CascadeFirst<M>(s: string, ms: seq<(string, nat) -> Option<M>>, k: nat)
    requires k < |ms| && FirstMatch(s, 0, ms[k]).Some?
    requires forall j :: 0 <= j < k ==> FirstMatch(s, 0, ms[j]).None?
    ensures Cascade(s, ms) == Some((k, FirstMatch(s, 0, ms[k]).value.0, FirstMatch(s, 0, ms[k]).value.1))
  {
  }

  /** `(?:w0|w1|...)` at `j`, case-insensitively: the first alternative that stands there. */
  function WordAt(words: seq<string>, s: string, j: nat): Option<string> {
    if words == [] then None
    else if LitAtCI(s, j, words[0]) then Some(words[0])
    else WordAt(words[1..], s, j)
  }

  /** `WordAt` finds an alternative exactly when one of them stands at `j`. */
  lemma WordAtSound(words: seq<string>, s: string, j: nat)
    ensures WordAt(words, s, j).Some? <==> exists k :: 0 <= k < |words| && LitAtCI(s, j, words[k])
  {
    if words != [] {
      WordAtSound(words[1..], s, j);
      assert forall k :: 1 <= k < |words| ==> words[k] == words[1..][k - 1];
    }
  }

  /** An alternative found inside the slice `u[a..b]` is found in `u`, and starts before `b`. */
  lemma WordAtInfix(words: seq<string>, u: string, a: nat, b: nat, j: nat)
    requires a <= b <= |u|
    requires forall k :: 0 <= k < |words| ==> words[k] != []
    requires WordAt(words, u[a..b], j).Some?
    ensures a + j < b && WordAt(words, u, a + j).Some?
  {
    WordAtSound(words, u[a..b], j);
    WordAtSound(words, u, a + j);
    var k :| 0 <= k < |words| && LitAtCI(u[a..b], j, words[k]);
    var w, v := words[k], u[a..b];
    assert forall i :: 0 <= i < |w| ==> Lower(u[a + j + i]) == Lower(v[j + i]) == w[i];
    assert LitAtCI(u, a + j, words[k]);
  }
}
