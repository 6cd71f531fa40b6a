/**
 * `AIResponseParser` of services/ai/response_parser.py: clean a language
 * model's raw answer, decode it as JSON and build a `JDExtractionResult`.
 *
 * `json.loads` is the parameter `loads`. It gives the decoded value, or the
 * text of its `JSONDecodeError`. The record is a pydantic model, so a field
 * value of the wrong type makes its construction fail. The parameter
 * `report` stands for the text of pydantic's `ValidationError`; the model
 * passes it the names of the failing fields in declaration order.
 */
module ResponseParser {
  import opened Wrappers
  import opened Text
  import opened Json
  import opened JdResult
  import opened Errors

  // ---------------------------------------------------------- cleaning

  /** `` ```json\s* `` at the start of `u`, replaced by nothing. */
  function FenceJsonAt(u: string): Option<(nat, string)> {
    if LitAt(u, 0, "```json") then Some((RunEnd(u, 7, IsSpace), "")) else None
  }

  /** Three backticks stand at `k`. */
  predicate TripleAt(r: string, k: nat) {
    k + 3 <= |r| && r[k] == '`' && r[k + 1] == '`' && r[k + 2] == '`'
  }

  /** `` ```\s* `` at the start of `u`, replaced by nothing. */
  function FenceAt(u: string): Option<(nat, string)> {
    if TripleAt(u, 0) then Some((RunEnd(u, 3, IsSpace), "")) else None
  }

  /** The text after the two fence substitutions. */
  function Unfenced(text: string): (r: string)
    ensures NoFence(r)
  {
    FenceFree(SubAll(text, FenceJsonAt));
    SubAll(SubAll(text, FenceJsonAt), FenceAt)
  }

  predicate IsCloseBrace(c: char) {
    c == '}'
  }

  /** `\{.*\}` with DOTALL at `i`: a `{`, then up to and including the last `}` after it. */
  function BraceAt(t: string, i: nat): (e: Option<nat>)
    ensures e.Some? ==> i + 1 < e.value <= |t| && t[i] == '{' && t[e.value - 1] == '}'
  {
    if i < |t| && t[i] == '{' then
      match LastWhere(t, i + 1, |t|, IsCloseBrace)
      case Some(j) => Some(j + 1)
      case None => None
    else None
  }

  /** The text of the leftmost `\{.*\}` match, or all of `t` when there is none. */
  function BraceSpan(t: string): (r: string)
    ensures r == t || (2 <= |r| && r[0] == '{' && r[|r| - 1] == '}')
    ensures NoFence(t) ==> NoFence(r)
  {
    match FirstMatch(t, 0, BraceAt)
    case Some((i, e)) =>
      assert NoFence(t) ==> NoFence(t[i..e]) by {
        if NoFence(t) { NoFenceSlice(t, i, e); }
      }
      t[i..e]
    case None => t
  }

  /** `_clean_response`. */
  function CleanResponse(text: string): (r: string)
    ensures NoFence(r)
  {
    NoFenceStrip(BraceSpan(Unfenced(text)));
    Strip(BraceSpan(Unfenced(text)))
  }

  /** No code fence marker starts anywhere in `r`. */
  predicate NoFence(r: string) {
    forall k :: 0 <= k < |r| ==> !TripleAt(r, k)
  }

  /**
   * What removing every `` ```\s* `` from `u` gives `r`: no marker, and a
   * text that starts with one or two backticks only when `u` does.
   */
  predicate FenceFacts(u: string, r: string) {
    && NoFence(r)
    && (r != [] && r[0] == '`' ==> u != [] && u[0] == '`')
    && (|r| >= 2 && r[0] == '`' && r[1] == '`' ==> |u| >= 2 && u[0] == '`' && u[1] == '`')
  }

  /** A marker removed at the front: the facts about the rest carry over. */
  lemma FenceFactsReplace(u: string, n: nat, r: string)
    requires TripleAt(u, 0) && 3 <= n <= |u| && FenceFacts(u[n..], r)
    ensures FenceFacts(u, r)
  {
  }

  /**
   * A character copied where no marker starts: no backtick is copied right
   * before a removed marker, so no three copied backticks can meet.
   */
  lemma FenceFactsCopy(u: string, r': string)
    requires u != [] && !TripleAt(u, 0) && FenceFacts(u[1..], r')
    ensures FenceFacts(u, [u[0]] + r')
  {
    var r := [u[0]] + r';
    forall k | 1 <= k < |r| ensures !TripleAt(r, k) {
      assert TripleAt(r, k) == TripleAt(r', k - 1);
    }
    assert |u[1..]| >= 2 ==> u[1..][0] == u[1] && u[1..][1] == u[2];
  }

  /** Removing every `` ```\s* `` leaves no marker behind. */
  lemma {:induction false} FenceFree(u: string)
    ensures FenceFacts(u, SubAll(u, FenceAt))
    decreases |u|
  {
    if u != [] {
      match FenceAt(u)
      case Some((n, rep)) =>
        SubAllReplace(u, FenceAt, n, rep);
        assert SubAll(u, FenceAt) == SubAll(u[n..], FenceAt);
        FenceFree(u[n..]);
        FenceFactsReplace(u, n, SubAll(u[n..], FenceAt));
      case None =>
        SubAllCopy(u, FenceAt);
        FenceFree(u[1..]);
        FenceFactsCopy(u, SubAll(u[1..], FenceAt));
    }
  }

  /** A text without backticks comes through the fence substitutions unchanged. */
  lemma UnfencedWithoutBackticks(text: string)
    requires forall k :: 0 <= k < |text| ==> text[k] != '`'
    ensures Unfenced(text) == text
  {
    forall j | 0 <= j < |text| ensures FenceJsonAt(text[j..]).None? {
      if LitAt(text[j..], 0, "```json") {
        LitAtHead(text[j..], 0, "```json");
      }
    }
    SubAllNoMatch(text, FenceJsonAt);
    assert forall j :: 0 <= j < |text| ==> text[j..][0] == text[j];
    SubAllNoMatch(text, FenceAt);
  }

  /** A slice of a fence-free text is fence-free. */
  lemma NoFenceSlice(t: string, a: nat, b: nat)
    requires a <= b <= |t| && NoFence(t)
    ensures NoFence(t[a..b])
  {
    forall k | 0 <= k < b - a ensures !TripleAt(t[a..b], k) {
      assert TripleAt(t[a..b], k) ==> TripleAt(t, a + k);
    }
  }

  /** The span is the text from the first `{` to the last `}`, when a `}` follows the first `{`. */
  lemma BraceSpanIs(t: string, i: nat, j: nat)
    requires i < j < |t| && t[i] == '{' && t[j] == '}'
    requires forall k :: 0 <= k < i ==> t[k] != '{'
    requires forall k :: j < k < |t| ==> t[k] != '}'
    ensures BraceSpan(t) == t[i..j + 1]
  {
    assert LastWhere(t, i + 1, |t|, IsCloseBrace) == Some(j);
    assert BraceAt(t, i) == Some(j + 1);
    FirstMatchIs(t, 0, BraceAt, i);
  }

  /** Without a `}` after some `{`, the span is the whole text. */
  lemma BraceSpanNone(t: string)
    requires forall i, j :: 0 <= i < j < |t| && t[i] == '{' ==> t[j] != '}'
    ensures BraceSpan(t) == t
  {
    forall i | 0 <= i <= |t| ensures BraceAt(t, i).None? {
      if i < |t| && t[i] == '{' {
        assert forall k :: i + 1 <= k < |t| ==> !IsCloseBrace(t[k]);
      }
    }
  }

  /** `_clean_response` keeps exactly the stripped span from the first `{` to the last `}`. */
  lemma CleanResponseSpan(text: string, i: nat, j: nat)
    requires var t := Unfenced(text);
      && i < j < |t| && t[i] == '{' && t[j] == '}'
      && (forall k :: 0 <= k < i ==> t[k] != '{')
      && (forall k :: j < k < |t| ==> t[k] != '}')
    ensures CleanResponse(text) == Strip(Unfenced(text)[i..j + 1])
  {
    BraceSpanIs(Unfenced(text), i, j);
  }

  /** Without braces to span, `_clean_response` is the stripped fence-free text. */
  lemma CleanResponseNoSpan(text: string)
    requires var t := Unfenced(text);
      forall i, j :: 0 <= i < j < |t| && t[i] == '{' ==> t[j] != '}'
    ensures CleanResponse(text) == Strip(Unfenced(text))
  {
    BraceSpanNone(Unfenced(text));
  }

  /** Stripping text without a fence marker leaves none. */
  lemma NoFenceStrip(h: string)
    requires NoFence(h)
    ensures NoFence(Strip(h))
  {
    var lo := StripStart(h);
    assert Strip(h) == h[lo..lo + |Strip(h)|];
    NoFenceSlice(h, lo, lo + |Strip(h)|);
  }

  // ------------------------------------------------------------ parsing

  /** The fields of `JDExtractionResult` read from the decoded object, in declaration order. */
  function FieldOrder(): seq<string> {
    ["bill_rate", "duration", "experience_required", "gbams_rgs_id", "ai_location", "skills", "role_description", "msp_owner"]
  }

  /** A value pydantic accepts for an `Optional[str]` field. */
  predicate ValidStr(v: Value) {
    v.Null? || v.Str?
  }

  /** A value that gives pydantic a valid `skills`: anything but a list is dropped first; a list must hold strings. */
  predicate ValidSkills(v: Value) {
    v.Array? ==> forall k :: 0 <= k < |v.items| ==> v.items[k].Str?
  }

  predicate ValidField(name: string, v: Value) {
    if name == "skills" then ValidSkills(v) else ValidStr(v)
  }

  /** The names among `names` whose value in `d` pydantic rejects, in order. */
  function InvalidFields(d: map<string, Value>, names: seq<string>): (bad: seq<string>)
    ensures bad == [] <==> forall k :: 0 <= k < |names| ==> ValidField(names[k], Get(d, names[k]))
    ensures forall k :: 0 <= k < |bad| ==> bad[k] in names && !ValidField(bad[k], Get(d, bad[k]))
  {
    if names == [] then []
    else
      var rest := InvalidFields(d, names[1..]);
      assert forall k :: 1 <= k < |names| ==> names[k] == names[1..][k - 1];
      if ValidField(names[0], Get(d, names[0])) then rest else [names[0]] + rest
  }

  /** The string a valid `Optional[str]` value gives. */
  function StrValue(v: Value): Option<string> {
    if v.Str? then Some(v.s) else None
  }

  /** The `skills` value: a list of strings is kept, anything else becomes `None`. */
  function SkillsValue(v: Value): Option<seq<string>>
    requires ValidSkills(v)
  {
    if v.Array? then Some(seq(|v.items|, k requires 0 <= k < |v.items| => v.items[k].s)) else None
  }

  /** The record built from a decoded object whose values pydantic accepts. */
  function BuildResult(d: map<string, Value>, modelName: string): (r: JDExtractionResult)
    requires InvalidFields(d, FieldOrder()) == []
    ensures && CopiedFrom(r.billRate, Get(d, "bill_rate"))
      && CopiedFrom(r.duration, Get(d, "duration"))
      && CopiedFrom(r.experienceRequired, Get(d, "experience_required"))
      && CopiedFrom(r.gbamsRgsId, Get(d, "gbams_rgs_id"))
      && CopiedFrom(r.aiLocation, Get(d, "ai_location"))
      && SkillsCopiedFrom(r.skills, Get(d, "skills"))
      && CopiedFrom(r.roleDescription, Get(d, "role_description"))
      && CopiedFrom(r.mspOwner, Get(d, "msp_owner"))
      && r.aiModelUsed == Some(modelName)
      && r.aiExtractionStatus == Some(Success)
  {
    var names := FieldOrder();
    assert forall k :: 0 <= k < 8 ==> ValidField(names[k], Get(d, names[k]));
    assert ValidStr(Get(d, names[0])) && ValidStr(Get(d, names[1])) && ValidStr(Get(d, names[2])) && ValidStr(Get(d, names[3]));
    assert ValidStr(Get(d, names[4])) && ValidSkills(Get(d, names[5])) && ValidStr(Get(d, names[6])) && ValidStr(Get(d, names[7]));
    JDExtractionResult(
      StrValue(Get(d, "bill_rate")),
      StrValue(Get(d, "duration")),
      StrValue(Get(d, "experience_required")),
      StrValue(Get(d, "gbams_rgs_id")),
      StrValue(Get(d, "ai_location")),
      SkillsValue(Get(d, "skills")),
      StrValue(Get(d, "role_description")),
      StrValue(Get(d, "msp_owner")),
      Some(modelName),
      Some(Success))
  }

  /** `parse_extraction_response`; every failure is an `AIExtractionError`. */
  function ParseExtractionResponse(
    rawResponse: string, modelName: string,
    loads: string -> Result<Value, string>, report: seq<string> -> string): (r: Result<JDExtractionResult, AIError>)
    ensures r.Err? ==> r.error.AIExtractionError?
  {
    match loads(CleanResponse(rawResponse))
    case Err(detail) => Err(AIExtractionError("Failed to parse JSON: " + detail))
    case Ok(data) =>
      if !data.Object? then Err(AIExtractionError("Failed to parse extraction: Response is not a JSON object"))
      else
        var bad := InvalidFields(data.members, FieldOrder());
        if bad != [] then Err(AIExtractionError("Failed to parse extraction: " + report(bad)))
        else Ok(BuildResult(data.members, modelName))
  }

  /** A field holds `None` exactly when the key is absent or null, and otherwise the string stored there. */
  predicate CopiedFrom(f: Option<string>, v: Value) {
    match f
    case None => v == Null
    case Some(s) => v == Str(s)
  }

  /** `skills` is the list's strings, in order, when the value is a list, and `None` otherwise. */
  predicate SkillsCopiedFrom(f: Option<seq<string>>, v: Value) {
    if v.Array? then f.Some? && |f.value| == |v.items| && forall k :: 0 <= k < |v.items| ==> v.items[k] == Str(f.value[k])
    else f.None?
  }

  /** Undecodable text surfaces as one `AIExtractionError` carrying the decoder's message. */
  lemma ParseJsonFailure(rawResponse: string, modelName: string, loads: string -> Result<Value, string>, report: seq<string> -> string)
    requires loads(CleanResponse(rawResponse)).Err?
    ensures ParseExtractionResponse(rawResponse, modelName, loads, report)
      == Err(AIExtractionError("Failed to parse JSON: " + loads(CleanResponse(rawResponse)).error))
  {
  }

  /** A decoded value that is not an object is rejected. */
  lemma ParseNotAnObject(rawResponse: string, modelName: string, loads: string -> Result<Value, string>, report: seq<string> -> string)
    requires loads(CleanResponse(rawResponse)).Ok? && !loads(CleanResponse(rawResponse)).value.Object?
    ensures ParseExtractionResponse(rawResponse, modelName, loads, report)
      == Err(AIExtractionError("Failed to parse extraction: Response is not a JSON object"))
  {
  }

  /** Parsing succeeds exactly when the cleaned text decodes to an object whose eight fields pydantic accepts. */
  lemma ParseSucceedsIff(rawResponse: string, modelName: string, loads: string -> Result<Value, string>, report: seq<string> -> string)
    ensures ParseExtractionResponse(rawResponse, modelName, loads, report).Ok? <==>
      var decoded := loads(CleanResponse(rawResponse));
      decoded.Ok? && decoded.value.Object? &&
      forall k :: 0 <= k < 8 ==> ValidField(FieldOrder()[k], Get(decoded.value.members, FieldOrder()[k]))
  {
  }

  /**
   * On success the eight fields are the object's values, with absent keys
   * as `None`, `skills` kept only when it is a list, the model's name
   * recorded and the status `SUCCESS`.
   */
  lemma ParsedFieldsCopied(rawResponse: string, modelName: string, loads: string -> Result<Value, string>, report: seq<string> -> string)
    requires ParseExtractionResponse(rawResponse, modelName, loads, report).Ok?
    ensures var r := ParseExtractionResponse(rawResponse, modelName, loads, report).value;
      var d := loads(CleanResponse(rawResponse)).value.members;
      && CopiedFrom(r.billRate, Get(d, "bill_rate"))
      && CopiedFrom(r.duration, Get(d, "duration"))
      && CopiedFrom(r.experienceRequired, Get(d, "experience_required"))
      && CopiedFrom(r.gbamsRgsId, Get(d, "gbams_rgs_id"))
      && CopiedFrom(r.aiLocation, Get(d, "ai_location"))
      && SkillsCopiedFrom(r.skills, Get(d, "skills"))
      && CopiedFrom(r.roleDescription, Get(d, "role_description"))
      && CopiedFrom(r.mspOwner, Get(d, "msp_owner"))
      && r.aiModelUsed == Some(modelName)
      && r.aiExtractionStatus == Some(Success)
  {
  }

  /** `create_fallback_result`: status `FAILED`, the message in `role_description`, every other field `None`. */
  function CreateFallbackResult(errorMsg: string): (r: JDExtractionResult)
    ensures r.aiExtractionStatus == Some(Failed)
    ensures r.roleDescription == Some("Extraction failed: " + errorMsg)
    ensures r.(aiExtractionStatus := None, roleDescription := None) == EmptyResult()
  {
    EmptyResult().(aiExtractionStatus := Some(Failed), roleDescription := Some("Extraction failed: " + errorMsg))
  }
}
