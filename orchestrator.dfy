/**
 * `AIOrchestrator` of services/ai/orchestrator.py: try the providers
 * ollama, gemini and openai in that order, log every attempt, and return
 * the first result that both the provider and the parser deliver.
 *
 * A provider call is an abstract outcome: the raw text with the response
 * time (and, from openai, the token usage), or the message of the
 * `AIExtractionError` the provider raised. The audit repository is an
 * object whose list of saved entries grows; saving never fails.
 */
module Orchestrator {
  import opened Wrappers
  import opened Json
  import opened JdResult
  import opened Errors
  import ResponseParser

  /** The three token counts an openai call reports; a missing count is `None`. */
  datatype TokenUsage = TokenUsage(promptTokens: Option<int>, completionTokens: Option<int>, totalTokens: Option<int>)

  /** The empty usage dictionary `{}` the other providers log. */
  function NoUsage(): TokenUsage {
    TokenUsage(None, None, None)
  }

  /** What one provider's `extract_jd` does for the description. */
  datatype ProviderOutcome =
    | Responded(rawText: string, responseTimeMs: int, usage: TokenUsage)
    | Raised(message: string)

  /** The providers, as (type, name), in the order they are tried. */
  function Services(): seq<(string, string)> {
    [("ollama", "Ollama"), ("gemini", "Gemini"), ("openai", "OpenAI")]
  }

  /** The provider types alone, in order. */
  function ServiceTypes(): (r: seq<string>)
    ensures |r| == |Services()| && forall j :: 0 <= j < |r| ==> r[j] == Services()[j].0
  {
    ["ollama", "gemini", "openai"]
  }

  /** Only the openai call returns token usage; the others log `{}`. */
  function UsageFor(serviceType: string, usage: TokenUsage): (u: TokenUsage)
    ensures serviceType != "openai" ==> u == NoUsage()
    ensures serviceType == "openai" ==> u == usage
  {
    if serviceType == "openai" then usage else NoUsage()
  }

  /** The entry `_log_success` saves. */
  function SuccessEntry(requestId: string, modelName: string, modelType: string, responseTime: int, usage: TokenUsage): AIAuditLog {
    AIAuditLog(requestId, modelName, modelType, usage.promptTokens, usage.completionTokens, usage.totalTokens,
      responseTime, Success, None)
  }

  /** The entry `_log_failure` saves. */
  function FailureEntry(requestId: string, modelName: string, modelType: string, errorMsg: string): AIAuditLog {
    AIAuditLog(requestId, modelName, modelType, None, None, None, 0, Failed, Some(errorMsg))
  }

  /** `health_check`: one flag per provider, under its type. */
  function HealthCheck(health: string -> bool): (r: map<string, bool>)
    ensures r.Keys == {"ollama", "gemini", "openai"}
    ensures forall k :: k in r ==> r[k] == health(k)
  {
    map["ollama" := health("ollama"), "gemini" := health("gemini"), "openai" := health("openai")]
  }

  /** The audit log collection of `JDRepository`, as the list of entries handed to `save_audit_log`. */
  class AuditRepository {
    var logs: seq<AIAuditLog>

    constructor()
      ensures logs == []
    {
      logs := [];
    }

    /** `save_audit_log`: a storage error is swallowed, so the call always returns. */
    method SaveAuditLog(log: AIAuditLog)
      modifies this
      ensures logs == old(logs) + [log]
    {
      logs := logs + [log];
    }
  }

  /** A parser of raw provider text for a named model, as `parse_extraction_response` is one. */
  type Parser = (string, string) -> Result<JDExtractionResult, AIError>

  /** The outcome of `_extract_with_service` as a value: the provider's error, or the parser's verdict. */
  function Attempt(parse: Parser, outcome: ProviderOutcome, serviceName: string): (r: Result<JDExtractionResult, AIError>)
    ensures outcome.Raised? ==> r == Err(AIExtractionError(outcome.message))
    ensures outcome.Responded? ==> r == parse(outcome.rawText, serviceName)
  {
    match outcome
    case Raised(message) => Err(AIExtractionError(message))
    case Responded(rawText, _, _) => parse(rawText, serviceName)
  }

  /** The outcome of provider `i` of the list. */
  function OutcomeAt(providers: (string, string) -> ProviderOutcome, jdText: string, i: nat): ProviderOutcome
    requires i < 3
  {
    providers(Services()[i].0, jdText)
  }

  /** The attempt at provider `i` of the list. */
  function AttemptAt(parse: Parser, providers: (string, string) -> ProviderOutcome, jdText: string, i: nat): Result<JDExtractionResult, AIError>
    requires i < 3
  {
    Attempt(parse, OutcomeAt(providers, jdText, i), Services()[i].1)
  }

  /** The entry logged for a success at provider `i`. */
  function SuccessAt(parse: Parser, providers: (string, string) -> ProviderOutcome, jdText: string, requestId: string, i: nat): AIAuditLog
    requires i < 3 && AttemptAt(parse, providers, jdText, i).Ok?
  {
    var outcome := OutcomeAt(providers, jdText, i);
    SuccessEntry(requestId, Services()[i].1, Services()[i].0, outcome.responseTimeMs, UsageFor(Services()[i].0, outcome.usage))
  }

  /** The entry logged for a failure at provider `i`. */
  function FailureAt(parse: Parser, providers: (string, string) -> ProviderOutcome, jdText: string, requestId: string, i: nat): AIAuditLog
    requires i < 3 && AttemptAt(parse, providers, jdText, i).Err?
  {
    FailureEntry(requestId, Services()[i].1, Services()[i].0, AttemptAt(parse, providers, jdText, i).error.message)
  }

  /** What the whole chain gives: the result, the entries logged and the providers called, in order. */
  datatype ChainRun = ChainRun(result: Result<JDExtractionResult, AIError>, logged: seq<AIAuditLog>, called: seq<string>)

  /** The chain from provider `i` on, `lastError` being the message of the last failure so far. */
  function ChainFrom(parse: Parser, providers: (string, string) -> ProviderOutcome, jdText: string, requestId: string,
      i: nat, lastError: string): (r: ChainRun)
    requires i <= 3
    ensures |r.logged| == |r.called| <= 3 - i
    ensures r.result.Ok? ==> 1 <= |r.called|
    ensures r.result.Err? ==> r.result.error.AIServiceUnavailableError? && |r.called| == 3 - i
    ensures i < 3 ==> r.called[0] == Services()[i].0
    decreases 3 - i
  {
    if i == 3 then ChainRun(Err(AIServiceUnavailableError("All AI services unavailable", lastError)), [], [])
    else
      var a := AttemptAt(parse, providers, jdText, i);
      if a.Ok? then
        ChainRun(a, [SuccessAt(parse, providers, jdText, requestId, i)], [Services()[i].0])
      else
        var rest := ChainFrom(parse, providers, jdText, requestId, i + 1, a.error.message);
        ChainRun(rest.result, [FailureAt(parse, providers, jdText, requestId, i)] + rest.logged, [Services()[i].0] + rest.called)
  }

  /** The chain `extract_jd` runs; before the first failure the last error is `str(None)`. */
  function Chain(parse: Parser, providers: (string, string) -> ProviderOutcome, jdText: string, requestId: string): (r: ChainRun)
    ensures 1 <= |r.logged| == |r.called| <= 3 && r.called[0] == "ollama"
    ensures r.result.Err? ==> r.result.error.AIServiceUnavailableError? && r.called == ["ollama", "gemini", "openai"]
  {
    ChainFrom(parse, providers, jdText, requestId, 0, "None")
  }

  /** One step of the chain at provider `i`. */
  lemma ChainFromStep(parse: Parser, providers: (string, string) -> ProviderOutcome, jdText: string, requestId: string,
      i: nat, lastError: string)
    requires i < 3
    ensures AttemptAt(parse, providers, jdText, i).Ok? ==>
      ChainFrom(parse, providers, jdText, requestId, i, lastError) ==
        ChainRun(AttemptAt(parse, providers, jdText, i), [SuccessAt(parse, providers, jdText, requestId, i)], [Services()[i].0])
    ensures AttemptAt(parse, providers, jdText, i).Err? ==>
      var rest := ChainFrom(parse, providers, jdText, requestId, i + 1, AttemptAt(parse, providers, jdText, i).error.message);
      ChainFrom(parse, providers, jdText, requestId, i, lastError) ==
        ChainRun(rest.result, [FailureAt(parse, providers, jdText, requestId, i)] + rest.logged, [Services()[i].0] + rest.called)
  {
  }

  /** `run` is what has been logged and called so far followed by the run of the rest of the chain. */
  predicate Continues(run: ChainRun, logged: seq<AIAuditLog>, called: seq<string>, rest: ChainRun) {
    run.result == rest.result && run.logged == logged + rest.logged && run.called == called + rest.called
  }

  lemma ContinuesStep(run: ChainRun, logged: seq<AIAuditLog>, called: seq<string>, entry: AIAuditLog, rest: ChainRun)
    requires |called| > 0
    requires Continues(run, logged, called[..|called| - 1], ChainRun(rest.result, [entry] + rest.logged, [called[|called| - 1]] + rest.called))
    ensures Continues(run, logged + [entry], called, rest)
  {
    assert called[..|called| - 1] + ([called[|called| - 1]] + rest.called) == called + rest.called;
  }

  lemma ContinuesDone(run: ChainRun, logged: seq<AIAuditLog>, called: seq<string>, entry: AIAuditLog)
    requires |called| > 0
    requires Continues(run, logged, called[..|called| - 1], ChainRun(run.result, [entry], [called[|called| - 1]]))
    ensures run.logged == logged + [entry] && run.called == called
  {
    assert called[..|called| - 1] + [called[|called| - 1]] == called;
  }

  /** A run from provider `i` calls the providers from `i` on in list order, logs one entry per call, and
      ends in an error only after calling every remaining provider, with the "all unavailable" error. */
  predicate CallsFrom(run: ChainRun, i: nat)
    requires i < 3
  {
    && 1 <= |run.called| <= 3 - i
    && |run.logged| == |run.called|
    && run.called == ServiceTypes()[i..i + |run.called|]
    && (run.result.Err? ==>
          |run.called| == 3 - i && run.result.error.AIServiceUnavailableError?
          && run.result.error.message == "All AI services unavailable")
  }

  /** Entry `m` of a run from provider `i` is about provider `i + m` and the request; only openai
      entries carry token counts. */
  predicate EntriesFrom(run: ChainRun, requestId: string, i: nat) {
    forall m :: 0 <= m < |run.logged| ==>
      && i + m < 3
      && run.logged[m].requestId == requestId
      && run.logged[m].modelType == Services()[i + m].0
      && run.logged[m].modelName == Services()[i + m].1
      && (run.logged[m].modelType != "openai" ==>
            run.logged[m].promptTokens.None? && run.logged[m].completionTokens.None? && run.logged[m].totalTokens.None?)
  }

  /** Every entry but the last records a failure with no response time; the last records a success
      exactly when the run succeeded. */
  predicate StatusesOf(run: ChainRun) {
    && |run.logged| > 0
    && (forall m :: 0 <= m < |run.logged| - 1 ==> run.logged[m].status == Failed && run.logged[m].responseTimeMs == 0)
    && (run.logged[|run.logged| - 1].status == Success <==> run.result.Ok?)
  }

  lemma {:induction false} ChainFromCalls(parse: Parser, providers: (string, string) -> ProviderOutcome, jdText: string, requestId: string,
      i: nat, lastError: string)
    requires i < 3
    ensures CallsFrom(ChainFrom(parse, providers, jdText, requestId, i, lastError), i)
    decreases 3 - i
  {
    ChainFromStep(parse, providers, jdText, requestId, i, lastError);
    var a := AttemptAt(parse, providers, jdText, i);
    var run := ChainFrom(parse, providers, jdText, requestId, i, lastError);
    if a.Ok? || i == 2 {
      assert run.called == [ServiceTypes()[i]];
      assert ServiceTypes()[i..i + 1] == [ServiceTypes()[i]];
    } else {
      ChainFromCalls(parse, providers, jdText, requestId, i + 1, a.error.message);
      var rest := ChainFrom(parse, providers, jdText, requestId, i + 1, a.error.message);
      assert run.called == [ServiceTypes()[i]] + rest.called;
      assert ServiceTypes()[i..i + |run.called|] == [ServiceTypes()[i]] + ServiceTypes()[i + 1..i + 1 + |rest.called|];
    }
  }

  lemma {:induction false} ChainFromEntries(parse: Parser, providers: (string, string) -> ProviderOutcome, jdText: string, requestId: string,
      i: nat, lastError: string)
    requires i < 3
    ensures EntriesFrom(ChainFrom(parse, providers, jdText, requestId, i, lastError), requestId, i)
    decreases 3 - i
  {
    ChainFromStep(parse, providers, jdText, requestId, i, lastError);
    var a := AttemptAt(parse, providers, jdText, i);
    if a.Err? && i < 2 {
      ChainFromEntries(parse, providers, jdText, requestId, i + 1, a.error.message);
      var rest := ChainFrom(parse, providers, jdText, requestId, i + 1, a.error.message);
      var run := ChainFrom(parse, providers, jdText, requestId, i, lastError);
      forall m | 1 <= m < |run.logged|
        ensures run.logged[m] == rest.logged[m - 1]
      {
      }
    } else if a.Err? {
      assert ChainFrom(parse, providers, jdText, requestId, i + 1, a.error.message).logged == [];
    }
  }

  lemma {:induction false} ChainFromStatuses(parse: Parser, providers: (string, string) -> ProviderOutcome, jdText: string, requestId: string,
      i: nat, lastError: string)
    requires i < 3
    ensures StatusesOf(ChainFrom(parse, providers, jdText, requestId, i, lastError))
    decreases 3 - i
  {
    ChainFromStep(parse, providers, jdText, requestId, i, lastError);
    var a := AttemptAt(parse, providers, jdText, i);
    if a.Err? && i < 2 {
      ChainFromStatuses(parse, providers, jdText, requestId, i + 1, a.error.message);
      var rest := ChainFrom(parse, providers, jdText, requestId, i + 1, a.error.message);
      var run := ChainFrom(parse, providers, jdText, requestId, i, lastError);
      forall m | 1 <= m < |run.logged|
        ensures run.logged[m] == rest.logged[m - 1]
      {
      }
    } else if a.Err? {
      assert ChainFrom(parse, providers, jdText, requestId, i + 1, a.error.message).logged == [];
    }
  }

  /** The shape of the whole chain, which starts at ollama. */
  lemma ChainShape(parse: Parser, providers: (string, string) -> ProviderOutcome, jdText: string, requestId: string)
    ensures CallsFrom(Chain(parse, providers, jdText, requestId), 0)
    ensures EntriesFrom(Chain(parse, providers, jdText, requestId), requestId, 0)
    ensures StatusesOf(Chain(parse, providers, jdText, requestId))
  {
    ChainFromCalls(parse, providers, jdText, requestId, 0, "None");
    ChainFromEntries(parse, providers, jdText, requestId, 0, "None");
    ChainFromStatuses(parse, providers, jdText, requestId, 0, "None");
  }

  /** When providers `i` to `k - 1` fail and provider `k` succeeds, the chain from `i` stops at `k` with its
      result, one failure entry per provider before it and then the success entry. */
  lemma {:induction false} ChainFromFirstSuccess(parse: Parser, providers: (string, string) -> ProviderOutcome, jdText: string,
      requestId: string, i: nat, lastError: string, k: nat)
    requires i <= k < 3
    requires AttemptAt(parse, providers, jdText, k).Ok?
    requires forall j :: i <= j < k ==> AttemptAt(parse, providers, jdText, j).Err?
    ensures var run := ChainFrom(parse, providers, jdText, requestId, i, lastError);
      && run.result == AttemptAt(parse, providers, jdText, k)
      && run.called == ServiceTypes()[i..k + 1]
      && |run.logged| == k + 1 - i
      && run.logged[k - i] == SuccessAt(parse, providers, jdText, requestId, k)
      && (forall j :: i <= j < k ==> run.logged[j - i] == FailureAt(parse, providers, jdText, requestId, j))
    decreases k - i
  {
    ChainFromStep(parse, providers, jdText, requestId, i, lastError);
    var run := ChainFrom(parse, providers, jdText, requestId, i, lastError);
    if i < k {
      var a := AttemptAt(parse, providers, jdText, i);
      assert a.Err?;
      ChainFromFirstSuccess(parse, providers, jdText, requestId, i + 1, a.error.message, k);
      var rest := ChainFrom(parse, providers, jdText, requestId, i + 1, a.error.message);
      assert run.logged == [FailureAt(parse, providers, jdText, requestId, i)] + rest.logged;
      assert run.called == [ServiceTypes()[i]] + rest.called;
      assert ServiceTypes()[i..k + 1] == [ServiceTypes()[i]] + ServiceTypes()[i + 1..k + 1];
      forall j | i < j < k
        ensures run.logged[j - i] == FailureAt(parse, providers, jdText, requestId, j)
      {
        assert run.logged[j - i] == rest.logged[j - (i + 1)];
      }
      assert run.logged[k - i] == rest.logged[k - (i + 1)];
    } else {
      assert run.called == [ServiceTypes()[i]];
      assert ServiceTypes()[i..k + 1] == [ServiceTypes()[i]];
    }
  }

  /** The chain's result is the first provider's successful attempt. */
  lemma ChainFirstSuccess(parse: Parser, providers: (string, string) -> ProviderOutcome, jdText: string, requestId: string, k: nat)
    requires k < 3
    requires AttemptAt(parse, providers, jdText, k).Ok?
    requires forall j :: 0 <= j < k ==> AttemptAt(parse, providers, jdText, j).Err?
    ensures var run := Chain(parse, providers, jdText, requestId);
      && run.result == AttemptAt(parse, providers, jdText, k)
      && run.called == ServiceTypes()[..k + 1]
      && |run.logged| == k + 1
      && run.logged[k] == SuccessAt(parse, providers, jdText, requestId, k)
      && (forall j :: 0 <= j < k ==> run.logged[j] == FailureAt(parse, providers, jdText, requestId, j))
  {
    ChainFromFirstSuccess(parse, providers, jdText, requestId, 0, "None", k);
  }

  /** When every provider fails, all three are called, each failure is logged with its message, and the
      error raised carries the message of the last failure. */
  lemma ChainAllFail(parse: Parser, providers: (string, string) -> ProviderOutcome, jdText: string, requestId: string)
    requires forall j :: 0 <= j < 3 ==> AttemptAt(parse, providers, jdText, j).Err?
    ensures var run := Chain(parse, providers, jdText, requestId);
      && run.result == Err(AIServiceUnavailableError("All AI services unavailable", AttemptAt(parse, providers, jdText, 2).error.message))
      && run.called == ServiceTypes()
      && |run.logged| == 3
      && (forall j :: 0 <= j < 3 ==> run.logged[j] == FailureAt(parse, providers, jdText, requestId, j))
  {
    assert AttemptAt(parse, providers, jdText, 0).Err?;
    assert AttemptAt(parse, providers, jdText, 1).Err?;
    assert AttemptAt(parse, providers, jdText, 2).Err?;
  }

  /** The chain succeeds exactly when some provider's attempt does. */
  lemma ChainSucceedsIff(parse: Parser, providers: (string, string) -> ProviderOutcome, jdText: string, requestId: string)
    ensures Chain(parse, providers, jdText, requestId).result.Ok? <==> exists k :: 0 <= k < 3 && AttemptAt(parse, providers, jdText, k).Ok?
  {
    if AttemptAt(parse, providers, jdText, 0).Ok? {
      ChainFirstSuccess(parse, providers, jdText, requestId, 0);
    } else if AttemptAt(parse, providers, jdText, 1).Ok? {
      ChainFirstSuccess(parse, providers, jdText, requestId, 1);
    } else if AttemptAt(parse, providers, jdText, 2).Ok? {
      ChainFirstSuccess(parse, providers, jdText, requestId, 2);
    } else {
      ChainAllFail(parse, providers, jdText, requestId);
    }
  }

  class AIOrchestrator {
    const repository: AuditRepository
    /** `json.loads`, used by the parser. */
    const loads: string -> Result<Value, string>
    /** The text of pydantic's validation error for the named fields. */
    const report: seq<string> -> string

    constructor(repository: AuditRepository, loads: string -> Result<Value, string>, report: seq<string> -> string)
      ensures this.repository == repository && this.loads == loads && this.report == report
    {
      this.repository := repository;
      this.loads := loads;
      this.report := report;
    }

    /** `parse_extraction_response` with this orchestrator's `json.loads`. */
    function Parse(): Parser {
      var loads, report := this.loads, this.report;
      (rawText: string, modelName: string) => ResponseParser.ParseExtractionResponse(rawText, modelName, loads, report)
    }

    /** `_log_success`. */
    method LogSuccess(requestId: string, modelName: string, modelType: string, responseTime: int, tokenUsage: TokenUsage)
      modifies repository
      ensures repository.logs == old(repository.logs) + [SuccessEntry(requestId, modelName, modelType, responseTime, tokenUsage)]
    {
      var auditLog := AIAuditLog(requestId, modelName, modelType,
        tokenUsage.promptTokens, tokenUsage.completionTokens, tokenUsage.totalTokens, responseTime, Success, None);
      repository.SaveAuditLog(auditLog);
    }

    /** `_log_failure`. */
    method LogFailure(requestId: string, modelName: string, modelType: string, errorMsg: string)
      modifies repository
      ensures repository.logs == old(repository.logs) + [FailureEntry(requestId, modelName, modelType, errorMsg)]
    {
      var auditLog := AIAuditLog(requestId, modelName, modelType, None, None, None, 0, Failed, Some(errorMsg));
      repository.SaveAuditLog(auditLog);
    }

    /** `_extract_with_service`: call the provider, parse, and log a success only once parsing has succeeded. */
    method ExtractWithService(outcome: ProviderOutcome, serviceType: string, serviceName: string, requestId: string)
      returns (r: Result<JDExtractionResult, AIError>)
      modifies repository
      ensures r == Attempt(Parse(), outcome, serviceName)
      ensures r.Ok? ==>
        repository.logs == old(repository.logs) + [SuccessEntry(requestId, serviceName, serviceType, outcome.responseTimeMs, UsageFor(serviceType, outcome.usage))]
      ensures r.Err? ==> repository.logs == old(repository.logs)
    {
      match outcome {
        case Raised(message) =>
          r := Err(AIExtractionError(message));
        case Responded(rawText, responseTime, usage) =>
          var tokenUsage := UsageFor(serviceType, usage);
          r := ResponseParser.ParseExtractionResponse(rawText, serviceName, loads, report);
          assert r == Parse()(rawText, serviceName);
          if r.Ok? {
            LogSuccess(requestId, serviceName, serviceType, responseTime, tokenUsage);
          }
      }
    }

    /** `extract_jd`: the fallback loop. `called` lists the providers asked, in order. */
    method ExtractJd(jdText: string, requestId: string, providers: (string, string) -> ProviderOutcome)
      returns (r: Result<JDExtractionResult, AIError>, called: seq<string>)
      modifies repository
      ensures r == Chain(Parse(), providers, jdText, requestId).result
      ensures called == Chain(Parse(), providers, jdText, requestId).called
      ensures repository.logs == old(repository.logs) + Chain(Parse(), providers, jdText, requestId).logged
    {
      ghost var run := Chain(Parse(), providers, jdText, requestId);
      ghost var start := repository.logs;
      var services := Services();
      var lastError := "None";
      called := [];
      ghost var logged: seq<AIAuditLog> := [];
      for i := 0 to |services|
        invariant repository.logs == start + logged
        invariant Continues(run, logged, called, ChainFrom(Parse(), providers, jdText, requestId, i, lastError))
      {
        var (serviceType, serviceName) := services[i];
        called := called + [serviceType];
        var outcome := providers(serviceType, jdText);
        ghost var before := repository.logs;
        var result := ExtractWithService(outcome, serviceType, serviceName, requestId);
        ChainFromStep(Parse(), providers, jdText, requestId, i, lastError);
        if result.Ok? {
          ghost var entry := SuccessAt(Parse(), providers, jdText, requestId, i);
          assert repository.logs == before + [entry];
          AppendAssoc(start, logged, [entry]);
          ContinuesDone(run, logged, called, entry);
          return result, called;
        }
        lastError := result.error.message;
        LogFailure(requestId, serviceName, serviceType, lastError);
        ghost var entry := FailureAt(Parse(), providers, jdText, requestId, i);
        AppendAssoc(start, logged, [entry]);
        ContinuesStep(run, logged, called, entry, ChainFrom(Parse(), providers, jdText, requestId, i + 1, lastError));
        logged := logged + [entry];
      }
      r := Err(AIServiceUnavailableError("All AI services unavailable", lastError));
    }
  }
}
