/**
 * The DeepSeek client: the response of `chat_completion` (a mock without an
 * API key or after a failed request), the reasoning-depth count, the
 * extraction of a JSON plan from a response, the convergence test on plan
 * keys, and the bounded iterative planning loop.
 *
 * The HTTP exchange is an input (`ApiOutcome`, one per request); so are JSON
 * decoding (the key set of the decoded object, or `None` on a decode error),
 * the regular-expression section extraction, the floating-point confidence
 * score of a real response, and the clock.
 */
module DeepSeek {
  import opened Wrappers
  import opened Text

  // ---------------------------------------------------------------- responses

  datatype Usage = Usage(promptTokens: nat, completionTokens: nat, totalTokens: nat)

  datatype DeepSeekResponse = DeepSeekResponse(
    content: string, usage: Option<Usage>, model: string, reasoningDepth: int, confidenceScore: real)

  /** What the server does with one request. */
  datatype ApiOutcome =
    | Success(body: string, usage: Option<Usage>, servedModel: Option<string>)
    | HttpError(status: nat)
    | ConnectionError(message: string)

  /** `_mock_response`: fixed usage, depth 5 and confidence 0.8, whatever the content. */
  function MockResponse(content: string): (r: DeepSeekResponse)
    ensures r.content == content && r.reasoningDepth == 5 && r.confidenceScore == 0.8
    ensures r.usage == Some(Usage(100, 200, 300)) && r.model == "deepseek-chat"
  {
    DeepSeekResponse(content, Some(Usage(100, 200, 300)), "deepseek-chat", 5, 0.8)
  }

  const ReasoningIndicators: seq<string> := [
    "because", "therefore", "consequently", "as a result", "analysis", "evaluation", "consideration",
    "assessment", "pros and cons", "trade-offs", "implications"]

  /** How many of `indicators` occur in `text`. */
  function CountFound(indicators: seq<string>, text: string): (n: nat)
    ensures n <= |indicators|
  {
    if indicators == [] then 0
    else (if Contains(text, indicators[0]) then 1 else 0) + CountFound(indicators[1..], text)
  }

  /** `_analyze_reasoning_depth`: the number of indicator phrases in the lowered content, at most 10. */
  function AnalyzeReasoningDepth(content: string): (depth: int)
    ensures 0 <= depth <= 10
    ensures depth == if CountFound(ReasoningIndicators, Lower(content)) < 10 then CountFound(ReasoningIndicators, Lower(content)) else 10
  {
    var found := CountFound(ReasoningIndicators, Lower(content));
    if found < 10 then found else 10
  }

  /** A text that contains another finds at least the indicators the other finds. */
  lemma {:induction false} CountFoundMonotone(indicators: seq<string>, small: string, large: string)
    requires Contains(large, small)
    ensures CountFound(indicators, small) <= CountFound(indicators, large)
  {
    if indicators != [] {
      CountFoundMonotone(indicators[1..], small, large);
      if Contains(small, indicators[0]) {
        ContainsTransitive(large, small, indicators[0]);
      }
    }
  }

  lemma LowerAppend(a: string, b: string)
    ensures Lower(a + b) == Lower(a) + Lower(b)
  {
  }

  lemma PrefixContained(s: string, t: string)
    ensures Contains(s + t, s)
  {
    assert (s + t)[0..|s|] == s;
    assert OccursAt(s + t, s, 0);
  }

  /** More content never lowers the reasoning depth. */
  lemma DepthMonotone(a: string, b: string)
    ensures AnalyzeReasoningDepth(a) <= AnalyzeReasoningDepth(a + b)
  {
    LowerAppend(a, b);
    PrefixContained(Lower(a), Lower(b));
    CountFoundMonotone(ReasoningIndicators, Lower(a), Lower(a + b));
  }

  /** Python truthiness of an optional key. */
  predicate KeyConfigured(apiKey: Option<string>) {
    apiKey.Some? && apiKey.value != ""
  }

  /**
   * `chat_completion`: without a key the mock, and no request; a successful
   * request gives the first choice's content with its depth; an HTTP error or
   * a failed connection gives a mock carrying the reason.
   */
  function ChatCompletion(apiKey: Option<string>, model: string, outcome: ApiOutcome, confidence: string -> real)
    : (r: DeepSeekResponse)
    ensures !KeyConfigured(apiKey) ==> r == MockResponse("Mock response - API key not configured")
    ensures KeyConfigured(apiKey) && outcome.Success? ==>
              r.content == outcome.body && r.reasoningDepth == AnalyzeReasoningDepth(outcome.body)
    ensures KeyConfigured(apiKey) && outcome.HttpError? ==> r == MockResponse("API Error: " + NatToString(outcome.status))
    ensures KeyConfigured(apiKey) && outcome.ConnectionError? ==>
              r == MockResponse("Connection error: " + outcome.message)
  {
    if !KeyConfigured(apiKey) then MockResponse("Mock response - API key not configured")
    else match outcome
      case Success(body, usage, served) =>
        DeepSeekResponse(body, usage, if served.Some? then served.value else model,
                         AnalyzeReasoningDepth(body), confidence(body))
      case HttpError(status) => MockResponse("API Error: " + NatToString(status))
      case ConnectionError(message) => MockResponse("Connection error: " + message)
  }

  // ---------------------------------------------------------------- plans

  /** The values a plan holds: section text, numbers, the clock, or decoded JSON. */
  datatype PlanValue = Text(text: string) | Number(n: int) | Real(x: real) | Timestamp | JsonValue

  /** A plan: the decoded JSON object or the fallback's sections, with the loop's annotations. */
  type Plan = map<string, PlanValue>

  /** `response[first '{' : last '}' + 1]`, when the first '{' comes before the last '}'. */
  function BraceSlice(content: string): (r: Option<string>)
    ensures r.Some? ==> |r.value| >= 2 && r.value[0] == '{' && r.value[|r.value| - 1] == '}'
    ensures r.Some? <==> Find(content, "{") >= 0 && RFind(content, '}') + 1 > Find(content, "{")
    ensures r.Some? ==> r.value == content[Find(content, "{")..RFind(content, '}') + 1]
  {
    var start := Find(content, "{");
    var end := RFind(content, '}') + 1;
    if start >= 0 && end > start then
      assert OccursAt(content, "{", start);
      assert content[start..start + 1][0] == content[start];
      assert content[start] == '{';
      assert content[start] != '}';
      Some(content[start..end])
    else None
  }

  const FallbackSections: seq<(string, string)> := [
    ("architecture_overview", "architecture"),
    ("technical_stack", "technical|stack|technology"),
    ("implementation_phases", "phases|implementation"),
    ("risk_analysis", "risk|risks"),
    ("resource_estimates", "resource|estimate|timeline"),
    ("validation_strategy", "validation|testing"),
    ("key_decisions", "decision|decisions")]

  const FallbackKeys: set<string> := {
    "architecture_overview", "technical_stack", "implementation_phases", "risk_analysis",
    "resource_estimates", "validation_strategy", "key_decisions", "raw_response"}

  /** The structured-text fallback: the seven sections, by `extract`, and the raw response. */
  function Fallback(content: string, extract: (string, string) -> string): (plan: Plan)
    ensures plan.Keys == FallbackKeys
    ensures plan["raw_response"] == Text(content)
  {
    map[
      "architecture_overview" := Text(extract(content, "architecture")),
      "technical_stack" := Text(extract(content, "technical|stack|technology")),
      "implementation_phases" := Text(extract(content, "phases|implementation")),
      "risk_analysis" := Text(extract(content, "risk|risks")),
      "resource_estimates" := Text(extract(content, "resource|estimate|timeline")),
      "validation_strategy" := Text(extract(content, "validation|testing")),
      "key_decisions" := Text(extract(content, "decision|decisions")),
      "raw_response" := Text(content)]
  }

  /** Each of the seven sections holds what `extract` finds for its own keywords. */
  lemma FallbackSectionsExtracted(content: string, extract: (string, string) -> string, i: nat)
    requires i < |FallbackSections|
    ensures FallbackSections[i].0 in Fallback(content, extract)
    ensures Fallback(content, extract)[FallbackSections[i].0] == Text(extract(content, FallbackSections[i].1))
  {
    var plan := Fallback(content, extract);
    if i == 0 {
      assert plan["architecture_overview"] == Text(extract(content, "architecture"));
    } else if i == 1 {
      assert plan["technical_stack"] == Text(extract(content, "technical|stack|technology"));
    } else if i == 2 {
      assert plan["implementation_phases"] == Text(extract(content, "phases|implementation"));
    } else if i == 3 {
      assert plan["risk_analysis"] == Text(extract(content, "risk|risks"));
    } else if i == 4 {
      assert plan["resource_estimates"] == Text(extract(content, "resource|estimate|timeline"));
    } else if i == 5 {
      assert plan["validation_strategy"] == Text(extract(content, "validation|testing"));
    }
  }

  /** `_parse_planning_response`: the decoded brace slice, else the fallback. */
  function ParsePlanningResponse(content: string, parse: string -> Option<set<string>>, extract: (string, string) -> string)
    : (plan: Plan)
    ensures BraceSlice(content).Some? && parse(BraceSlice(content).value).Some? ==>
              plan.Keys == parse(BraceSlice(content).value).value
    ensures BraceSlice(content).None? || parse(BraceSlice(content).value).None? ==> plan == Fallback(content, extract)
  {
    var slice := BraceSlice(content);
    if slice.Some? && parse(slice.value).Some? then
      map k | k in parse(slice.value).value :: JsonValue
    else Fallback(content, extract)
  }

  /** Text without a '{' always falls back. */
  lemma NoBraceFallsBack(content: string, parse: string -> Option<set<string>>, extract: (string, string) -> string)
    requires '{' !in content
    ensures ParsePlanningResponse(content, parse, extract) == Fallback(content, extract)
  {
  }

  /**
   * `_check_convergence`: more than 80% of all keys are shared, i.e.
   * 5·|P∩C| > 4·|P∪C|. Two empty key sets divide by zero.
   */
  function CheckConvergence(previous: set<string>, current: set<string>): (r: Result<bool, string>)
    ensures r.Err? <==> previous == {} && current == {}
    ensures r.Ok? ==> (r.value <==> 5 * |previous * current| > 4 * |previous + current|)
  {
    if previous + current == {} then
      assert previous <= previous + current;
      Err("division by zero")
    else Ok(5 * |previous * current| > 4 * |previous + current|)
  }

  /** Two plans with the same non-empty keys have converged. */
  lemma SameKeysConverge(keys: set<string>)
    requires keys != {}
    ensures CheckConvergence(keys, keys) == Ok(true)
  {
    assert keys * keys == keys && keys + keys == keys;
  }

  /** Convergence does not depend on which plan came first. */
  lemma ConvergenceSymmetric(previous: set<string>, current: set<string>)
    ensures CheckConvergence(previous, current) == CheckConvergence(current, previous)
  {
    assert previous * current == current * previous && previous + current == current + previous;
  }

  // ---------------------------------------------------------------- iterative planning

  /** Everything a planning request depends on outside the model. */
  datatype Services = Services(
    outcome: nat -> ApiOutcome,
    confidence: string -> real,
    parse: string -> Option<set<string>>,
    extract: (string, string) -> string)

  /** The plan of iteration `k`: the parsed response plus its number, time, confidence and depth. */
  function PlanOf(k: nat, apiKey: Option<string>, services: Services): (plan: Plan)
    ensures {"iteration", "timestamp", "confidence_score", "reasoning_depth"} <= plan.Keys
    ensures plan["iteration"] == Number(k + 1)
  {
    var response := ChatCompletion(apiKey, "deepseek-chat", services.outcome(k), services.confidence);
    ParsePlanningResponse(response.content, services.parse, services.extract)
      ["iteration" := Number(k + 1)]
      ["timestamp" := Timestamp]
      ["confidence_score" := Real(response.confidenceScore)]
      ["reasoning_depth" := Number(response.reasoningDepth)]
  }

  /** Iteration `k`'s plan, as a value the loop and its lemmas share. */
  function Plans(apiKey: Option<string>, services: Services): nat -> Plan {
    (k: nat) => PlanOf(k, apiKey, services)
  }

  /** Plans always carry keys, so the convergence test never divides by zero in the loop. */
  lemma PlansNeverDivideByZero(j: nat, k: nat, apiKey: Option<string>, services: Services)
    ensures CheckConvergence(PlanOf(j, apiKey, services).Keys, PlanOf(k, apiKey, services).Keys).Ok?
  {
    assert "iteration" in PlanOf(j, apiKey, services).Keys;
  }

  /** `_check_convergence(previous, current)` holds. */
  predicate Converges(previous: Plan, current: Plan) {
    CheckConvergence(previous.Keys, current.Keys) == Ok(true)
  }

  /** The loop stops after plan `k` when it is not the first and has converged with the one before. */
  function Converged(plans: nat -> Plan, converges: (Plan, Plan) -> bool): nat -> bool {
    (k: nat) => k > 0 && converges(plans(k - 1), plans(k))
  }

  /** The plans produced from iteration `k` on, stopping after the first one that `converged` marks. */
  function PlansFrom(k: nat, maxIterations: nat, plans: nat -> Plan, converged: nat -> bool): seq<Plan>
    decreases maxIterations - k
  {
    if k >= maxIterations then []
    else if converged(k) then [plans(k)]
    else [plans(k)] + PlansFrom(k + 1, maxIterations, plans, converged)
  }

  /**
   * At most `maxIterations - k` plans, iteration `k`'s first; no plan but
   * the last has converged; a run that ends before the bound ends on a
   * converged plan.
   */
  lemma {:induction false} PlansShape(k: nat, maxIterations: nat, plans: nat -> Plan, converged: nat -> bool)
    ensures var run := PlansFrom(k, maxIterations, plans, converged);
      |run| <= (if k >= maxIterations then 0 else maxIterations - k)
      && (forall j :: 0 <= j < |run| ==> run[j] == plans(k + j))
      && (forall j :: k <= j < k + |run| - 1 ==> !converged(j))
      && (k < maxIterations && |run| < maxIterations - k ==> run != [] && converged(k + |run| - 1))
    decreases maxIterations - k
  {
    if k < maxIterations && !converged(k) {
      PlansShape(k + 1, maxIterations, plans, converged);
      var rest := PlansFrom(k + 1, maxIterations, plans, converged);
      assert PlansFrom(k, maxIterations, plans, converged) == [plans(k)] + rest;
      forall j | 1 <= j < 1 + |rest|
        ensures ([plans(k)] + rest)[j] == rest[j - 1]
      {
      }
    }
  }

  /** One step: iteration `k`'s plan is kept, and the run goes on unless it has converged. */
  lemma PlansStep(k: nat, maxIterations: nat, plans: nat -> Plan, converged: nat -> bool)
    requires k < maxIterations
    ensures PlansFrom(k, maxIterations, plans, converged) ==
            if converged(k) then [plans(k)] else [plans(k)] + PlansFrom(k + 1, maxIterations, plans, converged)
  {
  }

  /** The run of `iterative_planning`. */
  function PlanningRun(maxIterations: nat, apiKey: Option<string>, services: Services): seq<Plan> {
    var plans := Plans(apiKey, services);
    PlansFrom(0, maxIterations, plans, Converged(plans, Converges))
  }

  /** A run keeps the numbering of the plans it is drawn from. */
  lemma RunNumbered(maxIterations: nat, plans: nat -> Plan, converged: nat -> bool)
    requires forall k: nat :: "iteration" in plans(k) && plans(k)["iteration"] == Number(k + 1)
    ensures var run := PlansFrom(0, maxIterations, plans, converged);
      forall j :: 0 <= j < |run| ==> "iteration" in run[j] && run[j]["iteration"] == Number(j + 1)
  {
    PlansShape(0, maxIterations, plans, converged);
  }

  /** The plans of a run are numbered 1, 2, ... in order. */
  lemma PlansNumbered(maxIterations: nat, apiKey: Option<string>, services: Services)
    ensures var run := PlanningRun(maxIterations, apiKey, services);
      forall j :: 0 <= j < |run| ==> "iteration" in run[j] && run[j]["iteration"] == Number(j + 1)
  {
    var plans := Plans(apiKey, services);
    forall k: nat
      ensures "iteration" in plans(k) && plans(k)["iteration"] == Number(k + 1)
    {
      var plan := PlanOf(k, apiKey, services);
      assert plans(k) == plan;
    }
    RunNumbered(maxIterations, plans, Converged(plans, Converges));
    assert PlanningRun(maxIterations, apiKey, services) == PlansFrom(0, maxIterations, plans, Converged(plans, Converges));
  }

  /**
   * A run never exceeds its bound, and one that ends early ends on two plans
   * that `converges` accepts: with `Plans` and `Converges` this is the run of
   * `iterative_planning`.
   */
  lemma EarlyStop(maxIterations: nat, plans: nat -> Plan, converges: (Plan, Plan) -> bool)
    ensures var run := PlansFrom(0, maxIterations, plans, Converged(plans, converges));
      |run| <= maxIterations
      && (|run| < maxIterations ==> |run| >= 2 && converges(run[|run| - 2], run[|run| - 1]))
  {
    PlansShape(0, maxIterations, plans, Converged(plans, converges));
  }

  /** Without an API key every response is the same mock, so every plan has these keys. */
  const MockPlanKeys: set<string> := FallbackKeys + {"iteration", "timestamp", "confidence_score", "reasoning_depth"}

  lemma MockPlanHasFixedKeys(k: nat, services: Services)
    ensures PlanOf(k, None, services).Keys == MockPlanKeys
  {
    NoBraceFallsBack("Mock response - API key not configured", services.parse, services.extract);
  }

  /** A run whose first two plans converge stops after the second. */
  lemma StopsAtSecond(maxIterations: nat, plans: nat -> Plan, converges: (Plan, Plan) -> bool)
    requires maxIterations >= 2 && converges(plans(0), plans(1))
    ensures |PlansFrom(0, maxIterations, plans, Converged(plans, converges))| == 2
  {
    assert !Converged(plans, converges)(0);
    assert Converged(plans, converges)(1);
    assert PlansFrom(1, maxIterations, plans, Converged(plans, converges)) == [plans(1)];
  }

  /**
   * Without an API key every plan has the same keys, so the loop stops at
   * its second plan.
   */
  lemma NoKeyStopsAfterTwo(maxIterations: nat, services: Services)
    requires maxIterations >= 2
    ensures |PlanningRun(maxIterations, None, services)| == 2
  {
    MockPlanHasFixedKeys(0, services);
    MockPlanHasFixedKeys(1, services);
    assert "iteration" in MockPlanKeys;
    SameKeysConverge(MockPlanKeys);
    var plans := Plans(None, services);
    assert Converges(plans(0), plans(1));
    StopsAtSecond(maxIterations, plans, Converges);
  }

  class PlanningContext {
    const domain: string
    const requirements: set<string>
    const constraints: set<string>
    var iterationCount: nat
    var previousPlans: seq<Plan>

    constructor (domain: string, requirements: set<string>, constraints: set<string>)
      ensures this.domain == domain && this.requirements == requirements && this.constraints == constraints
      ensures iterationCount == 0 && previousPlans == []
    {
      this.domain := domain;
      this.requirements := requirements;
      this.constraints := constraints;
      iterationCount := 0;
      previousPlans := [];
    }

    /** The context update after iteration `count`'s plan. */
    method Record(plan: Plan, count: nat)
      modifies this
      ensures previousPlans == old(previousPlans) + [plan] && iterationCount == count
    {
      iterationCount := count;
      previousPlans := previousPlans + [plan];
    }
  }

  class DeepSeekClient {
    const apiKey: Option<string>

    /** The explicit key when given, else the environment's `DEEPSEEK_API_KEY`. */
    constructor (explicitKey: Option<string>, environmentKey: Option<string>)
      ensures apiKey == if KeyConfigured(explicitKey) then explicitKey else environmentKey
    {
      apiKey := if KeyConfigured(explicitKey) then explicitKey else environmentKey;
    }

    /**
     * `iterative_planning`: one plan per iteration, each also appended to the
     * context's previous plans, until the bound or until a plan converges
     * with the one before it.
     */
    method IterativePlanning(context: PlanningContext, maxIterations: nat, services: Services)
      returns (results: seq<Plan>)
      modifies context
      ensures results == PlanningRun(maxIterations, apiKey, services)
      ensures context.previousPlans == old(context.previousPlans) + results
      ensures context.iterationCount == if results == [] then old(context.iterationCount) else |results|
    {
      results := PlanningLoop(context, maxIterations, Plans(apiKey, services), Converges);
    }
  }

  /**
   * One turn of the planning loop: the plans kept so far followed by the run
   * from iteration `k` make the whole run, and the plan of iteration `k` ends
   * it exactly when it converges with the plan before it.
   */
  lemma LoopStep(k: nat, maxIterations: nat, plans: nat -> Plan, converges: (Plan, Plan) -> bool, results: seq<Plan>)
    requires k < maxIterations && |results| == k && (k > 0 ==> results[k - 1] == plans(k - 1))
    requires PlansFrom(0, maxIterations, plans, Converged(plans, converges))
             == results + PlansFrom(k, maxIterations, plans, Converged(plans, converges))
    ensures var stop := k > 0 && converges(results[k - 1], plans(k));
      PlansFrom(0, maxIterations, plans, Converged(plans, converges))
      == (results + [plans(k)]) + (if stop then [] else PlansFrom(k + 1, maxIterations, plans, Converged(plans, converges)))
  {
    PlansStep(k, maxIterations, plans, Converged(plans, converges));
    assert Converged(plans, converges)(k) <==> k > 0 && converges(plans(k - 1), plans(k));
  }

  /**
   * The loop of `iterative_planning`, where `plans(k)` is the request of
   * iteration `k` with its response parsed and annotated, and `converges`
   * the convergence test.
   */
  method PlanningLoop(context: PlanningContext, maxIterations: nat, plans: nat -> Plan, converges: (Plan, Plan) -> bool)
    returns (results: seq<Plan>)
    modifies context
    ensures results == PlansFrom(0, maxIterations, plans, Converged(plans, converges))
    ensures context.previousPlans == old(context.previousPlans) + results
    ensures context.iterationCount == if results == [] then old(context.iterationCount) else |results|
  {
    ghost var run := PlansFrom(0, maxIterations, plans, Converged(plans, converges));
    results := [];
    var iteration := 0;
    while iteration < maxIterations
      invariant 0 <= iteration <= maxIterations && |results| == iteration
      invariant run == results + PlansFrom(iteration, maxIterations, plans, Converged(plans, converges))
      invariant context.previousPlans == old(context.previousPlans) + results
      invariant context.iterationCount == if iteration == 0 then old(context.iterationCount) else iteration
      invariant iteration > 0 ==> results[iteration - 1] == plans(iteration - 1)
      decreases maxIterations - iteration
    {
      var plan := plans(iteration);
      var stop := iteration > 0 && converges(results[iteration - 1], plan);
      LoopStep(iteration, maxIterations, plans, converges, results);
      results := results + [plan];
      context.Record(plan, iteration + 1);
      if stop {
        assert run == results + [];
        break;
      }
      iteration := iteration + 1;
    }
  }
}
