/** The master agent's own MCP tools: recognising tasks small enough for
    them, choosing a tool, building a one-step execution plan and running a
    chain of tool steps. The tool back ends themselves are a parameter
    `run(tool, argument)`. */
module McpTools {
  import opened Text
  import opened Values

  /** The pattern families of `is_mcp_task`, in declaration order. */
  datatype McpCategory =
    | SearchResearch
    | Documentation
    | AnalysisSmall
    | FileOperationsTask
    | Configuration
    | WebContent

  const SearchKeywords: seq<string> := ["search", "find", "research", "look up", "investigate"]
  const DocumentationKeywords: seq<string> := ["documentation", "docs", "manual", "guide", "reference"]
  const AnalysisKeywords: seq<string> := ["analyze small", "quick analysis", "simple review"]
  const FileKeywords: seq<string> := ["read file", "check file", "list files", "find file"]
  const ConfigurationKeywords: seq<string> := ["configure", "setup simple", "basic config"]
  const WebKeywords: seq<string> := ["get web content", "fetch page", "web search"]

  const McpTaskPatterns: seq<(McpCategory, seq<string>)> := [
    (SearchResearch, SearchKeywords),
    (Documentation, DocumentationKeywords),
    (AnalysisSmall, AnalysisKeywords),
    (FileOperationsTask, FileKeywords),
    (Configuration, ConfigurationKeywords),
    (WebContent, WebKeywords)
  ]

  /** `is_mcp_task`: `Some(c)` for `(True, c)`, `None` for `(False, None)`. */
  function IsMcpTask(description: string): Option<McpCategory> {
    var k := FirstMatchIndex(Lower(description), McpTaskPatterns);
    if k < |McpTaskPatterns| then Some(McpTaskPatterns[k].0) else None
  }

  /** The task types of `analyze_task_characteristics`. */
  datatype TaskType =
    | SearchHeavy
    | DocumentationNeeded
    | ComplexReasoning
    | FileOperations
    | UiComponents
    | WebAutomation
    | General

  const CharacteristicRules: seq<(TaskType, seq<string>)> := [
    (SearchHeavy, ["search", "find", "research"]),
    (DocumentationNeeded, ["docs", "documentation", "manual"]),
    (ComplexReasoning, ["analyze", "think", "reason"]),
    (FileOperations, ["file", "read", "list"]),
    (UiComponents, ["ui", "component", "design"]),
    (WebAutomation, ["web", "browser", "automation"])
  ]

  datatype Characteristics = Characteristics(primaryType: TaskType, secondaryTypes: seq<TaskType>)

  /** `analyze_task_characteristics`: the first matching type, or `general`;
      no secondary types are ever recorded. */
  function AnalyzeTaskCharacteristics(description: string): (c: Characteristics)
    ensures c.secondaryTypes == []
  {
    Characteristics(FirstMatch(Lower(description), CharacteristicRules, General), [])
  }

  /** `tool_selection_map.get(type)`. */
  function ToolFor(t: TaskType): Option<string> {
    match t
    case SearchHeavy => Some("tavily")
    case DocumentationNeeded => Some("context7")
    case ComplexReasoning => Some("sequential-thinking")
    case FileOperations => Some("serena")
    case UiComponents => Some("magic")
    case WebAutomation => Some("playwright")
    case General => None
  }

  /** One step of an execution plan. `stepIndex` is the plan position the
      step claims to have; `useResult` is its `use_result` entry (`None`
      when absent). */
  datatype Step = Step(
    name: string,
    tool: Option<string>,
    parameters: Dict,
    stepIndex: int,
    useResult: Json)

  /** `create_mcp_execution_plan`: exactly one step that carries the task
      description. */
  function CreateMcpExecutionPlan(description: string, primary: Option<string>, secondary: seq<string>): (plan: seq<Step>)
    ensures |plan| == 1
    ensures plan[0].name == "primary_execution" && plan[0].stepIndex == 0
    ensures plan[0].tool == primary && plan[0].parameters == map["task" := JStr(description)]
    ensures !Truthy(plan[0].useResult)
  {
    [Step("primary_execution", primary, map["task" := JStr(description)], 0, JNull)]
  }

  datatype ToolSelection = ToolSelection(primary: Option<string>, secondary: seq<string>, plan: seq<Step>)

  /** `intelligent_mcp_tool_selection`. */
  function IntelligentMcpToolSelection(description: string): (s: ToolSelection)
    ensures s.primary == ToolFor(AnalyzeTaskCharacteristics(description).primaryType)
    ensures s.secondary == []
    ensures s.plan == CreateMcpExecutionPlan(description, s.primary, [])
  {
    var primary := ToolFor(AnalyzeTaskCharacteristics(description).primaryType);
    ToolSelection(primary, [], CreateMcpExecutionPlan(description, primary, []))
  }

  // -------------------------------------------------------------------
  // Running a chain of tool steps
  // -------------------------------------------------------------------

  /** The exceptions a chain step can raise. */
  datatype ChainError =
    | KeyError(key: string)   // a parameter the tool reads is missing
    | UnboundResult           // no branch assigned `result` and none was left from an earlier step
    | IndexError              // `use_result` points past the end of the plan

  datatype ChainOutcome =
    | ChainSuccess(combinedResult: map<string, string>, processed: nat)
    | ChainFailure(error: ChainError, failedStep: Step, partialResults: map<string, string>)

  /** The parameter each known tool reads. */
  function ToolParameter(tool: string): Option<string> {
    if tool == "tavily" then Some("query")
    else if tool == "context7" then Some("topic")
    else if tool == "sequential-thinking" then Some("problem")
    else if tool == "serena" then Some("operation")
    else if tool == "magic" then Some("component_spec")
    else if tool == "playwright" then Some("web_task")
    else None
  }

  /** Python's `xs[i]` position for an index that may be negative. */
  function PyIndex(n: nat, i: int): (r: Option<nat>)
    ensures r.Some? ==> r.value < n
    ensures r.Some? <==> -(n as int) <= i < n
  {
    if 0 <= i < n then Some(i) else if -(n as int) <= i < 0 then Some(n + i) else None
  }

  /** `synthesize_mcp_results`. */
  function SynthesizeMcpResults(results: map<string, string>): (o: ChainOutcome)
    ensures o.ChainSuccess? && o.combinedResult == results && o.processed == |results|
  {
    ChainSuccess(results, |results|)
  }

  /** What one step does, given the result left by the previous step:
      the value it stores, or the exception it raises. */
  function StepResult(step: Step, last: Option<string>, run: (string, Json) -> string): Result<string, ChainError> {
    match step.tool
    case Some(t) =>
      (match ToolParameter(t)
       case Some(key) =>
         if key in step.parameters then Ok(run(t, step.parameters[key])) else Err(KeyError(key))
       case None => if last.Some? then Ok(last.value) else Err(UnboundResult))
    case None => if last.Some? then Ok(last.value) else Err(UnboundResult)
  }

  /** `next_step_params.update({'context': result})` on the plan. */
  function PassResult(plan: seq<Step>, j: nat, result: string): (p: seq<Step>)
    requires j < |plan|
    ensures |p| == |plan|
    ensures p[j].parameters == plan[j].parameters["context" := JStr(result)]
    ensures forall k :: 0 <= k < |plan| && k != j ==> p[k] == plan[k]
  {
    plan[j := plan[j].(parameters := plan[j].parameters["context" := JStr(result)])]
  }

  /** The chain from step `i` on, with the results gathered so far and the
      value of `result` left by the previous step. */
  function ChainFrom(plan: seq<Step>, i: nat, results: map<string, string>, last: Option<string>,
                     run: (string, Json) -> string): ChainOutcome
    requires i <= |plan|
    decreases |plan| - i
  {
    if i == |plan| then SynthesizeMcpResults(results)
    else
      var step := plan[i];
      match StepResult(step, last, run)
      case Err(e) => ChainFailure(e, step, results)
      case Ok(result) =>
        var results' := results[step.name := result];
        if !Truthy(step.useResult) then ChainFrom(plan, i + 1, results', Some(result), run)
        else match PyIndex(|plan|, step.stepIndex + 1)
          case None => ChainFailure(IndexError, step, results')
          case Some(j) => ChainFrom(PassResult(plan, j, result), i + 1, results', Some(result), run)
  }

  /** `execute_mcp_tool_chain`: runs the steps in order, stores each result
      under the step's name, passes a result on when the step asks for it,
      and stops at the first exception. */
  method ExecuteMcpToolChain(steps: seq<Step>, run: (string, Json) -> string) returns (outcome: ChainOutcome)
    ensures outcome == ChainFrom(steps, 0, map[], None, run)
    ensures outcome.ChainSuccess? ==> outcome.processed == |outcome.combinedResult|
  {
    var plan := steps;
    var results: map<string, string> := map[];
    var last: Option<string> := None;
    var i := 0;
    while i < |plan|
      invariant |plan| == |steps| && 0 <= i <= |plan|
      invariant ChainFrom(plan, i, results, last, run) == ChainFrom(steps, 0, map[], None, run)
    {
      var step := plan[i];
      var r := StepResult(step, last, run);
      if r.Err? {
        return ChainFailure(r.error, step, results);
      }
      results := results[step.name := r.value];
      last := Some(r.value);
      if Truthy(step.useResult) {
        var j := PyIndex(|plan|, step.stepIndex + 1);
        if j.None? {
          return ChainFailure(IndexError, step, results);
        }
        plan := PassResult(plan, j.value, r.value);
      }
      i := i + 1;
    }
    outcome := SynthesizeMcpResults(results);
  }

  /** Passing a result on changes no step name. */
  lemma PassResultNames(plan: seq<Step>, j: nat, result: string)
    requires j < |plan|
    ensures forall k :: 0 <= k < |plan| ==> PassResult(plan, j, result)[k].name == plan[k].name
  {
  }

  /** A chain that succeeds keeps every result it started with. */
  lemma {:induction false} ChainSuccessKeeps(plan: seq<Step>, i: nat, results: map<string, string>,
                                             last: Option<string>, run: (string, Json) -> string)
    requires i <= |plan|
    ensures var o := ChainFrom(plan, i, results, last, run);
      o.ChainSuccess? ==> results.Keys <= o.combinedResult.Keys
    decreases |plan| - i
  {
    if i < |plan| {
      var step := plan[i];
      match StepResult(step, last, run)
      case Err(e) =>
      case Ok(result) =>
        var results' := results[step.name := result];
        if !Truthy(step.useResult) {
          ChainSuccessKeeps(plan, i + 1, results', Some(result), run);
        } else {
          match PyIndex(|plan|, step.stepIndex + 1)
          case None =>
          case Some(j) =>
            ChainSuccessKeeps(PassResult(plan, j, result), i + 1, results', Some(result), run);
        }
    }
  }

  /** A chain that succeeds has a result for every step name from `i` on. */
  lemma {:induction false} ChainSuccessNames(plan: seq<Step>, i: nat, results: map<string, string>,
                                             last: Option<string>, run: (string, Json) -> string)
    requires i <= |plan|
    ensures var o := ChainFrom(plan, i, results, last, run);
      o.ChainSuccess? ==>
        results.Keys <= o.combinedResult.Keys
        && forall k :: i <= k < |plan| ==> plan[k].name in o.combinedResult
    decreases |plan| - i
  {
    ChainSuccessKeeps(plan, i, results, last, run);
    if i < |plan| {
      var step := plan[i];
      match StepResult(step, last, run)
      case Err(e) =>
      case Ok(result) =>
        var results' := results[step.name := result];
        if !Truthy(step.useResult) {
          ChainSuccessNames(plan, i + 1, results', Some(result), run);
          ChainSuccessKeeps(plan, i + 1, results', Some(result), run);
        } else {
          match PyIndex(|plan|, step.stepIndex + 1)
          case None =>
          case Some(j) =>
            ChainSuccessNames(PassResult(plan, j, result), i + 1, results', Some(result), run);
            ChainSuccessKeeps(PassResult(plan, j, result), i + 1, results', Some(result), run);
            PassResultNames(plan, j, result);
        }
    }
  }

  /** Every result a failed chain reports beyond `results` is named by a
      step from `i` to `j`, and by `j` only when `j` failed on its
      `use_result` index. */
  predicate NamedUpTo(plan: seq<Step>, i: nat, j: nat, results: map<string, string>, o: ChainOutcome)
    requires o.ChainFailure? && j < |plan|
  {
    forall n :: n in o.partialResults && n !in results ==>
      exists k :: i <= k <= j && plan[k].name == n && (k == j ==> o.error == IndexError)
  }

  /** Storing the result of step `i` before the steps after it. */
  lemma NamedUpToExtend(plan: seq<Step>, plan': seq<Step>, i: nat, j: nat, results: map<string, string>,
                        value: string, o: ChainOutcome)
    requires o.ChainFailure? && i < j < |plan| == |plan'|
    requires forall k :: 0 <= k < |plan| ==> plan'[k].name == plan[k].name
    requires NamedUpTo(plan', i + 1, j, results[plan[i].name := value], o)
    ensures NamedUpTo(plan, i, j, results, o)
  {
    forall n | n in o.partialResults && n !in results
      ensures exists k :: i <= k <= j && plan[k].name == n && (k == j ==> o.error == IndexError)
    {
      if n == plan[i].name {
        assert plan[i].name == n;
      } else {
        assert n !in results[plan[i].name := value];
        var k :| i + 1 <= k <= j && plan'[k].name == n && (k == j ==> o.error == IndexError);
        assert plan[k].name == n;
      }
    }
  }

  /** A chain that fails keeps every result it started with. */
  lemma {:induction false} ChainFailureKeeps(plan: seq<Step>, i: nat, results: map<string, string>,
                                             last: Option<string>, run: (string, Json) -> string)
    requires i <= |plan|
    ensures var o := ChainFrom(plan, i, results, last, run);
      o.ChainFailure? ==> results.Keys <= o.partialResults.Keys
    decreases |plan| - i
  {
    if i < |plan| {
      var step := plan[i];
      match StepResult(step, last, run)
      case Err(e) =>
      case Ok(result) =>
        var results' := results[step.name := result];
        if !Truthy(step.useResult) {
          ChainFailureKeeps(plan, i + 1, results', Some(result), run);
        } else {
          match PyIndex(|plan|, step.stepIndex + 1)
          case None =>
          case Some(j) =>
            ChainFailureKeeps(PassResult(plan, j, result), i + 1, results', Some(result), run);
        }
    }
  }

  /** The step `j` a failing chain fails at, with the results it reports. */
  lemma {:induction false} ChainFailureStep(plan: seq<Step>, i: nat, results: map<string, string>,
                                            last: Option<string>, run: (string, Json) -> string)
    returns (j: nat)
    requires i <= |plan| && ChainFrom(plan, i, results, last, run).ChainFailure?
    ensures var o := ChainFrom(plan, i, results, last, run);
      i <= j < |plan| && o.failedStep.name == plan[j].name && NamedUpTo(plan, i, j, results, o)
    decreases |plan| - i
  {
    var o := ChainFrom(plan, i, results, last, run);
    var step := plan[i];
    match StepResult(step, last, run)
    case Err(e) =>
      j := i;
      assert o.partialResults == results;
    case Ok(result) =>
      var results' := results[step.name := result];
      if !Truthy(step.useResult) {
        j := ChainFailureStep(plan, i + 1, results', Some(result), run);
        NamedUpToExtend(plan, plan, i, j, results, result, o);
      } else {
        match PyIndex(|plan|, step.stepIndex + 1)
        case None =>
          j := i;
          assert o == ChainFailure(IndexError, step, results');
          forall n | n in o.partialResults && n !in results
            ensures exists k :: i <= k <= i && plan[k].name == n && (k == i ==> o.error == IndexError)
          {
            assert plan[i].name == n;
          }
        case Some(jj) =>
          var plan' := PassResult(plan, jj, result);
          PassResultNames(plan, jj, result);
          j := ChainFailureStep(plan', i + 1, results', Some(result), run);
          NamedUpToExtend(plan, plan', i, j, results, result, o);
      }
  }

  /** A chain that fails does so at some step `j` from `i` on. Besides the
      results it started with it reports only results of the steps from
      `i` up to `j`, and the failing step's own result only when the step
      ran and its `use_result` index was out of range. */
  lemma ChainFailureNames(plan: seq<Step>, i: nat, results: map<string, string>,
                          last: Option<string>, run: (string, Json) -> string)
    requires i <= |plan|
    ensures var o := ChainFrom(plan, i, results, last, run);
      o.ChainFailure? ==>
        results.Keys <= o.partialResults.Keys
        && exists j :: i <= j < |plan| && o.failedStep.name == plan[j].name
             && forall n :: n in o.partialResults && n !in results ==>
                  exists k :: i <= k <= j && plan[k].name == n && (k == j ==> o.error == IndexError)
  {
    ChainFailureKeeps(plan, i, results, last, run);
    var o := ChainFrom(plan, i, results, last, run);
    if o.ChainFailure? {
      var j := ChainFailureStep(plan, i, results, last, run);
      assert NamedUpTo(plan, i, j, results, o);
    }
  }

  /** A chain that fails at step `j` reports only results of the steps
      before it (and of `j` itself when only its `use_result` index was
      out of range); a chain that succeeds has a result for every step
      name. */
  lemma ChainResultsFromSteps(plan: seq<Step>, i: nat, results: map<string, string>,
                              last: Option<string>, run: (string, Json) -> string)
    requires i <= |plan|
    ensures var o := ChainFrom(plan, i, results, last, run);
      && (o.ChainSuccess? ==>
            results.Keys <= o.combinedResult.Keys
            && forall k :: i <= k < |plan| ==> plan[k].name in o.combinedResult)
      && (o.ChainFailure? ==>
            results.Keys <= o.partialResults.Keys
            && exists j :: i <= j < |plan| && o.failedStep.name == plan[j].name
                 && forall n :: n in o.partialResults && n !in results ==>
                      exists k :: i <= k <= j && plan[k].name == n && (k == j ==> o.error == IndexError))
  {
    ChainSuccessNames(plan, i, results, last, run);
    ChainFailureNames(plan, i, results, last, run);
  }

  /** The result of `execute_with_mcp_tools`. */
  datatype McpResult =
    | NotSuitable                   // `{'success': False, 'reason': ...}`
    | Executed(outcome: ChainOutcome)

  function Success(r: McpResult): bool {
    r.Executed? && r.outcome.ChainSuccess?
  }

  /** `execute_with_mcp_tools`, as a value. */
  function McpExecution(description: string, run: (string, Json) -> string): McpResult {
    if IsMcpTask(description).None? then NotSuitable
    else Executed(ChainFrom(IntelligentMcpToolSelection(description).plan, 0, map[], None, run))
  }

  /** `execute_with_mcp_tools`: non-MCP tasks are refused, MCP tasks run the
      chain of the selected plan. */
  method ExecuteWithMcpTools(description: string, run: (string, Json) -> string) returns (r: McpResult)
    ensures r == McpExecution(description, run)
    ensures !Success(r)
  {
    if IsMcpTask(description).None? {
      return NotSuitable;
    }
    var selection := IntelligentMcpToolSelection(description);
    var outcome := ExecuteMcpToolChain(selection.plan, run);
    r := Executed(outcome);
    McpExecutionNeverSucceeds(description, run);
  }

  // -------------------------------------------------------------------
  // Properties
  // -------------------------------------------------------------------

  /** `is_mcp_task` reports the first family in declaration order whose
      pattern occurs in the lower-cased text. */
  lemma IsMcpTaskFirstMatch(description: string, k: nat)
    requires k < |McpTaskPatterns|
    ensures IsMcpTask(description) == Some(McpTaskPatterns[k].0) <==>
      AnyIn(Lower(description), McpTaskPatterns[k].1)
      && forall j :: 0 <= j < k ==> !AnyIn(Lower(description), McpTaskPatterns[j].1)
  {
    McpCategoriesDistinct();
    FirstMatchIs(Lower(description), McpTaskPatterns, k);
  }

  /** Each pattern family has its own category. */
  lemma McpCategoriesDistinct()
    ensures forall i, j :: 0 <= i < j < |McpTaskPatterns| ==> McpTaskPatterns[i].0 != McpTaskPatterns[j].0
  {
    var cats := [SearchResearch, Documentation, AnalysisSmall, FileOperationsTask, Configuration, WebContent];
    assert forall i :: 0 <= i < |McpTaskPatterns| ==> McpTaskPatterns[i].0 == cats[i];
  }

  /** Text that mentions "find file" always counts as search/research:
      `find` belongs to an earlier family than `find file`. */
  lemma FindFileIsSearch(description: string)
    requires Contains(Lower(description), "find file")
    ensures IsMcpTask(description) == Some(SearchResearch)
  {
    assert OccursAt("find file", "find", 0);
    ContainsTransitive(Lower(description), "find file", "find");
    assert "find" in McpTaskPatterns[0].1;
  }

  /** The generated plan's only step reads a parameter the plan does not
      carry (or has no tool at all), so the chain fails at its first step
      with nothing gathered. */
  lemma GeneratedPlanFails(description: string, run: (string, Json) -> string)
    ensures var plan := IntelligentMcpToolSelection(description).plan;
      var o := ChainFrom(plan, 0, map[], None, run);
      o.ChainFailure? && o.failedStep == plan[0] && o.partialResults == map[]
      && (plan[0].tool.None? <==> o.error == UnboundResult)
  {
    var plan := IntelligentMcpToolSelection(description).plan;
    assert plan[0].parameters.Keys == {"task"};
  }

  /** `execute_with_mcp_tools` never reports success: non-MCP tasks are
      refused and MCP tasks fail in the first step of their plan. */
  lemma McpExecutionNeverSucceeds(description: string, run: (string, Json) -> string)
    ensures !Success(McpExecution(description, run))
    ensures IsMcpTask(description).None? <==> McpExecution(description, run) == NotSuitable
  {
    GeneratedPlanFails(description, run);
  }
}
