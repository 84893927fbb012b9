/** Task distribution: a keyword-tier complexity estimate, then the router
    that asks for clarification first, sends very simple tool-shaped tasks
    to the master's MCP tools, other simple tasks to one agent and
    everything else to a delegated group of agents. The agent registry
    (`get_available_agents`) and the tool back ends are parameters. */
module Distribution {
  import opened Text
  import opened Values
  import Clarification
  import McpTools

  const SimpleIndicators: seq<string> := ["fix", "add", "update", "change", "simple", "basic"]
  const ComplexityIndicators: seq<string> := ["implement", "design", "architecture", "system", "integrate"]
  const ComplexIndicators: seq<string> := ["refactor", "migrate", "optimize performance", "scalable"]

  /** `analyze_task_complexity`. */
  function AnalyzeTaskComplexity(description: string): (c: nat)
    ensures 1 <= c <= 4
  {
    var d := Lower(description);
    if AnyIn(d, SimpleIndicators) then 1
    else if AnyIn(d, ComplexityIndicators) then 3
    else if AnyIn(d, ComplexIndicators) then 4
    else 2
  }

  /** The tiers are tried in order: a simple indicator wins over every
      other word, and each result names exactly the tier that decided. */
  lemma ComplexityTiers(description: string)
    ensures var d := Lower(description);
      var c := AnalyzeTaskComplexity(description);
      && (c == 1 <==> AnyIn(d, SimpleIndicators))
      && (c == 3 <==> !AnyIn(d, SimpleIndicators) && AnyIn(d, ComplexityIndicators))
      && (c == 4 <==> !AnyIn(d, SimpleIndicators) && !AnyIn(d, ComplexityIndicators) && AnyIn(d, ComplexIndicators))
      && (c == 2 <==> !AnyIn(d, SimpleIndicators) && !AnyIn(d, ComplexityIndicators) && !AnyIn(d, ComplexIndicators))
  {
  }

  /** Whatever a description says, adding a simple indicator to it makes
      it a complexity-1 task. */
  lemma SimpleIndicatorWins(description: string, indicator: string)
    requires indicator in SimpleIndicators
    ensures AnalyzeTaskComplexity(description + " " + indicator) == 1
  {
    var d := Lower(description + " " + indicator);
    LowerAppend(description + " ", indicator);
    assert Lower(indicator) == indicator;
    ContainsSelf(indicator);
    ContainsExtend(indicator, indicator, Lower(description + " "), []);
    assert Lower(description + " ") + indicator + [] == d;
  }

  /** The routing decision. The MCP path returns whatever the tool chain
      returns, which carries no `method` entry. */
  datatype Distribution =
    | ClarificationRequired(complexity: nat)
    | McpExecution(result: McpTools.McpResult)
    | SingleAgent(agent: Option<string>, description: string, context: Dict)
    | AgentDelegation(agents: seq<string>, description: string, context: Dict,
                      parallelExecution: bool, coordinationRequired: bool)

  /** The `method` entry of the returned dict. */
  function MethodName(r: Distribution): Option<string> {
    match r
    case ClarificationRequired(_) => Some("clarification_required")
    case McpExecution(_) => None
    case SingleAgent(_, _, _) => Some("single_agent")
    case AgentDelegation(_, _, _, _, _) => Some("agent_delegation")
  }

  /** `select_best_agent_for_task`: the first available agent, if any. */
  function SelectBestAgentForTask(description: string, available: seq<string>): (r: Option<string>)
    ensures r.None? <==> available == []
    ensures r.Some? ==> r.value == available[0]
  {
    if available != [] then Some(available[0]) else None
  }

  /** `select_agents_for_task`: the first two available agents, or all of
      them when there are fewer. */
  function SelectAgentsForTask(description: string, available: seq<string>): (r: seq<string>)
    ensures |r| == Min(2, |available|)
    ensures r <= available
  {
    if |available| >= 2 then available[..2] else available
  }

  /** `execute_task_with_best_agent` (estimated duration "2-4 hours",
      confidence 0.8). */
  function ExecuteTaskWithBestAgent(description: string, context: Dict, available: seq<string>): Distribution {
    SingleAgent(SelectBestAgentForTask(description, available), description, context)
  }

  /** `execute_with_task_delegation` (estimated duration "4-8 hours"). */
  function ExecuteWithTaskDelegation(description: string, context: Dict, available: seq<string>): (r: Distribution)
    ensures r.AgentDelegation? && r.coordinationRequired
    ensures r.parallelExecution <==> |r.agents| > 1
    ensures r.agents <= available && |r.agents| <= 2
  {
    var agents := SelectAgentsForTask(description, available);
    AgentDelegation(agents, description, context, |agents| > 1, true)
  }

  /** `enhanced_task_distribution`. `available` is what the agent registry
      reports; `run` stands for the MCP tool back ends. */
  function EnhancedTaskDistribution(description: string, context: Dict, available: seq<string>,
                                    run: (string, Json) -> string): Distribution
  {
    var complexity := AnalyzeTaskComplexity(description);
    if Clarification.NeedsClarification(description, complexity) then ClarificationRequired(complexity)
    else if complexity == 1 && McpTools.IsMcpTask(description).Some? then
      McpExecution(McpTools.McpExecution(description, run))
    else if complexity == 1 then ExecuteTaskWithBestAgent(description, context, available)
    else ExecuteWithTaskDelegation(description, context, available)
  }

  /** Clarification is decided before anything else, and carries the
      computed complexity; the other routes follow the complexity tier. */
  lemma RoutingOrder(description: string, context: Dict, available: seq<string>, run: (string, Json) -> string)
    ensures var c := AnalyzeTaskComplexity(description);
      var r := EnhancedTaskDistribution(description, context, available, run);
      && (r.ClarificationRequired? <==> Clarification.NeedsClarification(description, c))
      && (r.ClarificationRequired? ==> r.complexity == c)
      && (r.McpExecution? <==>
            !Clarification.NeedsClarification(description, c) && c == 1 && McpTools.IsMcpTask(description).Some?)
      && (r.SingleAgent? <==>
            !Clarification.NeedsClarification(description, c) && c == 1 && McpTools.IsMcpTask(description).None?)
      && (r.AgentDelegation? <==> !Clarification.NeedsClarification(description, c) && c != 1)
  {
  }

  /** A task with a simple indicator is never delegated, and is sent back
      for clarification only when at least three ambiguity keywords occur. */
  lemma SimpleTasksStayLocal(description: string, context: Dict, available: seq<string>, run: (string, Json) -> string)
    requires AnyIn(Lower(description), SimpleIndicators)
    ensures var r := EnhancedTaskDistribution(description, context, available, run);
      !r.AgentDelegation?
      && (r.ClarificationRequired? ==>
            Clarification.TotalMatches(Lower(description), Clarification.AmbiguityIndicators) >= 3)
      && (r.McpExecution? ==> !McpTools.Success(r.result))
  {
    var c := AnalyzeTaskComplexity(description);
    if Clarification.NeedsClarification(description, c) {
      Clarification.ClarificationNeedsSeveralKeywords(description, c);
    }
    McpTools.McpExecutionNeverSucceeds(description, run);
  }

  // -------------------------------------------------------------------
  // Availability check
  // -------------------------------------------------------------------

  /** What the availability check keeps for one agent: the agent itself,
      its alternative when that is truthy (a non-empty name), or nothing. */
  function Replacement(agent: string, isAvailable: string -> bool, findAlternative: string -> Option<string>): seq<string> {
    if isAvailable(agent) then [agent]
    else match findAlternative(agent)
      case Some(alt) => if alt != [] then [alt] else []
      case None => []
  }

  /** The agents `validate_agent_availability` returns, as a value. */
  function ValidatedAgents(agents: seq<string>, isAvailable: string -> bool,
                           findAlternative: string -> Option<string>): (r: seq<string>)
    ensures |r| <= |agents|
  {
    if agents == [] then []
    else Replacement(agents[0], isAvailable, findAlternative) + ValidatedAgents(agents[1..], isAvailable, findAlternative)
  }

  /** `validate_agent_availability`: keeps each available agent, replaces
      an unavailable one by its alternative or drops it, in input order. */
  method ValidateAgentAvailability(selected: seq<string>, isAvailable: string -> bool,
                                   findAlternative: string -> Option<string>) returns (available: seq<string>)
    ensures available == ValidatedAgents(selected, isAvailable, findAlternative)
    ensures |available| <= |selected|
  {
    available := [];
    var i := 0;
    while i < |selected|
      invariant 0 <= i <= |selected|
      invariant available == ValidatedAgents(selected[..i], isAvailable, findAlternative)
    {
      var agent := selected[i];
      ValidatedAgentsAppend(selected[..i], [agent], isAvailable, findAlternative);
      assert selected[..i + 1] == selected[..i] + [agent];
      assert ValidatedAgents([agent], isAvailable, findAlternative) == Replacement(agent, isAvailable, findAlternative);
      if isAvailable(agent) {
        available := available + [agent];
      } else {
        var alternative := findAlternative(agent);
        if alternative.Some? && alternative.value != [] {
          available := available + [alternative.value];
        }
      }
      i := i + 1;
    }
    assert selected[..|selected|] == selected;
  }

  /** The check works agent by agent: checking two lists one after the
      other gives the concatenation, so input order is kept. */
  lemma {:induction false} ValidatedAgentsAppend(a: seq<string>, b: seq<string>, isAvailable: string -> bool,
                                                 findAlternative: string -> Option<string>)
    ensures ValidatedAgents(a + b, isAvailable, findAlternative)
         == ValidatedAgents(a, isAvailable, findAlternative) + ValidatedAgents(b, isAvailable, findAlternative)
  {
    if a == [] {
      assert a + b == b;
    } else {
      assert (a + b)[1..] == a[1..] + b;
      ValidatedAgentsAppend(a[1..], b, isAvailable, findAlternative);
    }
  }

  /** When every agent is available (as the current check reports), the
      list comes back unchanged. */
  lemma {:induction false} AllAvailableUnchanged(agents: seq<string>, isAvailable: string -> bool,
                                                 findAlternative: string -> Option<string>)
    requires forall a :: a in agents ==> isAvailable(a)
    ensures ValidatedAgents(agents, isAvailable, findAlternative) == agents
  {
    if agents != [] {
      AllAvailableUnchanged(agents[1..], isAvailable, findAlternative);
    }
  }

  /** Every agent returned is a selected agent that is available or the
      non-empty alternative of a selected agent that is not. */
  lemma {:induction false} ValidatedAgentsFrom(agents: seq<string>, isAvailable: string -> bool,
                                               findAlternative: string -> Option<string>)
    ensures forall r :: r in ValidatedAgents(agents, isAvailable, findAlternative) ==>
      exists a :: a in agents &&
        ((isAvailable(a) && r == a) || (!isAvailable(a) && findAlternative(a) == Some(r) && r != []))
  {
    if agents != [] {
      ValidatedAgentsFrom(agents[1..], isAvailable, findAlternative);
    }
  }
}
