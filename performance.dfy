/** Performance analysis of a metrics summary: an overall health score
    with its status band, the bottlenecks and the recommendations the
    metrics call for, per-agent statistics, and the short list of insights
    shown to a user. Message texts and number formatting are not
    modelled; the lines say which finding they show. */
module Performance {
  import opened Text
  import opened Values

  /** An agent's entry in `agent_performance`; a missing entry is `None`. */
  datatype AgentData = AgentData(count: Option<real>, successes: Option<real>, errors: Option<real>, totalTime: Option<real>)

  /** The metrics dict read here; a missing entry is `None`, a missing
      `agent_performance` the empty list. Agents come in dict order. */
  datatype Metrics = Metrics(
    successRate: Option<real>,
    averageResponseTime: Option<real>,
    maxResponseTime: Option<real>,
    errorCount: Option<real>,
    taskCount: Option<real>,
    agentPerformance: seq<(string, AgentData)>)

  /** `metrics.get(key, default)`. */
  function Or(v: Option<real>, default: real): real {
    if v.Some? then v.value else default
  }

  function MinR(a: real, b: real): real { if a <= b then a else b }
  function MaxR(a: real, b: real): real { if a >= b then a else b }

  // -------------------------------------------------------------------
  // Overall health
  // -------------------------------------------------------------------

  datatype Status = Excellent | Good | Fair | Poor

  /** The points a success rate below 0.95 costs. */
  function SuccessPenalty(s: real): real {
    if s < 0.95 then (0.95 - s) * 200.0 else 0.0
  }

  /** The points a mean response time above 5 seconds costs, at most 30. */
  function TimePenalty(avg: real): real {
    if avg > 5.0 then MinR((avg - 5.0) * 10.0, 30.0) else 0.0
  }

  /** The 20 points more errors than a tenth of the tasks cost. */
  function ErrorPenalty(errors: real, tasks: real): real {
    if errors > tasks * 0.1 then 20.0 else 0.0
  }

  /** The health score: 100 less the penalties, kept within [0, 100]. A
      missing success rate counts as 0, a missing task count as 1. */
  function HealthScore(m: Metrics): (r: real)
    ensures 0.0 <= r <= 100.0
  {
    var raw := 100.0 - SuccessPenalty(Or(m.successRate, 0.0)) - TimePenalty(Or(m.averageResponseTime, 0.0))
               - ErrorPenalty(Or(m.errorCount, 0.0), Or(m.taskCount, 1.0));
    MaxR(0.0, MinR(100.0, raw))
  }

  /** The status band of a score. */
  function StatusOf(score: real): Status {
    if score >= 90.0 then Excellent
    else if score >= 75.0 then Good
    else if score >= 60.0 then Fair
    else Poor
  }

  /** Errors per task, the task count taken as at least 1. */
  function ErrorRate(m: Metrics): real {
    Or(m.errorCount, 0.0) / MaxR(Or(m.taskCount, 1.0), 1.0)
  }

  /** The `overall_health` dict; the score is not rounded here. */
  datatype Health = Health(score: real, status: Status, successRate: real, averageResponseTime: real, errorRate: real)

  /** `_assess_overall_health`: the score starts at 100 and loses each
      penalty in turn, then is clamped. */
  method AssessOverallHealth(m: Metrics) returns (h: Health)
    ensures h.score == HealthScore(m) && h.status == StatusOf(HealthScore(m))
    ensures h.successRate == Or(m.successRate, 0.0) && h.averageResponseTime == Or(m.averageResponseTime, 0.0)
    ensures h.errorRate == ErrorRate(m)
  {
    var successRate := Or(m.successRate, 0.0);
    var avg := Or(m.averageResponseTime, 0.0);
    var errors := Or(m.errorCount, 0.0);
    var score := 100.0;
    if successRate < 0.95 {
      score := score - (0.95 - successRate) * 200.0;
    }
    if avg > 5.0 {
      score := score - MinR((avg - 5.0) * 10.0, 30.0);
    }
    if errors > Or(m.taskCount, 1.0) * 0.1 {
      score := score - 20.0;
    }
    score := MaxR(0.0, MinR(100.0, score));
    var status: Status;
    if score >= 90.0 {
      status := Excellent;
    } else if score >= 75.0 {
      status := Good;
    } else if score >= 60.0 {
      status := Fair;
    } else {
      status := Poor;
    }
    h := Health(score, status, successRate, avg, errors / MaxR(Or(m.taskCount, 1.0), 1.0));
  }

  /** The score is perfect exactly when no rule applies: a success rate of
      at least 0.95, a mean response time of at most 5 seconds and errors
      within a tenth of the tasks. */
  lemma PerfectHealth(m: Metrics)
    ensures HealthScore(m) == 100.0 <==>
      && Or(m.successRate, 0.0) >= 0.95
      && Or(m.averageResponseTime, 0.0) <= 5.0
      && Or(m.errorCount, 0.0) <= Or(m.taskCount, 1.0) * 0.1
  {
  }

  /** A better success rate never lowers the score, other things equal. */
  lemma HealthMonotone(m: Metrics, better: real)
    requires better >= Or(m.successRate, 0.0)
    ensures HealthScore(m.(successRate := Some(better))) >= HealthScore(m)
  {
  }

  /** The status bands partition the scores. */
  lemma StatusBands(score: real)
    ensures StatusOf(score) == Excellent <==> score >= 90.0
    ensures StatusOf(score) == Good <==> 75.0 <= score < 90.0
    ensures StatusOf(score) == Fair <==> 60.0 <= score < 75.0
    ensures StatusOf(score) == Poor <==> score < 60.0
  {
  }

  // -------------------------------------------------------------------
  // Bottlenecks and recommendations
  // -------------------------------------------------------------------

  datatype Level = High | Medium

  datatype BottleneckKind = ResponseTime | ResponseTimeSpikes | SuccessRate | AgentPerformance(agent: string)

  datatype Bottleneck = Bottleneck(kind: BottleneckKind, severity: Level)

  /** An agent's successes per start, as the bottleneck and recommendation
      rules compute it: missing successes count as 0, a missing or zero
      count as 1. */
  function AgentRate(d: AgentData): real {
    Or(d.successes, 0.0) / MaxR(Or(d.count, 1.0), 1.0)
  }

  /** The response-time rule: a slow mean, else a slow maximum. */
  function ResponseBottlenecks(m: Metrics): seq<Bottleneck> {
    if Or(m.averageResponseTime, 0.0) > 10.0 then [Bottleneck(ResponseTime, High)]
    else if Or(m.maxResponseTime, 0.0) > 30.0 then [Bottleneck(ResponseTimeSpikes, Medium)]
    else []
  }

  /** The success-rate rule; a missing rate counts as 1 here. */
  function SuccessBottlenecks(m: Metrics): seq<Bottleneck> {
    var s := Or(m.successRate, 1.0);
    if s < 0.9 then [Bottleneck(SuccessRate, if s < 0.8 then High else Medium)] else []
  }

  /** One medium bottleneck per agent below 0.8, in dict order. */
  function AgentBottlenecks(agents: seq<(string, AgentData)>): seq<Bottleneck> {
    if agents == [] then []
    else
      var last := agents[|agents| - 1];
      AgentBottlenecks(agents[..|agents| - 1])
        + (if AgentRate(last.1) < 0.8 then [Bottleneck(AgentPerformance(last.0), Medium)] else [])
  }

  function Bottlenecks(m: Metrics): seq<Bottleneck> {
    ResponseBottlenecks(m) + SuccessBottlenecks(m) + AgentBottlenecks(m.agentPerformance)
  }

  /** `_identify_bottlenecks`. */
  method IdentifyBottlenecks(m: Metrics) returns (bottlenecks: seq<Bottleneck>)
    ensures bottlenecks == Bottlenecks(m)
  {
    bottlenecks := [];
    var avg := Or(m.averageResponseTime, 0.0);
    if avg > 10.0 {
      bottlenecks := bottlenecks + [Bottleneck(ResponseTime, High)];
    } else if Or(m.maxResponseTime, 0.0) > 30.0 {
      bottlenecks := bottlenecks + [Bottleneck(ResponseTimeSpikes, Medium)];
    }
    var successRate := Or(m.successRate, 1.0);
    if successRate < 0.9 {
      bottlenecks := bottlenecks + [Bottleneck(SuccessRate, if successRate < 0.8 then High else Medium)];
    }
    assert bottlenecks == ResponseBottlenecks(m) + SuccessBottlenecks(m);
    bottlenecks := AppendAgentBottlenecks(bottlenecks, m.agentPerformance);
  }

  /** The loop over `agent_performance` of `_identify_bottlenecks`. */
  method AppendAgentBottlenecks(acc: seq<Bottleneck>, agents: seq<(string, AgentData)>) returns (bottlenecks: seq<Bottleneck>)
    ensures bottlenecks == acc + AgentBottlenecks(agents)
  {
    bottlenecks := acc;
    var i := 0;
    while i < |agents|
      invariant 0 <= i <= |agents|
      invariant bottlenecks == acc + AgentBottlenecks(agents[..i])
    {
      assert agents[..i + 1][..i] == agents[..i];
      if AgentRate(agents[i].1) < 0.8 {
        bottlenecks := bottlenecks + [Bottleneck(AgentPerformance(agents[i].0), Medium)];
      }
      i := i + 1;
    }
    assert agents[..|agents|] == agents;
  }

  /** An agent is flagged exactly when one of its entries falls below 0.8,
      and every agent bottleneck is medium. */
  lemma {:induction false} AgentBottleneckRule(agents: seq<(string, AgentData)>, name: string)
    ensures Bottleneck(AgentPerformance(name), Medium) in AgentBottlenecks(agents)
        <==> exists i :: 0 <= i < |agents| && agents[i].0 == name && AgentRate(agents[i].1) < 0.8
    ensures forall b :: b in AgentBottlenecks(agents) ==> b.kind.AgentPerformance? && b.severity == Medium
  {
    if agents != [] {
      var init := agents[..|agents| - 1];
      AgentBottleneckRule(init, name);
      assert forall i :: 0 <= i < |init| ==> init[i] == agents[i];
    }
  }

  /** At most one response-time bottleneck, high for a slow mean and
      otherwise medium for a slow maximum; a success-rate bottleneck only
      below 0.9, high below 0.8; a missing success rate raises none. */
  lemma BottleneckRules(m: Metrics)
    ensures |ResponseBottlenecks(m)| <= 1 && |SuccessBottlenecks(m)| <= 1
    ensures ResponseBottlenecks(m) == [Bottleneck(ResponseTime, High)] <==> Or(m.averageResponseTime, 0.0) > 10.0
    ensures ResponseBottlenecks(m) == [Bottleneck(ResponseTimeSpikes, Medium)]
        <==> Or(m.averageResponseTime, 0.0) <= 10.0 && Or(m.maxResponseTime, 0.0) > 30.0
    ensures SuccessBottlenecks(m) != [] <==> m.successRate.Some? && m.successRate.value < 0.9
    ensures SuccessBottlenecks(m) != [] ==> (SuccessBottlenecks(m)[0].severity == High <==> m.successRate.value < 0.8)
  {
  }

  datatype RecommendationCategory = PerformanceCategory | Reliability | AgentOptimization

  datatype Recommendation = Recommendation(category: RecommendationCategory, priority: Level, action: string)

  /** One medium recommendation per agent below 0.85, in dict order. */
  function AgentRecommendations(agents: seq<(string, AgentData)>): seq<Recommendation> {
    if agents == [] then []
    else
      var last := agents[|agents| - 1];
      AgentRecommendations(agents[..|agents| - 1])
        + (if AgentRate(last.1) < 0.85
           then [Recommendation(AgentOptimization, Medium, "optimize_" + last.0 + "_performance")] else [])
  }

  /** The recommendations: speed above a 5-second mean, reliability below a
      0.95 success rate (a missing rate counts as 1), then the agents. */
  function Recommendations(m: Metrics): seq<Recommendation> {
    (if Or(m.averageResponseTime, 0.0) > 5.0
     then [Recommendation(PerformanceCategory, High, "optimize_response_time")] else [])
    + (if Or(m.successRate, 1.0) < 0.95
       then [Recommendation(Reliability, High, "improve_error_handling")] else [])
    + AgentRecommendations(m.agentPerformance)
  }

  /** `_generate_recommendations`. */
  method GenerateRecommendations(m: Metrics) returns (recommendations: seq<Recommendation>)
    ensures recommendations == Recommendations(m)
  {
    recommendations := [];
    if Or(m.averageResponseTime, 0.0) > 5.0 {
      recommendations := recommendations + [Recommendation(PerformanceCategory, High, "optimize_response_time")];
    }
    if Or(m.successRate, 1.0) < 0.95 {
      recommendations := recommendations + [Recommendation(Reliability, High, "improve_error_handling")];
    }
    recommendations := AppendAgentRecommendations(recommendations, m.agentPerformance);
  }

  /** The loop over `agent_performance` of `_generate_recommendations`. */
  method AppendAgentRecommendations(acc: seq<Recommendation>, agents: seq<(string, AgentData)>)
    returns (recommendations: seq<Recommendation>)
    ensures recommendations == acc + AgentRecommendations(agents)
  {
    recommendations := acc;
    var i := 0;
    while i < |agents|
      invariant 0 <= i <= |agents|
      invariant recommendations == acc + AgentRecommendations(agents[..i])
    {
      assert agents[..i + 1][..i] == agents[..i];
      if AgentRate(agents[i].1) < 0.85 {
        recommendations := recommendations
          + [Recommendation(AgentOptimization, Medium, "optimize_" + agents[i].0 + "_performance")];
      }
      i := i + 1;
    }
    assert agents[..|agents|] == agents;
  }

  /** Every flagged agent is also recommended for optimization, in the
      same order: the recommendation threshold lies above the bottleneck
      one. */
  lemma {:induction false} FlaggedAgentsAreRecommended(agents: seq<(string, AgentData)>)
    ensures |AgentBottlenecks(agents)| <= |AgentRecommendations(agents)|
    ensures forall name :: Bottleneck(AgentPerformance(name), Medium) in AgentBottlenecks(agents) ==>
      Recommendation(AgentOptimization, Medium, "optimize_" + name + "_performance") in AgentRecommendations(agents)
  {
    if agents != [] {
      FlaggedAgentsAreRecommended(agents[..|agents| - 1]);
    }
  }

  /** A success-rate bottleneck always comes with the reliability
      recommendation, and a slow-mean bottleneck with the speed one. */
  lemma BottlenecksAreRecommended(m: Metrics)
    ensures SuccessBottlenecks(m) != [] ==> Recommendation(Reliability, High, "improve_error_handling") in Recommendations(m)
    ensures Bottleneck(ResponseTime, High) in ResponseBottlenecks(m) ==>
      Recommendations(m)[0] == Recommendation(PerformanceCategory, High, "optimize_response_time")
  {
  }

  /** A missing success rate ruins the health score but raises neither the
      success-rate bottleneck nor the reliability recommendation. */
  lemma MissingSuccessRate(m: Metrics)
    requires m.successRate.None?
    ensures HealthScore(m) == 0.0 && StatusOf(HealthScore(m)) == Poor
    ensures SuccessBottlenecks(m) == []
    ensures Recommendation(Reliability, High, "improve_error_handling") !in Recommendations(m)
  {
    assert Recommendation(Reliability, High, "improve_error_handling") !in AgentRecommendations(m.agentPerformance) by {
      AgentRecommendationsAreAgents(m.agentPerformance);
    }
  }

  lemma {:induction false} AgentRecommendationsAreAgents(agents: seq<(string, AgentData)>)
    ensures forall r :: r in AgentRecommendations(agents) ==> r.category == AgentOptimization
  {
    if agents != [] {
      AgentRecommendationsAreAgents(agents[..|agents| - 1]);
    }
  }

  // -------------------------------------------------------------------
  // Per-agent analysis
  // -------------------------------------------------------------------

  /** An agent's entry in `agent_analysis`. */
  datatype AgentStats = AgentStats(
    taskCount: real,
    successRate: real,
    errorRate: real,
    averageResponseTime: real,
    reliabilityScore: real,
    performanceScore: real)

  /** The statistics of an agent with at least one start; missing entries
      count as 0. */
  function StatsOf(d: AgentData): AgentStats
    requires Or(d.count, 0.0) > 0.0
  {
    var count := Or(d.count, 0.0);
    var successes := Or(d.successes, 0.0);
    var total := Or(d.totalTime, 0.0);
    AgentStats(
      count,
      successes / count,
      Or(d.errors, 0.0) / count,
      if successes > 0.0 then total / successes else 0.0,
      (successes / count) * 100.0,
      if successes > 0.0 then MinR(100.0, (successes / count) * 100.0 * (5.0 / MaxR(total / successes, 1.0))) else 0.0)
  }

  /** `agent_analysis`: the agents with a positive count; a later entry
      for a name replaces an earlier one. */
  function AgentAnalysis(agents: seq<(string, AgentData)>): map<string, AgentStats> {
    if agents == [] then map[]
    else
      var m := AgentAnalysis(agents[..|agents| - 1]);
      var last := agents[|agents| - 1];
      if Or(last.1.count, 0.0) > 0.0 then m[last.0 := StatsOf(last.1)] else m
  }

  /** `_analyze_agent_performance`. */
  method AnalyzeAgentPerformance(m: Metrics) returns (analysis: map<string, AgentStats>)
    ensures analysis == AgentAnalysis(m.agentPerformance)
  {
    analysis := map[];
    var agents := m.agentPerformance;
    var i := 0;
    while i < |agents|
      invariant 0 <= i <= |agents|
      invariant analysis == AgentAnalysis(agents[..i])
    {
      assert agents[..i + 1][..i] == agents[..i];
      var (agent, data) := agents[i];
      var count := Or(data.count, 0.0);
      if count > 0.0 {
        analysis := analysis[agent := StatsOf(data)];
      }
      i := i + 1;
    }
    assert agents[..|agents|] == agents;
  }

  /** Exactly the agents with an entry of positive count are analysed. */
  lemma {:induction false} AnalysedAgents(agents: seq<(string, AgentData)>)
    ensures forall name :: (name in AgentAnalysis(agents)
      <==> exists i :: 0 <= i < |agents| && agents[i].0 == name && Or(agents[i].1.count, 0.0) > 0.0)
  {
    if agents != [] {
      var init := agents[..|agents| - 1];
      AnalysedAgents(init);
      assert forall i :: 0 <= i < |init| ==> init[i] == agents[i];
    }
  }

  /** The reliability score is the success rate in percent; the
      performance score is at most 100 and at most five times the
      reliability score, and 0 without successes, as is the mean time;
      with non-negative entries both scores are non-negative. */
  lemma StatsBounds(d: AgentData)
    requires Or(d.count, 0.0) > 0.0
    ensures StatsOf(d).reliabilityScore == StatsOf(d).successRate * 100.0
    ensures StatsOf(d).performanceScore <= 100.0
    ensures Or(d.successes, 0.0) <= 0.0 ==> StatsOf(d).performanceScore == 0.0 && StatsOf(d).averageResponseTime == 0.0
    ensures Or(d.successes, 0.0) >= 0.0 && Or(d.totalTime, 0.0) >= 0.0 ==>
      0.0 <= StatsOf(d).performanceScore <= 5.0 * StatsOf(d).reliabilityScore
  {
    var successes := Or(d.successes, 0.0);
    var count := Or(d.count, 0.0);
    if successes > 0.0 && Or(d.totalTime, 0.0) >= 0.0 {
      var rel := (successes / count) * 100.0;
      var mx := MaxR(Or(d.totalTime, 0.0) / successes, 1.0);
      assert rel >= 0.0 by {
        assert successes / count > 0.0;
      }
      ScaledDown(rel, mx);
      assert StatsOf(d).reliabilityScore == rel;
      assert StatsOf(d).performanceScore == MinR(100.0, rel * (5.0 / mx));
    }
  }

  /** Dividing the factor 5 by at least 1 keeps a non-negative score
      between 0 and five times itself. */
  lemma ScaledDown(rel: real, mx: real)
    requires rel >= 0.0 && mx >= 1.0
    ensures 0.0 <= rel * (5.0 / mx) <= 5.0 * rel
  {
    var f := 5.0 / mx;
    assert f * mx == 5.0;
    assert 0.0 < f <= 5.0;
  }

  // -------------------------------------------------------------------
  // Insights
  // -------------------------------------------------------------------

  /** A line of `get_performance_insights`. */
  datatype InsightLine =
    | HealthLine(status: Status, score: real)
    | BottleneckCount(n: nat)
    | BottleneckLine(b: Bottleneck)
    | RecommendationCount(n: nat)
    | RecommendationLine(r: Recommendation)

  /** The lines shown: the health line, then, where there are any, the
      number of bottlenecks and the first three, then the number of
      recommendations and the first two. */
  function InsightLines(h: Health, bottlenecks: seq<Bottleneck>, recommendations: seq<Recommendation>): seq<InsightLine> {
    [HealthLine(h.status, h.score)] + BottleneckSection(bottlenecks) + RecommendationSection(recommendations)
  }

  function BottleneckSection(bs: seq<Bottleneck>): seq<InsightLine> {
    if bs == [] then [] else [BottleneckCount(|bs|)] + BottleneckLines(bs[..Min(3, |bs|)])
  }

  function RecommendationSection(rs: seq<Recommendation>): seq<InsightLine> {
    if rs == [] then [] else [RecommendationCount(|rs|)] + RecommendationLines(rs[..Min(2, |rs|)])
  }

  /** One line per bottleneck, in order. */
  function BottleneckLines(bs: seq<Bottleneck>): (lines: seq<InsightLine>)
    ensures |lines| == |bs|
    ensures forall k :: 0 <= k < |bs| ==> lines[k] == BottleneckLine(bs[k])
  {
    if bs == [] then [] else BottleneckLines(bs[..|bs| - 1]) + [BottleneckLine(bs[|bs| - 1])]
  }

  /** One line per recommendation, in order. */
  function RecommendationLines(rs: seq<Recommendation>): (lines: seq<InsightLine>)
    ensures |lines| == |rs|
    ensures forall k :: 0 <= k < |rs| ==> lines[k] == RecommendationLine(rs[k])
  {
    if rs == [] then [] else RecommendationLines(rs[..|rs| - 1]) + [RecommendationLine(rs[|rs| - 1])]
  }

  /** `get_performance_insights`, up to joining the lines with newlines. */
  method GetPerformanceInsights(m: Metrics) returns (lines: seq<InsightLine>)
    ensures lines == InsightLines(Health(HealthScore(m), StatusOf(HealthScore(m)), Or(m.successRate, 0.0),
                                         Or(m.averageResponseTime, 0.0), ErrorRate(m)),
                                  Bottlenecks(m), Recommendations(m))
  {
    var health := AssessOverallHealth(m);
    var bottlenecks := IdentifyBottlenecks(m);
    var recommendations := GenerateRecommendations(m);
    var shownBottlenecks := ShowBottlenecks(bottlenecks);
    var shownRecommendations := ShowRecommendations(recommendations);
    lines := [HealthLine(health.status, health.score)] + shownBottlenecks + shownRecommendations;
  }

  /** The bottleneck lines of `get_performance_insights`. */
  method ShowBottlenecks(bottlenecks: seq<Bottleneck>) returns (lines: seq<InsightLine>)
    ensures lines == BottleneckSection(bottlenecks)
  {
    lines := [];
    if bottlenecks != [] {
      lines := [BottleneckCount(|bottlenecks|)];
      var shown := Min(3, |bottlenecks|);
      var i := 0;
      while i < shown
        invariant 0 <= i <= shown
        invariant lines == [BottleneckCount(|bottlenecks|)] + BottleneckLines(bottlenecks[..i])
      {
        assert bottlenecks[..i + 1][..i] == bottlenecks[..i];
        lines := lines + [BottleneckLine(bottlenecks[i])];
        i := i + 1;
      }
    }
  }

  /** The recommendation lines of `get_performance_insights`. */
  method ShowRecommendations(recommendations: seq<Recommendation>) returns (lines: seq<InsightLine>)
    ensures lines == RecommendationSection(recommendations)
  {
    lines := [];
    if recommendations != [] {
      lines := [RecommendationCount(|recommendations|)];
      var shown := Min(2, |recommendations|);
      var i := 0;
      while i < shown
        invariant 0 <= i <= shown
        invariant lines == [RecommendationCount(|recommendations|)] + RecommendationLines(recommendations[..i])
      {
        assert recommendations[..i + 1][..i] == recommendations[..i];
        lines := lines + [RecommendationLine(recommendations[i])];
        i := i + 1;
      }
    }
  }

  /** At most three bottlenecks are shown, the first ones, after their
      count, and nothing when there are none. */
  lemma BottleneckSectionShape(bs: seq<Bottleneck>)
    ensures |BottleneckSection(bs)| == if bs == [] then 0 else 1 + Min(3, |bs|)
    ensures bs != [] ==> BottleneckSection(bs)[0] == BottleneckCount(|bs|)
    ensures forall k :: 0 < k < |BottleneckSection(bs)| ==> BottleneckSection(bs)[k] == BottleneckLine(bs[k - 1])
  {
  }

  /** At most two recommendations are shown, the first ones, after their
      count, and nothing when there are none. */
  lemma RecommendationSectionShape(rs: seq<Recommendation>)
    ensures |RecommendationSection(rs)| == if rs == [] then 0 else 1 + Min(2, |rs|)
    ensures rs != [] ==> RecommendationSection(rs)[0] == RecommendationCount(|rs|)
    ensures forall k :: 0 < k < |RecommendationSection(rs)| ==> RecommendationSection(rs)[k] == RecommendationLine(rs[k - 1])
  {
  }

  /** The insights are the health line and at most seven more. */
  lemma InsightsTruncate(h: Health, bottlenecks: seq<Bottleneck>, recommendations: seq<Recommendation>)
    ensures 1 <= |InsightLines(h, bottlenecks, recommendations)| <= 8
    ensures InsightLines(h, bottlenecks, recommendations)[0] == HealthLine(h.status, h.score)
  {
    BottleneckSectionShape(bottlenecks);
    RecommendationSectionShape(recommendations);
  }
}
