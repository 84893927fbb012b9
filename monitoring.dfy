/** Performance metrics: counters, response-time extremes and per-agent
    and per-error-type tallies, updated in place as tasks start, succeed
    and fail, and the rates and summary read from them. The clock
    (`start_time`, uptime) is not modelled. Ghost histories of the recorded
    response times and error types give the counters their meaning. */
module Monitoring {
  import opened Values

  /** An agent's record in `agent_performance`. */
  datatype AgentRecord = AgentRecord(count: nat, successes: nat, errors: nat, totalTime: real)

  const ZeroRecord := AgentRecord(0, 0, 0, 0.0)

  /** `if agent:` — an agent is named when given and non-empty. */
  predicate Named(agent: Option<string>) {
    agent.Some? && agent.value != ""
  }

  // -------------------------------------------------------------------
  // What the counters stand for
  // -------------------------------------------------------------------

  function Sum(ts: seq<real>): real {
    if ts == [] then 0.0 else Sum(ts[..|ts| - 1]) + ts[|ts| - 1]
  }

  /** The least of the times, `None` (Python's `inf`) for none. */
  function MinOf(ts: seq<real>): Option<real> {
    if ts == [] then None
    else
      var prev := MinOf(ts[..|ts| - 1]);
      var t := ts[|ts| - 1];
      Some(if prev.Some? && prev.value <= t then prev.value else t)
  }

  /** The greatest of the times and 0. */
  function MaxOf(ts: seq<real>): real {
    if ts == [] then 0.0
    else
      var prev := MaxOf(ts[..|ts| - 1]);
      var t := ts[|ts| - 1];
      if prev >= t then prev else t
  }

  /** How many times each entry occurs, for the entries that occur. */
  function Tally(log: seq<string>): map<string, nat> {
    if log == [] then map[]
    else
      var m := Tally(log[..|log| - 1]);
      var x := log[|log| - 1];
      m[x := (if x in m then m[x] else 0) + 1]
  }

  /** The least time is one of the times and below all of them; it is
      missing only when there are none. */
  lemma {:induction false} MinOfIsLeast(ts: seq<real>)
    ensures MinOf(ts).None? <==> ts == []
    ensures MinOf(ts).Some? ==> MinOf(ts).value in ts && forall t :: t in ts ==> MinOf(ts).value <= t
  {
    if ts != [] {
      MinOfIsLeast(ts[..|ts| - 1]);
      assert ts == ts[..|ts| - 1] + [ts[|ts| - 1]];
    }
  }

  /** The greatest time is at least 0 and every time, and is 0 or one of
      the times. */
  lemma {:induction false} MaxOfIsGreatest(ts: seq<real>)
    ensures MaxOf(ts) >= 0.0 && forall t :: t in ts ==> t <= MaxOf(ts)
    ensures MaxOf(ts) == 0.0 || MaxOf(ts) in ts
  {
    if ts != [] {
      MaxOfIsGreatest(ts[..|ts| - 1]);
      assert ts == ts[..|ts| - 1] + [ts[|ts| - 1]];
    }
  }

  /** The tally counts every entry of the log, and nothing else. */
  lemma {:induction false} TallyCounts(log: seq<string>)
    ensures forall k :: k in Tally(log) <==> k in multiset(log)
    ensures forall k :: k in Tally(log) ==> Tally(log)[k] == multiset(log)[k]
  {
    if log != [] {
      var init := log[..|log| - 1];
      TallyCounts(init);
      assert log == init + [log[|log| - 1]];
      assert multiset(log) == multiset(init) + multiset{log[|log| - 1]};
    }
  }

  /** A sum of times lies between their count times any lower and any
      upper bound. */
  lemma {:induction false} SumBounds(ts: seq<real>, lo: real, hi: real)
    requires forall t :: t in ts ==> lo <= t <= hi
    ensures |ts| as real * lo <= Sum(ts) <= |ts| as real * hi
  {
    if ts != [] {
      var init := ts[..|ts| - 1];
      assert forall t :: t in init ==> t in ts;
      SumBounds(init, lo, hi);
      assert ts[|ts| - 1] in ts;
    }
  }

  /** The average of some times lies between the least and the greatest. */
  lemma AverageWithinExtremes(ts: seq<real>)
    requires ts != []
    ensures MinOf(ts).Some?
    ensures MinOf(ts).value <= Sum(ts) / |ts| as real <= MaxOf(ts)
  {
    MinOfIsLeast(ts);
    MaxOfIsGreatest(ts);
    var lo, hi := MinOf(ts).value, MaxOf(ts);
    assert forall t :: t in ts ==> lo <= t <= hi;
    Average(ts, lo, hi);
  }

  /** Bounds on the times bound their average. */
  lemma Average(ts: seq<real>, lo: real, hi: real)
    requires ts != []
    requires forall t :: t in ts ==> lo <= t <= hi
    ensures lo <= Sum(ts) / |ts| as real <= hi
  {
    SumBounds(ts, lo, hi);
    Between(Sum(ts), |ts| as real, lo, hi);
  }

  lemma Between(total: real, n: real, lo: real, hi: real)
    requires n > 0.0 && n * lo <= total <= n * hi
    ensures lo <= total / n <= hi
  {
    var a := total / n;
    assert total == a * n;
  }

  /** Recording one more time extends the sum and the extremes. */
  lemma Appended(ts: seq<real>, t: real)
    ensures (ts + [t])[..|ts|] == ts
    ensures Sum(ts + [t]) == Sum(ts) + t
    ensures MinOf(ts + [t]) == Some(if MinOf(ts).Some? && MinOf(ts).value <= t then MinOf(ts).value else t)
    ensures MaxOf(ts + [t]) == if MaxOf(ts) >= t then MaxOf(ts) else t
  {
    assert (ts + [t])[..|ts|] == ts;
  }

  /** `get_summary`, without the uptime. */
  datatype MetricsSummary = MetricsSummary(
    taskCount: nat,
    successCount: nat,
    errorCount: nat,
    successRate: real,
    averageResponseTime: real,
    minResponseTime: real,
    maxResponseTime: real,
    agentPerformance: map<string, AgentRecord>,
    errorTypes: map<string, nat>)

  /** `PerformanceMetrics`. `minResponseTime` is `None` where the source
      holds `float('inf')`. */
  class PerformanceMetrics {
    var taskCount: nat
    var successCount: nat
    var errorCount: nat
    var totalResponseTime: real
    var minResponseTime: Option<real>
    var maxResponseTime: real
    var agentPerformance: map<string, AgentRecord>
    var errorTypes: map<string, nat>

    /** Every response time recorded as a success, in order. */
    ghost var responseTimes: seq<real>
    /** Every error type recorded, in order. */
    ghost var errorLog: seq<string>

    /** The counters agree with the histories. */
    ghost predicate Valid()
      reads this
    {
      && successCount == |responseTimes|
      && totalResponseTime == Sum(responseTimes)
      && minResponseTime == MinOf(responseTimes)
      && maxResponseTime == MaxOf(responseTimes)
      && errorCount == |errorLog|
      && errorTypes == Tally(errorLog)
    }

    constructor ()
      ensures Valid()
      ensures taskCount == 0 && successCount == 0 && errorCount == 0
      ensures agentPerformance == map[] && errorTypes == map[]
      ensures responseTimes == [] && errorLog == []
    {
      taskCount := 0;
      successCount := 0;
      errorCount := 0;
      totalResponseTime := 0.0;
      minResponseTime := None;
      maxResponseTime := 0.0;
      agentPerformance := map[];
      errorTypes := map[];
      responseTimes := [];
      errorLog := [];
    }

    /** `record_task_start`: one more task; a named agent gets a zeroed
        record on first sight, then one more on its count. */
    method RecordTaskStart(taskId: string, agent: Option<string>)
      requires Valid()
      modifies this
      ensures Valid()
      ensures taskCount == old(taskCount) + 1
      ensures agentPerformance == if Named(agent) then
          var r := if agent.value in old(agentPerformance) then old(agentPerformance)[agent.value] else ZeroRecord;
          old(agentPerformance)[agent.value := r.(count := r.count + 1)]
        else old(agentPerformance)
      ensures successCount == old(successCount) && errorCount == old(errorCount)
      ensures responseTimes == old(responseTimes) && errorLog == old(errorLog)
      ensures totalResponseTime == old(totalResponseTime) && minResponseTime == old(minResponseTime)
      ensures maxResponseTime == old(maxResponseTime) && errorTypes == old(errorTypes)
    {
      taskCount := taskCount + 1;
      if Named(agent) {
        if agent.value !in agentPerformance {
          agentPerformance := agentPerformance[agent.value := ZeroRecord];
        }
        var r := agentPerformance[agent.value];
        agentPerformance := agentPerformance[agent.value := r.(count := r.count + 1)];
      }
    }

    /** The global part of a success: count, total and extremes. */
    method RecordTime(responseTime: real)
      requires Valid()
      modifies this`successCount, this`totalResponseTime, this`minResponseTime, this`maxResponseTime, this`responseTimes
      ensures Valid()
      ensures responseTimes == old(responseTimes) + [responseTime]
    {
      successCount := successCount + 1;
      totalResponseTime := totalResponseTime + responseTime;
      minResponseTime := Some(if minResponseTime.Some? && minResponseTime.value <= responseTime
                              then minResponseTime.value else responseTime);
      maxResponseTime := if maxResponseTime >= responseTime then maxResponseTime else responseTime;
      Appended(responseTimes, responseTime);
      responseTimes := responseTimes + [responseTime];
    }

    /** The global part of an error: count and per-type tally. */
    method RecordErrorType(errorType: string)
      requires Valid()
      modifies this`errorCount, this`errorTypes, this`errorLog
      ensures Valid()
      ensures errorLog == old(errorLog) + [errorType]
    {
      errorCount := errorCount + 1;
      if errorType !in errorTypes {
        errorTypes := errorTypes[errorType := 0];
      }
      errorTypes := errorTypes[errorType := errorTypes[errorType] + 1];
      errorLog := errorLog + [errorType];
      assert errorLog[..|errorLog| - 1] == old(errorLog);
    }

    /** `record_task_success`: the time joins the recorded times. For a
        named agent that was never started the agent update raises
        `KeyError` (`ok` false) after the global counters have changed. */
    method RecordTaskSuccess(taskId: string, responseTime: real, agent: Option<string>) returns (ok: bool)
      requires Valid()
      modifies this
      ensures Valid()
      ensures responseTimes == old(responseTimes) + [responseTime]
      ensures successCount == old(successCount) + 1
      ensures ok <==> !Named(agent) || agent.value in old(agentPerformance)
      ensures agentPerformance == if Named(agent) && ok then
          var r := old(agentPerformance)[agent.value];
          old(agentPerformance)[agent.value := r.(successes := r.successes + 1, totalTime := r.totalTime + responseTime)]
        else old(agentPerformance)
      ensures taskCount == old(taskCount) && errorCount == old(errorCount)
      ensures errorLog == old(errorLog) && errorTypes == old(errorTypes)
    {
      RecordTime(responseTime);
      ok := true;
      if Named(agent) {
        if agent.value !in agentPerformance {
          return false;
        }
        var r := agentPerformance[agent.value];
        agentPerformance := agentPerformance[agent.value := r.(successes := r.successes + 1, totalTime := r.totalTime + responseTime)];
      }
    }

    /** `record_task_error`: the error type joins the recorded types. For
        a named agent that was never started the agent update raises
        `KeyError` (`ok` false) after the error counters have changed. */
    method RecordTaskError(taskId: string, errorType: string, agent: Option<string>) returns (ok: bool)
      requires Valid()
      modifies this
      ensures Valid()
      ensures errorLog == old(errorLog) + [errorType]
      ensures errorCount == old(errorCount) + 1
      ensures ok <==> !Named(agent) || agent.value in old(agentPerformance)
      ensures agentPerformance == if Named(agent) && ok then
          var r := old(agentPerformance)[agent.value];
          old(agentPerformance)[agent.value := r.(errors := r.errors + 1)]
        else old(agentPerformance)
      ensures taskCount == old(taskCount) && successCount == old(successCount)
      ensures responseTimes == old(responseTimes) && totalResponseTime == old(totalResponseTime)
      ensures minResponseTime == old(minResponseTime) && maxResponseTime == old(maxResponseTime)
    {
      RecordErrorType(errorType);
      ok := true;
      if Named(agent) {
        if agent.value !in agentPerformance {
          return false;
        }
        var r := agentPerformance[agent.value];
        agentPerformance := agentPerformance[agent.value := r.(errors := r.errors + 1)];
      }
    }

    /** `get_success_rate`: successes per started task, 0 before any
        start. */
    function SuccessRate(): (r: real)
      reads this
      ensures taskCount == 0 ==> r == 0.0
      ensures taskCount > 0 ==> r * taskCount as real == successCount as real
      ensures successCount <= taskCount ==> 0.0 <= r <= 1.0
    {
      if taskCount == 0 then 0.0 else successCount as real / taskCount as real
    }

    /** `get_average_response_time`: the mean of the recorded times, 0
        with none; it lies between the least and the greatest of them. */
    function AverageResponseTime(): (r: real)
      reads this
      requires Valid()
      ensures successCount == 0 ==> r == 0.0
      ensures successCount > 0 ==> r * |responseTimes| as real == Sum(responseTimes)
      ensures successCount > 0 ==> minResponseTime.Some? && minResponseTime.value <= r <= maxResponseTime
    {
      if successCount == 0 then 0.0
      else
        AverageWithinExtremes(responseTimes);
        totalResponseTime / successCount as real
    }

    /** `get_agent_success_rate`: 0 for an unknown agent or one with no
        starts, else its successes per start. */
    function AgentSuccessRate(agent: string): (r: real)
      reads this
      ensures agent !in agentPerformance || agentPerformance[agent].count == 0 ==> r == 0.0
      ensures agent in agentPerformance && agentPerformance[agent].count > 0 ==>
        r * agentPerformance[agent].count as real == agentPerformance[agent].successes as real
    {
      if agent !in agentPerformance then 0.0
      else
        var d := agentPerformance[agent];
        if d.count == 0 then 0.0 else d.successes as real / d.count as real
    }

    /** `get_summary`: the least response time reads 0 before any success;
        after one, least <= average <= greatest. */
    function Summary(): (s: MetricsSummary)
      reads this
      requires Valid()
      ensures successCount == 0 ==> s.minResponseTime == 0.0 && s.averageResponseTime == 0.0
      ensures successCount > 0 ==> s.minResponseTime <= s.averageResponseTime <= s.maxResponseTime
      ensures forall k :: k in s.errorTypes <==> k in errorLog
    {
      TallyCounts(errorLog);
      MetricsSummary(
        taskCount, successCount, errorCount, SuccessRate(), AverageResponseTime(),
        if minResponseTime.Some? then minResponseTime.value else 0.0,
        maxResponseTime, agentPerformance, errorTypes)
    }
  }

  /** After any sequence of recordings, each error type's count is the
      number of times it was recorded, and the counts add up to the error
      count. */
  lemma ErrorTypesCountErrors(m: PerformanceMetrics)
    requires m.Valid()
    ensures forall k :: k in m.errorTypes <==> k in m.errorLog
    ensures forall k :: k in m.errorTypes ==> m.errorTypes[k] == multiset(m.errorLog)[k]
    ensures m.errorCount == |multiset(m.errorLog)|
  {
    TallyCounts(m.errorLog);
  }

  /** `record_task_metrics` on the monitor's metrics: a success with a
      time records a success, a failure records an error (type `unknown`
      when none or empty is given), a success without a time records
      nothing; it never counts a task start. `ok` is false when the agent
      update raises. */
  method RecordTaskMetrics(m: PerformanceMetrics, taskId: string, success: bool, responseTime: Option<real>,
                           errorType: Option<string>, agent: Option<string>) returns (ok: bool)
    requires m.Valid()
    modifies m
    ensures m.Valid()
    ensures m.taskCount == old(m.taskCount)
    ensures m.responseTimes == if success && responseTime.Some? then old(m.responseTimes) + [responseTime.value]
                               else old(m.responseTimes)
    ensures m.errorLog == if success then old(m.errorLog)
                          else old(m.errorLog) + [if errorType.Some? && errorType.value != "" then errorType.value else "unknown"]
    ensures m.successCount == old(m.successCount) + (if success && responseTime.Some? then 1 else 0)
    ensures m.errorCount == old(m.errorCount) + (if success then 0 else 1)
    ensures !(success && responseTime.Some?) ==>
      m.totalResponseTime == old(m.totalResponseTime)
      && m.minResponseTime == old(m.minResponseTime) && m.maxResponseTime == old(m.maxResponseTime)
    ensures ok <==> (success && responseTime.None?) || !Named(agent) || agent.value in old(m.agentPerformance)
    ensures m.agentPerformance ==
      if Named(agent) && agent.value in old(m.agentPerformance) && success && responseTime.Some? then
        var r := old(m.agentPerformance)[agent.value];
        old(m.agentPerformance)[agent.value := r.(successes := r.successes + 1, totalTime := r.totalTime + responseTime.value)]
      else if Named(agent) && agent.value in old(m.agentPerformance) && !success then
        var r := old(m.agentPerformance)[agent.value];
        old(m.agentPerformance)[agent.value := r.(errors := r.errors + 1)]
      else old(m.agentPerformance)
  {
    ok := true;
    if success && responseTime.Some? {
      ok := m.RecordTaskSuccess(taskId, responseTime.value, agent);
    } else if !success {
      ok := m.RecordTaskError(taskId, if errorType.Some? && errorType.value != "" then errorType.value else "unknown", agent);
    }
  }
}
