/** Error recovery: the ordered list of strategies for an error category,
    the dispatch from a strategy name to its recovery function, the
    individual strategies, and the attempt loop that returns the first
    success. Sleeping is modelled as the list of delays requested. */
module Recovery {
  import opened Text
  import opened Values
  import opened Classification
  import opened Ranking

  /** `RecoveryResult`; the human-readable message and the timestamp are
      not modelled. `attempts` is an `int` because it echoes a caller's
      `max_retries`, which may be zero or negative. */
  datatype RecoveryResult = RecoveryResult(
    success: bool,
    strategy: string,
    attempts: int,
    recoveredValue: Option<Json>)

  /** A strategy entry of the list: `{'name': ..., 'priority': ...}`. */
  datatype Strategy = Strategy(name: string, priority: int)

  function Priority(s: Strategy): real {
    s.priority as real
  }

  /** The three category-specific strategies, where the category has them. */
  function CategoryStrategies(c: ErrorCategory): seq<Strategy> {
    match c
    case NetworkError =>
      [Strategy("retry_with_backoff", 1), Strategy("alternative_endpoint", 2), Strategy("offline_mode", 3)]
    case TimeoutError =>
      [Strategy("increase_timeout", 1), Strategy("async_execution", 2), Strategy("batch_processing", 3)]
    case ConfigurationError =>
      [Strategy("reload_config", 1), Strategy("use_default_config", 2), Strategy("config_validation", 3)]
    case AgentError =>
      [Strategy("fallback_agent", 1), Strategy("direct_execution", 2), Strategy("alternative_workflow", 3)]
    case ResourceError =>
      [Strategy("resource_cleanup", 1), Strategy("reduce_scope", 2), Strategy("defer_execution", 3)]
    case _ => []
  }

  const GenericStrategies: seq<Strategy> := [Strategy("generic_retry", 10), Strategy("graceful_degradation", 11)]

  /** `_get_recovery_strategies`: the category's strategies and the two
      generic ones, sorted by priority (a stable sort). */
  function GetRecoveryStrategies(c: ErrorCategory): seq<Strategy> {
    SortBy(CategoryStrategies(c) + GenericStrategies, Priority)
  }

  /** The list is already in priority order, so sorting keeps it: the
      category's strategies with priorities 1, 2, 3 (where it has any),
      then `generic_retry` and `graceful_degradation`; system, validation
      and unknown errors get only the two generic ones. */
  lemma StrategyOrder(c: ErrorCategory)
    ensures GetRecoveryStrategies(c) == CategoryStrategies(c) + GenericStrategies
    ensures |CategoryStrategies(c)| == 3 || (c in {SystemError, ValidationError, UnknownError} && CategoryStrategies(c) == [])
    ensures forall i :: 0 <= i < |CategoryStrategies(c)| ==> CategoryStrategies(c)[i].priority == i + 1
    ensures GetRecoveryStrategies(c)[|GetRecoveryStrategies(c)| - 1] == Strategy("graceful_degradation", 11)
  {
    var s := CategoryStrategies(c) + GenericStrategies;
    assert SortedBy(s, Priority);
    SortBySorted(s, Priority);
  }

  // -------------------------------------------------------------------
  // The strategies
  // -------------------------------------------------------------------

  /** A context value used as an `int` (`range(n)`): a whole number or a
      bool; anything else raises `TypeError`. */
  function IntOf(v: Json): Option<int> {
    match v
    case JNum(n) => if n == n.Floor as real then Some(n.Floor) else None
    case JBool(b) => Some(if b then 1 else 0)
    case _ => None
  }

  /** A context value used in arithmetic: a number or a bool. */
  function NumberOf(v: Json): Option<real> {
    match v
    case JNum(n) => Some(n)
    case JBool(b) => Some(if b then 1.0 else 0.0)
    case _ => None
  }

  function Pow2(k: nat): (r: nat)
    ensures r >= 1
  {
    if k == 0 then 1 else 2 * Pow2(k - 1)
  }

  /** The outcome of `_retry_with_backoff` for a given `max_retries` and
      `base_delay`, with the delays it sleeps, in order. The retried
      operation is simulated: the second attempt succeeds. `Err` is an
      exception: a non-numeric base, or a negative delay `time.sleep`
      refuses. */
  function Backoff(maxRetries: int, base: Option<real>): (Result<RecoveryResult, string>, seq<real>) {
    if maxRetries <= 0 then (Ok(RecoveryResult(false, "retry_with_backoff", maxRetries, None)), [])
    else if base.None? then (Err("TypeError"), [])
    else if base.value < 0.0 then (Err("ValueError"), [])
    else if maxRetries == 1 then (Ok(RecoveryResult(false, "retry_with_backoff", 1, None)), [base.value])
    else (Ok(RecoveryResult(true, "retry_with_backoff", 2, None)), [base.value, 2.0 * base.value])
  }

  /** `_retry_with_backoff` on a context; a non-integer `max_retries`
      raises `TypeError` in `range`. */
  function RetryWithBackoffOutcome(context: Dict): Result<RecoveryResult, string> {
    match IntOf(Get(context, "max_retries", JNum(3.0)))
    case None => Err("TypeError")
    case Some(maxRetries) => Backoff(maxRetries, NumberOf(Get(context, "base_delay", JNum(1.0)))).0
  }

  /** `_retry_with_backoff`: the attempt loop with its early return,
      sleeping `base_delay · 2^attempt` before each attempt. */
  method RetryWithBackoff(maxRetries: int, base: Option<real>) returns (r: Result<RecoveryResult, string>, delays: seq<real>)
    ensures (r, delays) == Backoff(maxRetries, base)
  {
    delays := [];
    var attempt := 0;
    while attempt < maxRetries
      invariant 0 <= attempt <= 1
      invariant attempt == 1 ==> 1 <= maxRetries && base.Some? && base.value >= 0.0 && delays == [base.value]
      invariant attempt == 0 ==> delays == []
    {
      if base.None? {
        return Err("TypeError"), delays;
      }
      var delay := base.value * Pow2(attempt) as real;
      if delay < 0.0 {
        return Err("ValueError"), delays;
      }
      delays := delays + [delay];
      if attempt == 1 {
        assert Pow2(1) == 2 && delay == 2.0 * base.value;
        assert delays == [base.value, 2.0 * base.value];
        assert Backoff(maxRetries, base).0 == Ok(RecoveryResult(true, "retry_with_backoff", 2, None));
        return Ok(RecoveryResult(true, "retry_with_backoff", attempt + 1, None)), delays;
      }
      attempt := attempt + 1;
    }
    r := Ok(RecoveryResult(false, "retry_with_backoff", maxRetries, None));
  }

  /** Backoff with the defaults (3 retries, base 1.0) and, generally, with
      at least two retries and a usable base delay succeeds at attempt 2
      after sleeping `base` and `2·base`; with one retry it fails after one
      sleep, with none it fails at once reporting `max_retries` attempts;
      every delay doubles the one before. */
  lemma BackoffOutcomes(maxRetries: int, base: Option<real>)
    ensures var (r, delays) := Backoff(maxRetries, base);
      && |delays| <= 2
      && (|delays| == 2 ==> delays[1] == 2.0 * delays[0])
      && (r.Ok? && r.value.success <==> maxRetries >= 2 && base.Some? && base.value >= 0.0)
      && (r.Ok? ==> |delays| == if maxRetries <= 0 then 0 else Min(maxRetries, 2))
      && (r.Ok? ==> r.value.attempts == (if maxRetries >= 2 then 2 else maxRetries))
      && (r.Err? ==> delays == [] && maxRetries > 0)
    ensures RetryWithBackoffOutcome(map[]) == Ok(RecoveryResult(true, "retry_with_backoff", 2, None))
  {
    assert IntOf(JNum(3.0)) == Some(3);
  }

  /** `_increase_timeout`: the current timeout (30 by default) times 1.5;
      a non-numeric timeout raises `TypeError`. */
  function IncreaseTimeout(context: Dict): (r: Result<RecoveryResult, string>)
  {
    match NumberOf(Get(context, "current_timeout", JNum(30.0)))
    case None => Err("TypeError")
    case Some(t) => Ok(RecoveryResult(true, "increase_timeout", 1, Some(JObj(map["new_timeout" := JNum(t * 1.5)]))))
  }

  /** Increasing the timeout succeeds whenever the timeout is a number,
      raising it by half (from 30 to 45 by default). */
  lemma IncreaseTimeoutRaisesByHalf(context: Dict, t: real)
    requires NumberOf(Get(context, "current_timeout", JNum(30.0))) == Some(t)
    ensures IncreaseTimeout(context).Ok? && IncreaseTimeout(context).value.success
    ensures IncreaseTimeout(context).value.attempts == 1
    ensures IncreaseTimeout(context).value.recoveredValue == Some(JObj(map["new_timeout" := JNum(t + t / 2.0)]))
    ensures context == map[] ==> IncreaseTimeout(context).value.recoveredValue == Some(JObj(map["new_timeout" := JNum(45.0)]))
  {
  }

  /** The names the dispatch map knows. */
  const RecoveryFunctions: set<string> := {
    "retry_with_backoff", "alternative_endpoint", "offline_mode", "increase_timeout", "async_execution",
    "reload_config", "use_default_config", "fallback_agent", "direct_execution", "resource_cleanup",
    "reduce_scope", "generic_retry", "graceful_degradation"}

  /** The recovery functions that always succeed, and those that always
      fail (the placeholders and `generic_retry`). */
  const AlwaysSucceed: set<string> := {"reload_config", "fallback_agent", "resource_cleanup", "graceful_degradation"}
  const AlwaysFail: set<string> := {
    "alternative_endpoint", "offline_mode", "async_execution", "use_default_config", "direct_execution",
    "reduce_scope", "generic_retry"}

  /** `_execute_recovery_strategy`: the recovery function the name maps
      to; an unknown name gives a failure after one attempt. */
  function ExecuteRecoveryStrategy(s: Strategy, context: Dict): Result<RecoveryResult, string> {
    if s.name == "retry_with_backoff" then RetryWithBackoffOutcome(context)
    else if s.name == "increase_timeout" then IncreaseTimeout(context)
    else if s.name in AlwaysSucceed then Ok(RecoveryResult(true, s.name, 1, None))
    else Ok(RecoveryResult(false, s.name, 1, None))
  }

  /** Every strategy reports its own name. Apart from the two that read
      the context, a known strategy succeeds or fails by its kind after one
      attempt, and an unknown name fails after one attempt; four names in
      the strategy lists are unknown to the dispatch map. */
  lemma DispatchTable(s: Strategy, context: Dict)
    ensures ExecuteRecoveryStrategy(s, context).Ok? ==> ExecuteRecoveryStrategy(s, context).value.strategy == s.name
    ensures s.name !in {"retry_with_backoff", "increase_timeout"} ==>
      ExecuteRecoveryStrategy(s, context) == Ok(RecoveryResult(s.name in AlwaysSucceed, s.name, 1, None))
    ensures s.name !in RecoveryFunctions ==> ExecuteRecoveryStrategy(s, context) == Ok(RecoveryResult(false, s.name, 1, None))
    ensures RecoveryFunctions == AlwaysSucceed + AlwaysFail + {"retry_with_backoff", "increase_timeout"}
    ensures forall n :: n in ["batch_processing", "config_validation", "alternative_workflow", "defer_execution"] ==> n !in RecoveryFunctions
  {
    DispatchReportsName(s, context);
    DispatchByKind(s, context);
    DispatchNames();
  }

  lemma DispatchReportsName(s: Strategy, context: Dict)
    ensures ExecuteRecoveryStrategy(s, context).Ok? ==> ExecuteRecoveryStrategy(s, context).value.strategy == s.name
  {
  }

  lemma DispatchByKind(s: Strategy, context: Dict)
    ensures s.name !in {"retry_with_backoff", "increase_timeout"} ==>
      ExecuteRecoveryStrategy(s, context) == Ok(RecoveryResult(s.name in AlwaysSucceed, s.name, 1, None))
    ensures s.name !in RecoveryFunctions ==> ExecuteRecoveryStrategy(s, context) == Ok(RecoveryResult(false, s.name, 1, None))
  {
  }

  lemma DispatchNames()
    ensures RecoveryFunctions == AlwaysSucceed + AlwaysFail + {"retry_with_backoff", "increase_timeout"}
    ensures forall n :: n in ["batch_processing", "config_validation", "alternative_workflow", "defer_execution"] ==> n !in RecoveryFunctions
  {
  }

  // -------------------------------------------------------------------
  // The attempt loop
  // -------------------------------------------------------------------

  /** The first strategy whose run returns a successful result, skipping
      failures and raised exceptions alike. */
  function FirstSuccess(strategies: seq<Strategy>, run: Strategy -> Result<RecoveryResult, string>): Option<RecoveryResult>
  {
    if strategies == [] then None
    else
      var r := run(strategies[0]);
      if r.Ok? && r.value.success then Some(r.value) else FirstSuccess(strategies[1..], run)
  }

  /** The loop of `attempt_recovery` over a given list of strategies. */
  function RecoveryOutcome(strategies: seq<Strategy>, run: Strategy -> Result<RecoveryResult, string>): RecoveryResult {
    match FirstSuccess(strategies, run)
    case Some(r) => r
    case None => RecoveryResult(false, "none", |strategies|, None)
  }

  /** The first success is the result of the earliest strategy that
      succeeds; without one the outcome is the `none` failure counting
      every strategy. */
  lemma {:induction false} FirstSuccessIsEarliest(strategies: seq<Strategy>, run: Strategy -> Result<RecoveryResult, string>)
    ensures FirstSuccess(strategies, run).None? <==>
      forall i :: 0 <= i < |strategies| ==> !(run(strategies[i]).Ok? && run(strategies[i]).value.success)
    ensures FirstSuccess(strategies, run).Some? ==>
      exists i :: 0 <= i < |strategies|
        && run(strategies[i]) == Ok(FirstSuccess(strategies, run).value) && FirstSuccess(strategies, run).value.success
        && (forall j :: 0 <= j < i ==> !(run(strategies[j]).Ok? && run(strategies[j]).value.success))
  {
    if strategies != [] {
      FirstSuccessIsEarliest(strategies[1..], run);
      var r := run(strategies[0]);
      if !(r.Ok? && r.value.success) {
        assert forall i :: 1 <= i < |strategies| ==> strategies[i] == strategies[1..][i - 1];
        if FirstSuccess(strategies[1..], run).Some? {
          var i :| 0 <= i < |strategies[1..]|
            && run(strategies[1..][i]) == Ok(FirstSuccess(strategies[1..], run).value)
            && FirstSuccess(strategies[1..], run).value.success
            && forall j :: 0 <= j < i ==> !(run(strategies[1..][j]).Ok? && run(strategies[1..][j]).value.success);
          assert strategies[i + 1] == strategies[1..][i];
        }
      }
    }
  }

  /** `attempt_recovery`: strategies in list order, returning the first
      successful result and swallowing exceptions. A missing context is
      taken as empty. */
  method AttemptRecovery(error: ClassifiedError, context: Option<Dict>) returns (result: RecoveryResult)
    ensures var ctx := if context.Some? then context.value else map[];
      result == RecoveryOutcome(GetRecoveryStrategies(error.category), s => ExecuteRecoveryStrategy(s, ctx))
  {
    var ctx := if context.Some? then context.value else map[];
    ghost var run := s => ExecuteRecoveryStrategy(s, ctx);
    var strategies := GetRecoveryStrategies(error.category);
    var i := 0;
    while i < |strategies|
      invariant 0 <= i <= |strategies|
      invariant FirstSuccess(strategies, run) == FirstSuccess(strategies[i..], run)
    {
      assert strategies[i..][1..] == strategies[i + 1..];
      var r := ExecuteRecoveryStrategy(strategies[i], ctx);
      assert r == run(strategies[i..][0]);
      if r.Ok? && r.value.success {
        assert FirstSuccess(strategies, run) == Some(r.value);
        return r.value;
      }
      i := i + 1;
    }
    assert FirstSuccess(strategies, run) == None;
    result := RecoveryResult(false, "none", |strategies|, None);
  }

  /** With the built-in table recovery never fails: the list always ends
      with `graceful_degradation`, which always succeeds. */
  lemma RecoveryAlwaysSucceeds(c: ErrorCategory, context: Dict)
    ensures RecoveryOutcome(GetRecoveryStrategies(c), s => ExecuteRecoveryStrategy(s, context)).success
  {
    var run := s => ExecuteRecoveryStrategy(s, context);
    var strategies := GetRecoveryStrategies(c);
    StrategyOrder(c);
    FirstSuccessIsEarliest(strategies, run);
    assert run(strategies[|strategies| - 1]).Ok? && run(strategies[|strategies| - 1]).value.success;
  }

  /** Which strategy recovers a category with its own strategies: the
      first of its list for configuration, agent and resource errors,
      `increase_timeout` for a timeout with a numeric (or absent) current
      timeout, and backoff for a network error with the default context. */
  lemma OutcomeByCategory(c: ErrorCategory, context: Dict)
    ensures var r := RecoveryOutcome(GetRecoveryStrategies(c), s => ExecuteRecoveryStrategy(s, context));
      && (c == ConfigurationError ==> r.strategy == "reload_config")
      && (c == AgentError ==> r.strategy == "fallback_agent")
      && (c == ResourceError ==> r.strategy == "resource_cleanup")
      && (c == TimeoutError && NumberOf(Get(context, "current_timeout", JNum(30.0))).Some? ==> r.strategy == "increase_timeout")
      && (c == NetworkError && context == map[] ==> r.strategy == "retry_with_backoff" && r.attempts == 2)
  {
    StrategyOrder(c);
    if c == NetworkError && context == map[] {
      BackoffOutcomes(3, Some(1.0));
    }
  }

  /** System, validation and unknown errors are recovered by
      `graceful_degradation`, since `generic_retry` always fails. */
  lemma GenericOutcome(c: ErrorCategory, context: Dict)
    requires c in {SystemError, ValidationError, UnknownError}
    ensures RecoveryOutcome(GetRecoveryStrategies(c), s => ExecuteRecoveryStrategy(s, context))
         == RecoveryResult(true, "graceful_degradation", 1, None)
  {
    StrategyOrder(c);
    assert GetRecoveryStrategies(c) == GenericStrategies;
    assert GenericStrategies[1..] == [Strategy("graceful_degradation", 11)];
  }
}
