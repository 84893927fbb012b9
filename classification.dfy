/** Error classification: an exception is sorted into one of eight
    categories by ordered keyword rules on its lower-cased message, given a
    severity from its message and its type name, judged recoverable or not,
    and mapped to a fixed recovery strategy. */
module Classification {
  import opened Text
  import opened Values

  datatype ErrorCategory =
    | SystemError
    | ConfigurationError
    | AgentError
    | NetworkError
    | TimeoutError
    | ResourceError
    | ValidationError
    | UnknownError

  datatype ErrorSeverity = Low | Medium | High | Critical

  /** A raised exception as the classifier sees it: the name of its type
      (`type(error).__name__`) and its text (`str(error)`). */
  datatype Exception = Exception(typeName: string, message: string)

  /** The classified error record. Its `timestamp` is always `None` and is
      not modelled. */
  datatype ClassifiedError = ClassifiedError(
    error: Exception,
    category: ErrorCategory,
    severity: ErrorSeverity,
    context: Dict,
    recoverable: bool)

  const NetworkKeywords: seq<string> := ["connection", "network", "timeout", "unreachable"]
  const ConfigKeywords: seq<string> := ["config", "setting", "parameter", "yaml", "json"]
  const ResourceKeywords: seq<string> := ["memory", "disk", "cpu", "resource"]
  const ValidationKeywords: seq<string> := ["validation", "invalid", "missing", "required"]
  const AgentKeywords: seq<string> := ["agent", "delegation", "orchestration"]
  const SystemKeywords: seq<string> := ["system", "os", "permission", "access"]
  const CriticalKeywords: seq<string> := ["critical", "fatal", "crash", "corrupt"]

  const HighSeverityTypes: seq<string> := ["MemoryError", "OSError", "PermissionError"]
  const MediumSeverityTypes: seq<string> := ["ValueError", "KeyError", "AttributeError", "TimeoutError"]
  const NonRecoverableTypes: seq<string> := ["MemoryError", "SystemError"]

  /** `_determine_error_category`: the first keyword family present in the
      lower-cased message decides; inside the network family, `timeout`
      selects the timeout category. */
  function DetermineErrorCategory(e: Exception): ErrorCategory {
    var m := Lower(e.message);
    if AnyIn(m, NetworkKeywords) then
      (if Contains(m, "timeout") then TimeoutError else NetworkError)
    else if AnyIn(m, ConfigKeywords) then ConfigurationError
    else if AnyIn(m, ResourceKeywords) then ResourceError
    else if AnyIn(m, ValidationKeywords) then ValidationError
    else if AnyIn(m, AgentKeywords) then AgentError
    else if AnyIn(m, SystemKeywords) then SystemError
    else UnknownError
  }

  /** `_determine_error_severity`: message words first, then the type name. */
  function DetermineErrorSeverity(e: Exception): ErrorSeverity {
    if AnyIn(Lower(e.message), CriticalKeywords) then Critical
    else if e.typeName in HighSeverityTypes then High
    else if e.typeName in MediumSeverityTypes then Medium
    else Low
  }

  /** `_is_recoverable`. */
  function IsRecoverable(e: Exception, category: ErrorCategory): bool {
    if category in {NetworkError, TimeoutError, AgentError} then true
    else if e.typeName in NonRecoverableTypes then false
    else true
  }

  /** `classify_error`: a missing context becomes the empty dict. */
  function ClassifyError(e: Exception, context: Option<Dict>): (r: ClassifiedError)
    ensures r.error == e
    ensures r.context == (if context.Some? then context.value else map[])
    ensures r.category == DetermineErrorCategory(e)
    ensures r.severity == DetermineErrorSeverity(e)
    ensures !r.recoverable <==>
      r.category in {ConfigurationError, ResourceError, ValidationError, SystemError, UnknownError}
      && e.typeName in {"MemoryError", "SystemError"}
  {
    var category := DetermineErrorCategory(e);
    ClassifiedError(e, category, DetermineErrorSeverity(e),
      if context.Some? then context.value else map[],
      IsRecoverable(e, category))
  }

  /** The strategy records of `get_error_recovery_strategy`. */
  datatype RecoveryPlan =
    | FailFast
    | RetryWithBackoff(maxRetries: nat, backoffFactor: real)
    | IncreaseTimeout(factor: real, maxTimeout: nat)
    | FallbackAgent(fallbackCount: nat)
    | ReloadConfig(validateAfterReload: bool)
    | ResourceCleanup(cleanupActions: seq<string>)
    | GenericRetry(maxRetries: nat)

  /** The `strategy` field of each record. */
  function PlanName(p: RecoveryPlan): string {
    match p
    case FailFast => "none"
    case RetryWithBackoff(_, _) => "retry_with_backoff"
    case IncreaseTimeout(_, _) => "increase_timeout"
    case FallbackAgent(_) => "fallback_agent"
    case ReloadConfig(_) => "reload_config"
    case ResourceCleanup(_) => "resource_cleanup"
    case GenericRetry(_) => "generic_retry"
  }

  /** `get_error_recovery_strategy`: fail fast when not recoverable,
      otherwise the tabled strategy of the category, `generic_retry` for
      the untabled ones. */
  function GetErrorRecoveryStrategy(c: ClassifiedError): RecoveryPlan {
    if !c.recoverable then FailFast
    else match c.category
      case NetworkError => RetryWithBackoff(3, 2.0)
      case TimeoutError => IncreaseTimeout(1.5, 300)
      case AgentError => FallbackAgent(2)
      case ConfigurationError => ReloadConfig(true)
      case ResourceError => ResourceCleanup(["cache_clear", "temp_file_cleanup"])
      case _ => GenericRetry(2)
  }

  // -------------------------------------------------------------------
  // Properties
  // -------------------------------------------------------------------

  /** Each category is chosen exactly when its keyword family is present
      and no earlier family is: the rules are tried in a fixed order. */
  lemma CategoryOrder(e: Exception)
    ensures var m := Lower(e.message);
      var r := DetermineErrorCategory(e);
      && (r == TimeoutError <==> Contains(m, "timeout"))
      && (r == NetworkError <==> AnyIn(m, NetworkKeywords) && !Contains(m, "timeout"))
      && (r == ConfigurationError <==> !AnyIn(m, NetworkKeywords) && AnyIn(m, ConfigKeywords))
      && (r == ResourceError <==>
            !AnyIn(m, NetworkKeywords) && !AnyIn(m, ConfigKeywords) && AnyIn(m, ResourceKeywords))
      && (r == ValidationError <==>
            !AnyIn(m, NetworkKeywords) && !AnyIn(m, ConfigKeywords) && !AnyIn(m, ResourceKeywords)
            && AnyIn(m, ValidationKeywords))
      && (r == AgentError <==>
            !AnyIn(m, NetworkKeywords) && !AnyIn(m, ConfigKeywords) && !AnyIn(m, ResourceKeywords)
            && !AnyIn(m, ValidationKeywords) && AnyIn(m, AgentKeywords))
      && (r == SystemError <==>
            !AnyIn(m, NetworkKeywords) && !AnyIn(m, ConfigKeywords) && !AnyIn(m, ResourceKeywords)
            && !AnyIn(m, ValidationKeywords) && !AnyIn(m, AgentKeywords) && AnyIn(m, SystemKeywords))
      && (r == UnknownError <==>
            !AnyIn(m, NetworkKeywords) && !AnyIn(m, ConfigKeywords) && !AnyIn(m, ResourceKeywords)
            && !AnyIn(m, ValidationKeywords) && !AnyIn(m, AgentKeywords) && !AnyIn(m, SystemKeywords))
  {
    var m := Lower(e.message);
    if Contains(m, "timeout") {
      assert NetworkKeywords[2] == "timeout";
    }
  }

  /** A message mentioning a timeout is a timeout error whatever else it
      says, and so is recoverable. */
  lemma TimeoutWins(e: Exception, context: Option<Dict>)
    requires Contains(Lower(e.message), "timeout")
    ensures ClassifyError(e, context).category == TimeoutError
    ensures ClassifyError(e, context).recoverable
    ensures GetErrorRecoveryStrategy(ClassifyError(e, context)) == IncreaseTimeout(1.5, 300)
  {
    CategoryOrder(e);
  }

  /** Critical message words decide the severity before the type name is
      looked at; otherwise the type name alone decides. */
  lemma SeverityOrder(e: Exception)
    ensures AnyIn(Lower(e.message), CriticalKeywords) ==> DetermineErrorSeverity(e) == Critical
    ensures !AnyIn(Lower(e.message), CriticalKeywords) ==>
      (DetermineErrorSeverity(e) == High <==> e.typeName in {"MemoryError", "OSError", "PermissionError"})
      && (DetermineErrorSeverity(e) == Medium <==>
            e.typeName in {"ValueError", "KeyError", "AttributeError", "TimeoutError"})
      && DetermineErrorSeverity(e) != Critical
  {
  }

  /** Only a `MemoryError` or `SystemError` outside the network, timeout
      and agent categories is unrecoverable, and only those fail fast. */
  lemma FailFastExactly(e: Exception, context: Option<Dict>)
    ensures var c := ClassifyError(e, context);
      GetErrorRecoveryStrategy(c) == FailFast <==>
        c.category !in {NetworkError, TimeoutError, AgentError}
        && (e.typeName == "MemoryError" || e.typeName == "SystemError")
  {
  }

  /** The strategy table: every recoverable error gets the plan named after
      its category, and the untabled categories get `generic_retry`. */
  lemma StrategyTable(c: ClassifiedError)
    requires c.recoverable
    ensures var p := GetErrorRecoveryStrategy(c);
      && (c.category == NetworkError ==> PlanName(p) == "retry_with_backoff" && p.maxRetries == 3)
      && (c.category == TimeoutError ==> PlanName(p) == "increase_timeout" && p.maxTimeout == 300)
      && (c.category == AgentError ==> PlanName(p) == "fallback_agent" && p.fallbackCount == 2)
      && (c.category == ConfigurationError ==> PlanName(p) == "reload_config" && p.validateAfterReload)
      && (c.category == ResourceError ==> PlanName(p) == "resource_cleanup")
      && (c.category in {SystemError, ValidationError, UnknownError} ==> p == GenericRetry(2))
      && p != FailFast
  {
  }
}
