/** Delegating a classified error to a handler: a delegation strategy is
    chosen from the error's severity and category, the strategy's
    preferred handler names are looked up in the available handlers (any
    handler is the fallback), and the chosen handler's report decides the
    outcome. Handlers are functions from the error to a value, or to a
    raised exception's text. */
module ErrorDelegation {
  import opened Text
  import opened Values
  import opened Classification

  datatype DelegationStrategy =
    | UrgentSpecialist
    | AutoRetry
    | ConfigSpecialist
    | OrchestrationSpecialist
    | SystemSpecialist
    | GeneralHandler

  /** `_determine_delegation_strategy`: a critical error is urgent whatever
      its category; otherwise the category decides. */
  function DetermineDelegationStrategy(e: ClassifiedError): DelegationStrategy {
    if e.severity == Critical then UrgentSpecialist
    else if e.category in {NetworkError, TimeoutError} then AutoRetry
    else if e.category == ConfigurationError then ConfigSpecialist
    else if e.category == AgentError then OrchestrationSpecialist
    else if e.category == ResourceError then SystemSpecialist
    else GeneralHandler
  }

  /** Each strategy is chosen exactly in its own situation: severity
      overrides category, and the remaining categories fall to the general
      handler. */
  lemma StrategyChoice(e: ClassifiedError)
    ensures DetermineDelegationStrategy(e) == UrgentSpecialist <==> e.severity == Critical
    ensures DetermineDelegationStrategy(e) == AutoRetry
        <==> e.severity != Critical && e.category in {NetworkError, TimeoutError}
    ensures DetermineDelegationStrategy(e) == ConfigSpecialist
        <==> e.severity != Critical && e.category == ConfigurationError
    ensures DetermineDelegationStrategy(e) == OrchestrationSpecialist
        <==> e.severity != Critical && e.category == AgentError
    ensures DetermineDelegationStrategy(e) == SystemSpecialist
        <==> e.severity != Critical && e.category == ResourceError
    ensures DetermineDelegationStrategy(e) == GeneralHandler
        <==> e.severity != Critical && e.category in {SystemError, ValidationError, UnknownError}
  {
  }

  /** The handler names each strategy prefers, best first. */
  function PreferredHandlers(s: DelegationStrategy): seq<string> {
    match s
    case UrgentSpecialist => ["critical_error_handler", "emergency_handler"]
    case AutoRetry => ["retry_handler", "network_handler", "timeout_handler"]
    case ConfigSpecialist => ["config_handler", "validation_handler"]
    case OrchestrationSpecialist => ["orchestration_handler", "agent_handler"]
    case SystemSpecialist => ["system_handler", "resource_handler"]
    case GeneralHandler => ["general_error_handler", "default_handler"]
  }

  /** A handler: its `__name__` and the call, which returns a value or
      raises an exception with the given text. */
  datatype Handler = Handler(name: string, run: ClassifiedError -> Result<Json, string>)

  /** The `available_handlers` dict: its keys in insertion order and its
      entries. */
  datatype HandlerTable = HandlerTable(order: seq<string>, entries: map<string, Handler>)

  /** What a dict always is: every key once, in order, and nothing else. */
  predicate ValidTable(t: HandlerTable) {
    Distinct(t.order) && SetOf(t.order) == t.entries.Keys
  }

  /** The first of `names` that is a key of `entries`. */
  function FirstAvailable(names: seq<string>, entries: map<string, Handler>): Option<string>
  {
    if names == [] then None
    else if names[0] in entries then Some(names[0])
    else FirstAvailable(names[1..], entries)
  }

  /** The fallback loop over all handlers, which takes the first one
      registered: `_can_handle_error` accepts every handler for every
      error. */
  function FirstRegistered(order: seq<string>): Option<string> {
    if order == [] then None else Some(order[0])
  }

  /** `_select_handler`, returning the selected key. */
  function SelectHandler(e: ClassifiedError, s: DelegationStrategy, t: HandlerTable): (r: Option<string>)
    requires ValidTable(t)
    ensures r.Some? ==> r.value in t.entries
  {
    match FirstAvailable(PreferredHandlers(s), t.entries)
    case Some(n) => FirstAvailableIn(PreferredHandlers(s), t.entries); Some(n)
    case None => if t.order != [] then assert t.order[0] in SetOf(t.order); FirstRegistered(t.order)
                 else FirstRegistered(t.order)
  }

  lemma {:induction false} FirstAvailableIn(names: seq<string>, entries: map<string, Handler>)
    ensures FirstAvailable(names, entries).Some? ==> FirstAvailable(names, entries).value in entries
  {
    if names != [] && names[0] !in entries {
      FirstAvailableIn(names[1..], entries);
    }
  }

  /** The first available name of a list is the earliest one that is a
      key, and there is none exactly when no name of the list is a key. */
  lemma {:induction false} FirstAvailableIsEarliest(names: seq<string>, entries: map<string, Handler>)
    ensures FirstAvailable(names, entries).None? <==> forall i :: 0 <= i < |names| ==> names[i] !in entries
    ensures FirstAvailable(names, entries).Some? ==>
      exists i :: 0 <= i < |names| && names[i] == FirstAvailable(names, entries).value && names[i] in entries
        && (forall j :: 0 <= j < i ==> names[j] !in entries)
  {
    if names != [] && names[0] !in entries {
      FirstAvailableIsEarliest(names[1..], entries);
      assert forall i :: 1 <= i < |names| ==> names[i] == names[1..][i - 1];
      if FirstAvailable(names[1..], entries).Some? {
        var i :| 0 <= i < |names[1..]| && names[1..][i] == FirstAvailable(names[1..], entries).value
          && names[1..][i] in entries && (forall j :: 0 <= j < i ==> names[1..][j] !in entries);
        assert names[i + 1] == names[1..][i];
      }
    }
  }

  /** A dict has no keys exactly when it has no entries. */
  lemma EmptyTable(t: HandlerTable)
    requires ValidTable(t)
    ensures t.order == [] <==> t.entries == map[]
  {
    if t.order != [] {
      assert t.order[0] in SetOf(t.order);
    }
    if t.entries != map[] {
      var k :| k in t.entries;
      assert k in SetOf(t.order);
    }
  }

  /** Handler selection: the earliest preferred name that is available;
      failing that, the first handler registered, since every handler can
      handle every error; nothing only when there are no handlers. */
  lemma SelectHandlerSpec(e: ClassifiedError, s: DelegationStrategy, t: HandlerTable)
    requires ValidTable(t)
    ensures SelectHandler(e, s, t).None? <==> t.entries == map[]
    ensures FirstAvailable(PreferredHandlers(s), t.entries).Some? ==>
      exists i :: 0 <= i < |PreferredHandlers(s)| && SelectHandler(e, s, t) == Some(PreferredHandlers(s)[i])
        && PreferredHandlers(s)[i] in t.entries
        && (forall j :: 0 <= j < i ==> PreferredHandlers(s)[j] !in t.entries)
    ensures (forall n :: n in PreferredHandlers(s) ==> n !in t.entries) && t.entries != map[] ==>
      SelectHandler(e, s, t) == Some(t.order[0])
  {
    FirstAvailableIsEarliest(PreferredHandlers(s), t.entries);
    EmptyTable(t);
  }

  /** The dict `delegate_error_handling` returns. `error_resolved` is the
      handler's `resolved` entry as it is, `False` when absent. */
  datatype DelegationResult = DelegationResult(
    success: bool,
    handler: Option<string>,
    strategy: DelegationStrategy,
    result: Option<Dict>,
    error: Option<string>,
    errorResolved: Json)

  /** The Python type name of a value, as an `AttributeError` message
      names it. */
  function TypeName(v: Json): string {
    match v
    case JNull => "NoneType"
    case JBool(_) => "bool"
    case JNum(n) => if n == n.Floor as real then "int" else "float"
    case JStr(_) => "str"
    case JArr(_) => "list"
    case JObj(_) => "dict"
  }

  /** `delegate_error_handling`. A missing handler dict is empty. A
      handler that raises, or that returns something without `.get` (the
      `AttributeError` is raised inside the same `try`), gives a failure
      naming the handler. */
  function DelegateErrorHandling(e: ClassifiedError, handlers: Option<HandlerTable>): DelegationResult
    requires handlers.Some? ==> ValidTable(handlers.value)
  {
    var t := if handlers.Some? then handlers.value else HandlerTable([], map[]);
    var strategy := DetermineDelegationStrategy(e);
    match SelectHandler(e, strategy, t)
    case None =>
      DelegationResult(false, None, strategy, None, Some("No suitable handler found"), JBool(false))
    case Some(key) =>
      var h := t.entries[key];
      match h.run(e)
      case Err(message) => DelegationResult(false, Some(h.name), strategy, None, Some(message), JBool(false))
      case Ok(JObj(d)) => DelegationResult(true, Some(h.name), strategy, Some(d), None, Get(d, "resolved", JBool(false)))
      case Ok(v) =>
        DelegationResult(false, Some(h.name), strategy, None,
                         Some("'" + TypeName(v) + "' object has no attribute 'get'"), JBool(false))
  }

  /** Delegation reports the chosen strategy; it succeeds exactly when a
      handler was found and returned a dict, and only then can the error
      count as resolved; without handlers it always fails the same way. */
  lemma DelegationOutcome(e: ClassifiedError, handlers: Option<HandlerTable>)
    requires handlers.Some? ==> ValidTable(handlers.value)
    ensures var r := DelegateErrorHandling(e, handlers);
      var t := if handlers.Some? then handlers.value else HandlerTable([], map[]);
      var sel := SelectHandler(e, DetermineDelegationStrategy(e), t);
      && r.strategy == DetermineDelegationStrategy(e)
      && (r.success <==> sel.Some? && t.entries[sel.value].run(e).Ok? && t.entries[sel.value].run(e).value.JObj?)
      && (r.success ==> r.result.Some? && r.errorResolved == Get(r.result.value, "resolved", JBool(false)))
      && (!r.success ==> r.errorResolved == JBool(false) && r.error.Some? && r.result.None?)
      && (r.handler.None? <==> t.entries == map[])
      && (t.entries == map[] ==> r.error == Some("No suitable handler found"))
  {
    var t := if handlers.Some? then handlers.value else HandlerTable([], map[]);
    SelectHandlerSpec(e, DetermineDelegationStrategy(e), t);
  }

  // -------------------------------------------------------------------
  // The default handlers
  // -------------------------------------------------------------------

  /** `ErrorCategory.value`. */
  function CategoryValue(c: ErrorCategory): string {
    match c
    case SystemError => "system_error"
    case ConfigurationError => "configuration_error"
    case AgentError => "agent_error"
    case NetworkError => "network_error"
    case TimeoutError => "timeout_error"
    case ResourceError => "resource_error"
    case ValidationError => "validation_error"
    case UnknownError => "unknown_error"
  }

  /** A handler report: the given entries, with `action` and `resolved`
      set. */
  function Report(resolved: bool, action: string, rest: Dict): (r: Result<Json, string>)
    ensures r.Ok? && r.value.JObj?
    ensures "resolved" in r.value.fields && r.value.fields["resolved"] == JBool(resolved)
    ensures "action" in r.value.fields && r.value.fields["action"] == JStr(action)
  {
    assert "action" != "resolved";
    Ok(JObj(rest["action" := JStr(action)]["resolved" := JBool(resolved)]))
  }

  function CriticalErrorHandler(e: ClassifiedError): Result<Json, string> {
    Report(false, "escalate", map[
      "priority" := JStr("critical"),
      "message" := JStr("Critical error requires immediate attention")])
  }

  function RetryHandler(e: ClassifiedError): Result<Json, string> {
    Report(true, "retry", map[
      "max_retries" := JNum(3.0),
      "backoff_factor" := JNum(2.0),
      "message" := JStr("Error will be handled with retry logic")])
  }

  function ConfigHandler(e: ClassifiedError): Result<Json, string> {
    Report(true, "reload_config", map[
      "validate" := JBool(true),
      "message" := JStr("Configuration will be reloaded and validated")])
  }

  function GeneralErrorHandler(e: ClassifiedError): Result<Json, string> {
    Report(e.recoverable, if e.recoverable then "log_and_continue" else "fail",
           map["message" := JStr("General error handling for " + CategoryValue(e.category))])
  }

  /** `create_error_handlers`: four handlers, registered in this order. */
  function CreateErrorHandlers(): (t: HandlerTable)
    ensures ValidTable(t)
    ensures t.order == ["critical_error_handler", "retry_handler", "config_handler", "general_error_handler"]
  {
    var order := ["critical_error_handler", "retry_handler", "config_handler", "general_error_handler"];
    HandlerTable(order, map[
      "critical_error_handler" := Handler("critical_error_handler", CriticalErrorHandler),
      "retry_handler" := Handler("retry_handler", RetryHandler),
      "config_handler" := Handler("config_handler", ConfigHandler),
      "general_error_handler" := Handler("general_error_handler", GeneralErrorHandler)])
  }

  /** The default handlers' reports: the critical one escalates
      unresolved, retry and config resolve (retry with at most 3 retries),
      and the general one resolves exactly the recoverable errors, failing
      the others. */
  lemma DefaultHandlers(e: ClassifiedError)
    ensures CriticalErrorHandler(e).value.fields["resolved"] == JBool(false)
         && CriticalErrorHandler(e).value.fields["action"] == JStr("escalate")
    ensures RetryHandler(e).value.fields["resolved"] == JBool(true)
         && RetryHandler(e).value.fields["max_retries"] == JNum(3.0)
    ensures GeneralErrorHandler(e).value.fields["resolved"] == JBool(e.recoverable)
    ensures GeneralErrorHandler(e).value.fields["action"] == JStr("log_and_continue") <==> e.recoverable
  {
    assert "max_retries" !in {"action", "resolved"};
  }

  /** The handler the default table gives each strategy: its first
      preferred name where registered; orchestration and system errors find
      none of theirs and fall back to the first registered handler. */
  function DefaultChoice(s: DelegationStrategy): string {
    match s
    case UrgentSpecialist => "critical_error_handler"
    case AutoRetry => "retry_handler"
    case ConfigSpecialist => "config_handler"
    case OrchestrationSpecialist => "critical_error_handler"
    case SystemSpecialist => "critical_error_handler"
    case GeneralHandler => "general_error_handler"
  }

  lemma DefaultSelection(e: ClassifiedError, s: DelegationStrategy)
    ensures SelectHandler(e, s, CreateErrorHandlers()) == Some(DefaultChoice(s))
  {
    var t := CreateErrorHandlers();
    FirstAvailableIsEarliest(PreferredHandlers(s), t.entries);
    match s
    case OrchestrationSpecialist =>
      assert "orchestration_handler" !in t.entries && "agent_handler" !in t.entries;
    case SystemSpecialist =>
      assert "system_handler" !in t.entries && "resource_handler" !in t.entries;
    case _ =>
  }

  /** What the default handler of each strategy reports as `resolved`. */
  function DefaultResolved(e: ClassifiedError, s: DelegationStrategy): bool {
    match s
    case AutoRetry => true
    case ConfigSpecialist => true
    case GeneralHandler => e.recoverable
    case _ => false
  }

  /** With the default handlers, delegation succeeds through the strategy's
      default choice. */
  lemma DefaultDelegationByStrategy(e: ClassifiedError)
    ensures var r := DelegateErrorHandling(e, Some(CreateErrorHandlers()));
      var s := DetermineDelegationStrategy(e);
      r.success && r.handler == Some(DefaultChoice(s)) && r.errorResolved == JBool(DefaultResolved(e, s))
  {
    var t := CreateErrorHandlers();
    var s := DetermineDelegationStrategy(e);
    DefaultSelection(e, s);
    var k := DefaultChoice(s);
    DefaultEntry(e, k);
    DelegatesTo(e, t, k);
  }

  /** The handler function registered under each default name. */
  function DefaultHandlerFor(k: string): ClassifiedError -> Result<Json, string> {
    if k == "critical_error_handler" then CriticalErrorHandler
    else if k == "retry_handler" then RetryHandler
    else if k == "config_handler" then ConfigHandler
    else GeneralErrorHandler
  }

  /** Each default name is registered, under its own name, with its handler. */
  lemma DefaultTableEntry(k: string)
    requires k in {"critical_error_handler", "retry_handler", "config_handler", "general_error_handler"}
    ensures k in CreateErrorHandlers().entries
    ensures CreateErrorHandlers().entries[k] == Handler(k, DefaultHandlerFor(k))
  {
  }

  /** The default handler under a key reports under that name, with the
      `resolved` value its own report gives. */
  lemma DefaultEntry(e: ClassifiedError, k: string)
    requires k in {"critical_error_handler", "retry_handler", "config_handler", "general_error_handler"}
    ensures k in CreateErrorHandlers().entries
    ensures var h := CreateErrorHandlers().entries[k];
      && h.name == k && h.run(e).Ok? && h.run(e).value.JObj?
      && h.run(e).value.fields["resolved"]
         == JBool(if k == "critical_error_handler" then false else if k == "general_error_handler" then e.recoverable else true)
  {
    DefaultTableEntry(k);
  }

  /** Delegation through a selected handler that returns a dict. */
  lemma DelegatesTo(e: ClassifiedError, t: HandlerTable, k: string)
    requires ValidTable(t)
    requires SelectHandler(e, DetermineDelegationStrategy(e), t) == Some(k)
    requires t.entries[k].run(e).Ok? && t.entries[k].run(e).value.JObj?
    ensures var r := DelegateErrorHandling(e, Some(t));
      && r.success && r.handler == Some(t.entries[k].name)
      && r.errorResolved == Get(t.entries[k].run(e).value.fields, "resolved", JBool(false))
  {
  }

  /** With the default handlers every error is handled successfully:
      critical errors are escalated unresolved, network and timeout errors
      are retried, configuration errors reloaded, system, validation and
      unknown errors handled generally (resolved iff recoverable), while
      agent and resource errors find none of their preferred handlers and
      fall back to the first registered one, the critical handler, which
      leaves them unresolved. */
  lemma DefaultDelegation(e: ClassifiedError)
    ensures var r := DelegateErrorHandling(e, Some(CreateErrorHandlers()));
      && r.success
      && (e.severity == Critical ==> r.handler == Some("critical_error_handler") && r.errorResolved == JBool(false))
      && (e.severity != Critical && e.category in {NetworkError, TimeoutError} ==>
            r.handler == Some("retry_handler") && r.errorResolved == JBool(true))
      && (e.severity != Critical && e.category == ConfigurationError ==>
            r.handler == Some("config_handler") && r.errorResolved == JBool(true))
      && (e.severity != Critical && e.category in {AgentError, ResourceError} ==>
            r.handler == Some("critical_error_handler") && r.errorResolved == JBool(false))
      && (e.severity != Critical && e.category in {SystemError, ValidationError, UnknownError} ==>
            r.handler == Some("general_error_handler") && r.errorResolved == JBool(e.recoverable))
  {
    DefaultDelegationByStrategy(e);
    StrategyChoice(e);
  }
}
