/** The master agent's MCP server: it reads its configuration document
    once, lists three subagent-management tools followed by one tool per
    configured capability, dispatches tool calls, turning a failure inside
    a tool into a failed result, and answers line-delimited JSON-RPC
    requests with a result or an error code.

    The document, the fresh subagent identifier, the argument sanitiser
    and the JSON parser are parameters: they are the file system, the
    clock and random numbers, a helper the server calls but never
    defines, and `JSON.parse`. */
module MasterServer {
  import opened Text
  import opened Values
  import opened MasterConfig

  // ---------------------------------------------------------------------
  // Tools
  // ---------------------------------------------------------------------

  /** The property names and required properties of an input schema. */
  datatype Schema = Schema(properties: seq<string>, required: seq<string>)

  datatype Tool = Tool(name: string, description: string, inputSchema: Option<Schema>)

  const McpNames: seq<string> := ["create_subagent", "orchestrate_tasks", "delegate_to_agent"]

  /** The tools of `initializeMCPServer`. */
  const McpTools: seq<Tool> := [
    Tool("create_subagent", "Create a new subagent for specific task execution",
      Some(Schema(["task_type", "capabilities", "config"], ["task_type"]))),
    Tool("orchestrate_tasks", "Orchestrate parallel execution of multiple tasks",
      Some(Schema(["tasks", "parallel"], ["tasks"]))),
    Tool("delegate_to_agent", "Delegate task to appropriate agent",
      Some(Schema(["task", "agent_type", "priority"], ["task"])))]

  /** The tool listed for a capability: its name, and a description with
      every dash turned into a space; no input schema. */
  function CapabilityTool(cap: string): Tool {
    Tool(cap, "Master agent " + ReplaceDashes(cap) + " capability", None)
  }

  function CapabilityTools(caps: seq<string>): (r: seq<Tool>)
    ensures |r| == |caps|
    ensures forall i :: 0 <= i < |caps| ==> r[i] == CapabilityTool(caps[i])
  {
    seq(|caps|, i requires 0 <= i < |caps| => CapabilityTool(caps[i]))
  }

  function ToolNames(tools: seq<Tool>): (r: seq<string>)
    ensures |r| == |tools|
    ensures forall i :: 0 <= i < |tools| ==> r[i] == tools[i].name
  {
    seq(|tools|, i requires 0 <= i < |tools| => tools[i].name)
  }

  /** A capability tool's description keeps no dash. */
  lemma CapabilityToolNoDash(cap: string)
    ensures '-' !in CapabilityTool(cap).description
  {
    var mid := ReplaceDashes(cap);
    assert '-' !in mid by {
      forall k | 0 <= k < |mid| ensures mid[k] != '-' {
      }
    }
    assert '-' !in "Master agent " && '-' !in " capability";
  }

  /** The listing: the three management tools first, then one tool per
      capability in order, named by it, without schema, and with no dash
      left in its description. */
  lemma ToolsListing(caps: seq<string>)
    ensures var tools := McpTools + CapabilityTools(caps);
      && |tools| == 3 + |caps|
      && tools[..3] == McpTools
      && (forall i :: 0 <= i < 3 ==> tools[i].inputSchema.Some? && tools[i].name == McpNames[i])
      && (forall i :: 0 <= i < |caps| ==>
            tools[3 + i].name == caps[i] && tools[3 + i].inputSchema.None?
            && '-' !in tools[3 + i].description)
  {
    var tools := McpTools + CapabilityTools(caps);
    forall i | 0 <= i < |caps|
      ensures '-' !in CapabilityTools(caps)[i].description
    {
      CapabilityToolNoDash(caps[i]);
    }
    assert forall i :: 0 <= i < |caps| ==> tools[3 + i] == CapabilityTools(caps)[i];
  }

  lemma ToolNamesAppend(a: seq<Tool>, b: seq<Tool>)
    ensures ToolNames(a + b) == ToolNames(a) + ToolNames(b)
  {
  }

  /** The listed names are the management tools' and then the
      capabilities, in order. */
  lemma ListedNames(caps: seq<string>)
    ensures ToolNames(McpTools + CapabilityTools(caps)) == McpNames + caps
  {
    ToolNamesAppend(McpTools, CapabilityTools(caps));
    assert ToolNames(CapabilityTools(caps)) == caps;
    assert ToolNames(McpTools) == McpNames;
  }

  // ---------------------------------------------------------------------
  // Arguments
  // ---------------------------------------------------------------------

  /** JavaScript truthiness: unlike Python, empty arrays and objects are
      true. */
  predicate JsTruthy(v: Json) {
    match v
    case JNull => false
    case JBool(b) => b
    case JNum(n) => n != 0.0
    case JStr(s) => s != []
    case JArr(_) => true
    case JObj(_) => true
  }

  /** The exception JavaScript raises reading a property of `undefined` or
      `null`. */
  const TypeError := "TypeError"

  /** Reading property `key` of a value that may be `undefined` (`None`):
      `undefined` and `null` raise, an object gives its field if present,
      and any other value has no such property. */
  function Prop(v: Option<Json>, key: string): (r: Result<Option<Json>, string>)
  {
    match v
    case None => Err(TypeError)
    case Some(JNull) => Err(TypeError)
    case Some(JObj(fields)) => Ok(if key in fields then Some(fields[key]) else None)
    case Some(_) => Ok(None)
  }

  /** A destructuring default (`{ x = d }`): it applies to `undefined` only. */
  function OrDefault(v: Option<Json>, d: Json): Json {
    match v
    case Some(x) => x
    case None => d
  }

  /** `x || d`: any falsy value, `null` included, gives `d`. */
  function OrElse(v: Option<Json>, d: Json): Json {
    match v
    case Some(x) => if JsTruthy(x) then x else d
    case None => d
  }

  /** The object an argument list is read from: any readable property
      comes from it and nothing else. */
  lemma PropSpec(v: Json, key: string)
    ensures Prop(Some(v), key).Err? <==> v.JNull?
    ensures Prop(Some(v), key).Ok? && Prop(Some(v), key).value.Some? <==>
      v.JObj? && key in v.fields
    ensures v.JObj? && key in v.fields ==> Prop(Some(v), key) == Ok(Some(v.fields[key]))
  {
  }

  // ---------------------------------------------------------------------
  // The tools
  // ---------------------------------------------------------------------

  datatype Subagent = Subagent(
    id: string,
    taskType: Option<Json>,
    capabilities: Json,
    config: Json,
    status: string)

  /** One entry of `orchestrate_tasks`: `None` for the generated
      `task_<time>` identifier. */
  datatype TaskReport = TaskReport(taskId: Option<Json>, description: Json, status: string)

  datatype ToolResult =
    | SubagentCreated(subagentId: string, taskType: Option<Json>, capabilities: Json)
    | TasksOrchestrated(executedTasks: nat, parallelExecution: Json, results: seq<TaskReport>)
    | Delegated(task: Option<Json>, delegatedTo: Json, priority: Json, status: string)
    | CapabilityExecuted(tool: string, args: Json, capabilityRecognized: bool)
    | ToolFailed(tool: string, error: string, args: Json)

  /** `createSubagent`: destructure the arguments with their defaults. */
  function NewSubagent(args: Json, id: string): Result<Subagent, string> {
    var taskType := Prop(Some(args), "task_type");
    if taskType.Err? then Err(taskType.error)
    else
      var caps := Prop(Some(args), "capabilities").value;
      var config := Prop(Some(args), "config").value;
      Ok(Subagent(id, taskType.value, OrDefault(caps, JArr([])), OrDefault(config, JObj(map[])), "active"))
  }

  /** The subagent: it fails only for `null` arguments; the task type is
      the argument as given, and capabilities and configuration default to
      an empty list and object only when absent. */
  lemma NewSubagentSpec(args: Json, id: string)
    ensures NewSubagent(args, id).Err? <==> args.JNull?
    ensures args.JObj? ==>
      var s := NewSubagent(args, id).value;
      && s.id == id && s.status == "active"
      && s.taskType == (if "task_type" in args.fields then Some(args.fields["task_type"]) else None)
      && s.capabilities == (if "capabilities" in args.fields then args.fields["capabilities"] else JArr([]))
      && s.config == (if "config" in args.fields then args.fields["config"] else JObj(map[]))
  {
  }

  /** One task of `orchestrateTasks`: a `null` task raises; the id and the
      description are taken when truthy. */
  function Report(task: Json): Result<TaskReport, string> {
    var id := Prop(Some(task), "id");
    if id.Err? then Err(id.error)
    else
      var description := Prop(Some(task), "description").value;
      Ok(TaskReport(if id.value.Some? && JsTruthy(id.value.value) then id.value else None,
                    OrElse(description, JStr("No description")),
                    "completed"))
  }

  /** The values `for (const task of tasks)` visits after `tasks.length`
      is read: an array's items, a string's characters; `undefined` and
      `null` raise on `.length`, any other value is not iterable. */
  function TaskItems(tasks: Option<Json>): Result<seq<Json>, string> {
    match tasks
    case Some(JArr(items)) => Ok(items)
    case Some(JStr(s)) => Ok(seq(|s|, i requires 0 <= i < |s| => JStr([s[i]])))
    case _ => Err(TypeError)
  }

  /** The reports of the tasks in order, or the first failure. */
  function Reports(items: seq<Json>): Result<seq<TaskReport>, string>
  {
    if items == [] then Ok([])
    else
      var init := Reports(items[..|items| - 1]);
      if init.Err? then init
      else
        var last := Report(items[|items| - 1]);
        if last.Err? then Err(last.error) else Ok(init.value + [last.value])
  }

  /** Every task is reported, in order, unless one of them is `null`. */
  lemma {:induction false} ReportsSpec(items: seq<Json>)
    ensures Reports(items).Ok? <==> forall i :: 0 <= i < |items| ==> !items[i].JNull?
    ensures Reports(items).Ok? ==>
      |Reports(items).value| == |items|
      && forall i :: 0 <= i < |items| ==> Reports(items).value[i] == Report(items[i]).value
  {
    if items != [] {
      var init := items[..|items| - 1];
      ReportsSpec(init);
      assert forall i :: 0 <= i < |init| ==> init[i] == items[i];
    }
  }

  /** `orchestrateTasks`: one report per task; parallel execution defaults
      to true only when absent. */
  function Orchestrated(args: Json): Result<ToolResult, string> {
    var tasks := Prop(Some(args), "tasks");
    if tasks.Err? then Err(tasks.error)
    else
      var parallel := OrDefault(Prop(Some(args), "parallel").value, JBool(true));
      var items := TaskItems(tasks.value);
      if items.Err? then Err(items.error)
      else
        var reports := Reports(items.value);
        if reports.Err? then Err(reports.error)
        else Ok(TasksOrchestrated(|reports.value|, parallel, reports.value))
  }

  /** The orchestration loop. */
  method OrchestrateTasks(args: Json) returns (r: Result<ToolResult, string>)
    ensures r == Orchestrated(args)
  {
    var tasks := Prop(Some(args), "tasks");
    if tasks.Err? {
      return Err(tasks.error);
    }
    var parallel := OrDefault(Prop(Some(args), "parallel").value, JBool(true));
    var items := TaskItems(tasks.value);
    if items.Err? {
      return Err(items.error);
    }
    var all := items.value;
    var results: seq<TaskReport> := [];
    var i := 0;
    while i < |all|
      invariant 0 <= i <= |all|
      invariant Reports(all[..i]) == Ok(results)
    {
      assert all[..i + 1][..i] == all[..i];
      var result := Report(all[i]);
      if result.Err? {
        ReportsFailed(all, i + 1);
        return Err(result.error);
      }
      results := results + [result.value];
      i := i + 1;
    }
    assert all[..|all|] == all;
    r := Ok(TasksOrchestrated(|results|, parallel, results));
  }

  /** A failure stays a failure as more tasks follow. */
  lemma {:induction false} ReportsFailed(items: seq<Json>, n: nat)
    requires n <= |items|
    requires Reports(items[..n]).Err?
    ensures Reports(items) == Reports(items[..n])
  {
    if n < |items| {
      assert items[..|items| - 1][..n] == items[..n];
      ReportsFailed(items[..|items| - 1], n);
    } else {
      assert items[..n] == items;
    }
  }

  /** With an array of tasks the tool reports each of them in order, and
      fails exactly when one of them is `null`; a string is one task per
      character; a missing, `null` or non-iterable list fails. */
  lemma OrchestratedSpec(args: Json)
    ensures args.JObj? && "tasks" in args.fields && args.fields["tasks"].JArr? ==>
      var items := args.fields["tasks"].items;
      && (Orchestrated(args).Ok? <==> forall i :: 0 <= i < |items| ==> !items[i].JNull?)
      && (Orchestrated(args).Ok? ==>
            var r := Orchestrated(args).value;
            && r.executedTasks == |items| == |r.results|
            && r.parallelExecution == (if "parallel" in args.fields then args.fields["parallel"] else JBool(true))
            && forall i :: 0 <= i < |items| ==> r.results[i] == Report(items[i]).value)
    ensures args.JObj? && "tasks" in args.fields && args.fields["tasks"].JStr? ==>
      Orchestrated(args).Ok? && Orchestrated(args).value.executedTasks == |args.fields["tasks"].s|
    ensures args.JObj? && "tasks" !in args.fields ==> Orchestrated(args).Err?
    ensures args.JObj? && "tasks" in args.fields && !args.fields["tasks"].JArr? && !args.fields["tasks"].JStr? ==>
      Orchestrated(args).Err?
  {
    if args.JObj? && "tasks" in args.fields {
      match args.fields["tasks"]
      case JArr(items) => ReportsSpec(items);
      case JStr(s) =>
        var items := TaskItems(Some(JStr(s))).value;
        ReportsSpec(items);
      case _ =>
    }
  }

  /** `delegateToAgent`: the agent type when truthy, otherwise
      `auto-selected-agent`; the priority defaults to `medium` only when
      absent. */
  function Delegation(args: Json): Result<ToolResult, string> {
    var task := Prop(Some(args), "task");
    if task.Err? then Err(task.error)
    else
      var agentType := Prop(Some(args), "agent_type").value;
      var priority := Prop(Some(args), "priority").value;
      Ok(Delegated(task.value, OrElse(agentType, JStr("auto-selected-agent")),
                   OrDefault(priority, JStr("medium")),
                   "delegated"))
  }

  /** `executeMasterCapability` with a configuration loaded: it always
      succeeds, and recognises exactly the configured capabilities. */
  function CapabilityRun(caps: seq<string>, name: string, args: Json, sanitize: Json -> Json): ToolResult {
    CapabilityExecuted(name, sanitize(args), name in caps)
  }
  /** The delegation fails only for `null` arguments; the agent is the
      given one when truthy and `auto-selected-agent` otherwise (an empty
      name included), and the priority is the given one, even `null`, or
      `medium` when absent. */
  lemma DelegationSpec(args: Json)
    ensures Delegation(args).Err? <==> args.JNull?
    ensures args.JObj? ==>
      var d := Delegation(args).value;
      && d.task == (if "task" in args.fields then Some(args.fields["task"]) else None)
      && (d.delegatedTo == JStr("auto-selected-agent") <==>
            "agent_type" !in args.fields || !JsTruthy(args.fields["agent_type"])
            || args.fields["agent_type"] == JStr("auto-selected-agent"))
      && ("agent_type" in args.fields && JsTruthy(args.fields["agent_type"]) ==> d.delegatedTo == args.fields["agent_type"])
      && d.priority == (if "priority" in args.fields then args.fields["priority"] else JStr("medium"))
      && d.status == "delegated"
  {
  }

  /** The capability tool recognises exactly the configured capabilities,
      and never fails. */
  lemma CapabilityRunSpec(caps: seq<string>, name: string, args: Json, sanitize: Json -> Json)
    ensures CapabilityRun(caps, name, args, sanitize).CapabilityExecuted?
    ensures CapabilityRun(caps, name, args, sanitize).capabilityRecognized <==> name in caps
    ensures CapabilityRun(caps, name, args, sanitize).tool == name
  {
  }

  /** The `switch` of `callTool`: the three management tools by name, and
      any other name as a capability, which needs a loaded configuration.
      A created subagent is returned beside the result. */
  function Dispatch(config: Option<Config>, name: string, args: Json, freshId: string, sanitize: Json -> Json)
    : (Result<ToolResult, string>, Option<Subagent>)
  {
    if name == "create_subagent" then
      match NewSubagent(args, freshId)
      case Ok(sub) => (Ok(SubagentCreated(sub.id, sub.taskType, sub.capabilities)), Some(sub))
      case Err(e) => (Err(e), None)
    else if name == "orchestrate_tasks" then (Orchestrated(args), None)
    else if name == "delegate_to_agent" then (Delegation(args), None)
    else if config.None? then (Err("Master configuration not loaded"), None)
    else (Ok(CapabilityRun(config.value.capabilities, name, args, sanitize)), None)
  }

  /** The `catch` of `callTool`: a failure becomes a failed result naming
      the tool, with the sanitised arguments. */
  function Caught(name: string, args: Json, sanitize: Json -> Json, r: Result<ToolResult, string>): ToolResult {
    match r
    case Ok(t) => t
    case Err(e) => ToolFailed(name, e, sanitize(args))
  }

  // ---------------------------------------------------------------------
  // The server state
  // ---------------------------------------------------------------------

  datatype ServerState = ServerState(
    masterConfig: Option<Config>,
    initialized: bool,
    subagents: map<string, Subagent>,
    activeTasks: map<string, Json>,
    mcpTools: Option<seq<Tool>>)

  /** The state of a new server. */
  const Fresh := ServerState(None, false, map[], map[], None)

  /** What every reachable state satisfies: the configuration and the
      tools are set together, the configuration has capabilities, and an
      initialized server has both. */
  predicate Good(s: ServerState) {
    && (s.masterConfig.Some? <==> s.mcpTools.Some?)
    && (s.mcpTools.Some? ==> s.mcpTools.value == McpTools)
    && (s.masterConfig.Some? ==> s.masterConfig.value.capabilities != [])
    && (s.initialized ==> s.masterConfig.Some?)
  }

  const NotFound := "master.md not found at ./agents/master.md"

  /** The configuration read from the document, `None` when the document
      does not exist. */
  function Parsed(doc: Option<MasterDocument>): Option<Config> {
    match doc
    case None => None
    case Some(d) => Some(ParseMasterMd(d))
  }

  /** Whatever the document, a configuration read from it has
      capabilities. */
  lemma ParsedHasCapabilities(doc: Option<MasterDocument>)
    ensures Parsed(doc).Some? <==> doc.Some?
    ensures Parsed(doc).Some? ==> Parsed(doc).value.capabilities != []
  {
    if doc.Some? {
      ParseMasterMdHasCapabilities(doc.value);
    }
  }

  /** A configuration as the document reader produces it. */
  predicate Readable(read: Option<Config>) {
    read.Some? ==> read.value.capabilities != []
  }

  /** `initialize`, given the configuration read from the document, or
      `None` when the document is missing. */
  function InitStep(s: ServerState, read: Option<Config>): Result<ServerState, string> {
    if s.initialized then Ok(s)
    else
      match read
      case None => Err(NotFound)
      case Some(c) => Ok(s.(masterConfig := Some(c), mcpTools := Some(McpTools), initialized := true))
  }

  /** Initialisation fails exactly when the server is not initialized and
      the document is missing; otherwise the server is initialized, its
      configuration is the one read unless it already was, and it keeps
      its subagents and tasks. Initialising again changes nothing,
      whatever the document then holds. */
  lemma InitStepSpec(s: ServerState, read: Option<Config>, later: Option<Config>)
    requires Good(s)
    ensures InitStep(s, read).Err? <==> !s.initialized && read.None?
    ensures InitStep(s, read).Err? ==> InitStep(s, read).error == NotFound
    ensures InitStep(s, read).Ok? ==>
      var t := InitStep(s, read).value;
      && (Readable(read) ==> Good(t)) && t.initialized
      && t.subagents == s.subagents && t.activeTasks == s.activeTasks
      && t.masterConfig == (if s.initialized then s.masterConfig else read)
      && InitStep(t, later) == Ok(t)
  {
  }

  /** `listTools`: the stored tools, then one per capability. */
  function ListToolsStep(s: ServerState, read: Option<Config>): (Result<seq<Tool>, string>, ServerState) {
    match InitStep(s, read)
    case Err(e) => (Err(e), s)
    case Ok(t) =>
      if t.mcpTools.None? || t.masterConfig.None? then (Err(TypeError), t)
      else (Ok(t.mcpTools.value + CapabilityTools(t.masterConfig.value.capabilities)), t)
  }

  /** Listing fails only when initialisation does; it lists the
      management tools and then the capabilities of the configuration,
      which holds at least one. */
  lemma ListToolsStepSpec(s: ServerState, read: Option<Config>)
    requires Good(s) && Readable(read)
    ensures ListToolsStep(s, read).0.Err? <==> InitStep(s, read).Err?
    ensures ListToolsStep(s, read).0.Ok? ==>
      var t := ListToolsStep(s, read).1;
      var caps := t.masterConfig.value.capabilities;
      && t == InitStep(s, read).value
      && ToolNames(ListToolsStep(s, read).0.value) == McpNames + caps
      && |ListToolsStep(s, read).0.value| > 3
  {
    InitStepSpec(s, read, read);
    if InitStep(s, read).Ok? {
      ListedNames(InitStep(s, read).value.masterConfig.value.capabilities);
    }
  }

  const InvalidName := "Tool name must be a non-empty string"

  /** `!name || typeof name !== 'string'` fails. */
  predicate ValidName(name: Option<Json>) {
    name.Some? && name.value.JStr? && name.value.s != []
  }

  /** `callTool` with the argument sanitiser it calls: initialise, check
      the name, dispatch, and record a created subagent. Initialisation
      and the name check raise; a failing tool is caught. */
  function CallToolStep(s: ServerState, read: Option<Config>, name: Option<Json>, args: Json,
                        freshId: string, sanitize: Json -> Json): (Result<ToolResult, string>, ServerState)
  {
    match InitStep(s, read)
    case Err(e) => (Err(e), s)
    case Ok(t) =>
      if !ValidName(name) then (Err(InvalidName), t)
      else
        var tool := name.value.s;
        var (r, sub) := Dispatch(t.masterConfig, tool, args, freshId, sanitize);
        (Ok(Caught(tool, args, sanitize, r)),
         if sub.Some? then t.(subagents := t.subagents[freshId := sub.value]) else t)
  }

  /** Only a subagent request with readable arguments creates a subagent,
      under the fresh identifier; any other name than the management
      tools runs as a capability once a configuration is loaded. */
  lemma DispatchSpec(config: Option<Config>, name: string, args: Json, freshId: string, sanitize: Json -> Json)
    ensures var (r, sub) := Dispatch(config, name, args, freshId, sanitize);
      && (sub.Some? <==> name == "create_subagent" && !args.JNull?)
      && (sub.Some? ==> sub.value.id == freshId && r.Ok? && r.value == SubagentCreated(freshId, sub.value.taskType, sub.value.capabilities))
      && (name !in McpNames && config.Some? ==>
            r.Ok? && r.value.CapabilityExecuted? && r.value.tool == name
            && (r.value.capabilityRecognized <==> name in config.value.capabilities))
  {
    NewSubagentSpec(args, freshId);
  }

  /** A call raises exactly when initialisation fails or the name is not a
      non-empty string; any tool failure is caught. The state stays good
      and no task is ever recorded. */
  lemma CallToolStepRaises(s: ServerState, read: Option<Config>, name: Option<Json>, args: Json,
                           freshId: string, sanitize: Json -> Json)
    requires Good(s) && Readable(read)
    ensures var (r, s') := CallToolStep(s, read, name, args, freshId, sanitize);
      && Good(s')
      && s'.activeTasks == s.activeTasks
      && (r.Err? <==> InitStep(s, read).Err? || !ValidName(name))
      && (r.Err? && InitStep(s, read).Ok? ==> r.error == InvalidName)
  {
    InitStepSpec(s, read, read);
  }

  /** Once the call runs, a failed result names the tool. Only a created
      subagent changes the state beyond initialisation: it is stored under
      the fresh identifier, so a fresh identifier adds exactly one
      subagent. Any other name than the management tools runs as a
      capability, recognised exactly when configured. */
  lemma CallToolStepOutcome(s: ServerState, read: Option<Config>, name: Option<Json>, args: Json,
                            freshId: string, sanitize: Json -> Json)
    requires Good(s) && Readable(read)
    requires InitStep(s, read).Ok? && ValidName(name)
    ensures var (r, s') := CallToolStep(s, read, name, args, freshId, sanitize);
      var t := InitStep(s, read).value;
      var tool := name.value.s;
      && r.Ok?
      && s'.masterConfig == t.masterConfig && s'.initialized
      && (r.value.ToolFailed? ==> r.value.tool == tool)
      && (tool == "create_subagent" && !args.JNull? ==>
            r.value.SubagentCreated? && r.value.subagentId == freshId
            && freshId in s'.subagents && s'.subagents == t.subagents[freshId := s'.subagents[freshId]]
            && (freshId !in t.subagents ==> |s'.subagents| == |t.subagents| + 1))
      && (tool != "create_subagent" || args.JNull? ==> s'.subagents == t.subagents)
      && (tool !in McpNames ==>
            r.value.CapabilityExecuted?
            && (r.value.capabilityRecognized <==> tool in t.masterConfig.value.capabilities))
  {
    InitStepSpec(s, read, read);
    var t := InitStep(s, read).value;
    DispatchSpec(t.masterConfig, name.value.s, args, freshId, sanitize);
  }

  /** `shutdown`: subagents and tasks are dropped and the server must be
      initialised again; the configuration and the tools stay. */
  function ShutdownStep(s: ServerState): ServerState {
    s.(subagents := map[], activeTasks := map[], initialized := false)
  }

  /** `getStatus`. */
  datatype Status = Status(
    initialized: bool,
    capabilities: nat,
    subagentsActive: nat,
    activeTasks: nat,
    mcpTools: nat,
    version: string)

  function StatusOf(s: ServerState): Status {
    Status(s.initialized,
      if s.masterConfig.Some? then |s.masterConfig.value.capabilities| else 0,
      |s.subagents|, |s.activeTasks|,
      if s.mcpTools.Some? then |s.mcpTools.value| else 0,
      "1.0.0")
  }

  /** A new server reports nothing; after shutdown no subagent or task is
      reported and the next initialisation reads the document again,
      while a server that was initialized keeps reporting its
      capabilities and the three tools. */
  lemma ShutdownSpec(s: ServerState, c: Config)
    requires Good(s)
    ensures StatusOf(Fresh) == Status(false, 0, 0, 0, 0, "1.0.0")
    ensures Good(ShutdownStep(s))
    ensures var st := StatusOf(ShutdownStep(s));
      && !st.initialized && st.subagentsActive == 0 && st.activeTasks == 0
      && (s.masterConfig.Some? ==> st.capabilities > 0 && st.mcpTools == 3)
    ensures InitStep(ShutdownStep(s), Some(c)).Ok?
    ensures InitStep(ShutdownStep(s), Some(c)).value.masterConfig == Some(c)
  {
  }

  /** Right after a successful initialisation the status reports at least
      one capability and the three management tools. */
  lemma StatusAfterInit(s: ServerState, read: Option<Config>)
    requires Good(s) && Readable(read)
    requires InitStep(s, read).Ok?
    ensures var st := StatusOf(InitStep(s, read).value);
      st.initialized && st.capabilities > 0 && st.mcpTools == 3 && st.subagentsActive == |s.subagents|
  {
    InitStepSpec(s, read, read);
  }

  // ---------------------------------------------------------------------
  // The missing argument sanitiser
  // ---------------------------------------------------------------------

  const SanitizeMissing := "TypeError: this.sanitizeArgs is not a function"

  /** `callTool` as written: the sanitiser it calls to log the arguments
      is defined nowhere, so once the name is valid the call raises
      before the `try`, and no tool ever runs. */
  function CallToolAsWritten(s: ServerState, read: Option<Config>, name: Option<Json>, args: Json)
    : (Result<ToolResult, string>, ServerState)
  {
    match InitStep(s, read)
    case Err(e) => (Err(e), s)
    case Ok(t) =>
      if !ValidName(name) then (Err(InvalidName), t)
      else (Err(SanitizeMissing), t)
  }

  /** As written, every call with a valid name raises and creates no
      subagent, where the intended call creates one for a subagent
      request. */
  lemma SanitizeArgsMissing(c: Config, taskType: string, freshId: string, sanitize: Json -> Json)
    ensures var name := Some(JStr("create_subagent"));
      var args := JObj(map["task_type" := JStr(taskType)]);
      && CallToolAsWritten(Fresh, Some(c), name, args).0 == Err(SanitizeMissing)
      && CallToolAsWritten(Fresh, Some(c), name, args).1.subagents == map[]
      && CallToolStep(Fresh, Some(c), name, args, freshId, sanitize).0
           == Ok(SubagentCreated(freshId, Some(JStr(taskType)), JArr([])))
      && |CallToolStep(Fresh, Some(c), name, args, freshId, sanitize).1.subagents| == 1
  {
    var args := JObj(map["task_type" := JStr(taskType)]);
    NewSubagentSpec(args, freshId);
    var t := InitStep(Fresh, Some(c)).value;
    assert t.subagents == map[];
    assert t.subagents[freshId := NewSubagent(args, freshId).value].Keys == {freshId};
  }

  /** As written, a call raises exactly when a tool would otherwise run or
      a check fails: never with a result. */
  lemma CallToolAsWrittenNeverReturns(s: ServerState, read: Option<Config>, name: Option<Json>, args: Json)
    requires Good(s)
    ensures CallToolAsWritten(s, read, name, args).0.Err?
    ensures InitStep(s, read).Ok? && ValidName(name) ==>
      CallToolAsWritten(s, read, name, args) == (Err(SanitizeMissing), InitStep(s, read).value)
  {
  }

  // ---------------------------------------------------------------------
  // Requests on standard input
  // ---------------------------------------------------------------------

  /** What `handleRequest` writes: a result or a JSON-RPC error. */
  datatype Reply =
    | ToolsListed(tools: seq<Tool>)
    | ToolCalled(result: ToolResult)
    | RpcError(code: int, message: string)

  const MethodNotFound := -32601
  const InternalError := -32603

  /** `handleRequest`: anything raised becomes an internal error. */
  function HandleStep(s: ServerState, read: Option<Config>, request: Json, freshId: string, sanitize: Json -> Json)
    : (Reply, ServerState)
  {
    var rpcMethod := Prop(Some(request), "method");
    if rpcMethod.Err? then (RpcError(InternalError, rpcMethod.error), s)
    else if rpcMethod.value == Some(JStr("tools/list")) then
      var (r, t) := ListToolsStep(s, read);
      (if r.Ok? then ToolsListed(r.value) else RpcError(InternalError, r.error), t)
    else if rpcMethod.value == Some(JStr("tools/call")) then
      var params := Prop(Some(request), "params").value;
      var name := Prop(params, "name");
      if name.Err? then (RpcError(InternalError, name.error), s)
      else
        var args := OrDefault(Prop(params, "arguments").value, JObj(map[]));
        var (r, t) := CallToolStep(s, read, name.value, args, freshId, sanitize);
        (if r.Ok? then ToolCalled(r.value) else RpcError(InternalError, r.error), t)
    else (RpcError(MethodNotFound, "Method not found"), s)
  }

  /** Handling a request keeps the state good. */
  lemma HandleStepKeepsGood(s: ServerState, read: Option<Config>, request: Json, freshId: string, sanitize: Json -> Json)
    requires Good(s) && Readable(read)
    ensures Good(HandleStep(s, read, request, freshId, sanitize).1)
  {
    InitStepSpec(s, read, read);
    var p := Prop(Some(request), "params");
    if p.Ok? {
      var name := Prop(p.value, "name");
      if name.Ok? {
        var args := OrDefault(Prop(p.value, "arguments").value, JObj(map[]));
        CallToolStepRaises(s, read, name.value, args, freshId, sanitize);
      }
    }
  }

  /** Every error is one of the two codes. An unknown method, or a request
      that is not an object, gives "method not found" and changes
      nothing, except `null`, which is an internal error. */
  lemma HandleStepCodes(s: ServerState, read: Option<Config>, request: Json, freshId: string, sanitize: Json -> Json)
    ensures var (reply, s') := HandleStep(s, read, request, freshId, sanitize);
      && (reply.RpcError? ==> reply.code == MethodNotFound || reply.code == InternalError)
      && (request.JNull? ==> reply.RpcError? && reply.code == InternalError && s' == s)
      && (reply.RpcError? && reply.code == MethodNotFound <==>
            !request.JNull?
            && !(request.JObj? && "method" in request.fields
                 && (request.fields["method"] == JStr("tools/list") || request.fields["method"] == JStr("tools/call"))))
      && (reply.RpcError? && reply.code == MethodNotFound ==> s' == s)
  {
  }

  /** A listing request is answered exactly when initialisation succeeds,
      with the management tools and then the capabilities. */
  lemma HandleStepList(s: ServerState, read: Option<Config>, request: Json, freshId: string, sanitize: Json -> Json)
    requires Good(s) && Readable(read)
    requires request.JObj? && "method" in request.fields && request.fields["method"] == JStr("tools/list")
    ensures var (reply, s') := HandleStep(s, read, request, freshId, sanitize);
      && (reply.ToolsListed? <==> InitStep(s, read).Ok?)
      && (reply.ToolsListed? ==> ToolNames(reply.tools) == McpNames + s'.masterConfig.value.capabilities)
  {
    ListToolsStepSpec(s, read);
  }

  /** A call request without `params` is an internal error that changes
      nothing. */
  lemma HandleStepCallWithoutParams(s: ServerState, read: Option<Config>, request: Json, freshId: string, sanitize: Json -> Json)
    requires request.JObj? && "method" in request.fields && request.fields["method"] == JStr("tools/call")
    requires "params" !in request.fields || request.fields["params"].JNull?
    ensures HandleStep(s, read, request, freshId, sanitize) == (RpcError(InternalError, TypeError), s)
  {
  }

  /** A call request is answered exactly when the call returns, with
      missing arguments read as an empty object. */
  lemma HandleStepCall(s: ServerState, read: Option<Config>, request: Json, freshId: string, sanitize: Json -> Json)
    requires Good(s) && Readable(read)
    requires request.JObj? && "method" in request.fields && request.fields["method"] == JStr("tools/call")
    requires "params" in request.fields && request.fields["params"].JObj?
    ensures var (reply, s') := HandleStep(s, read, request, freshId, sanitize);
      var p := request.fields["params"].fields;
      var name := if "name" in p then Some(p["name"]) else None;
      var args := if "arguments" in p then p["arguments"] else JObj(map[]);
      var (r, t) := CallToolStep(s, read, name, args, freshId, sanitize);
      && (reply.ToolCalled? <==> InitStep(s, read).Ok? && ValidName(name))
      && s' == t
      && (reply.ToolCalled? ==> reply.result == r.value)
  {
    var p := request.fields["params"].fields;
    var name := if "name" in p then Some(p["name"]) else None;
    var args := if "arguments" in p then p["arguments"] else JObj(map[]);
    CallToolStepRaises(s, read, name, args, freshId, sanitize);
  }

  /** One complete line of the fallback mode: a line that is not JSON is
      only logged; any other is handled as a request. */
  function ServeLine(s: ServerState, read: Option<Config>, line: string, parse: string -> Option<Json>,
                     freshId: string, sanitize: Json -> Json): (Option<Reply>, ServerState)
  {
    match parse(line)
    case None => (None, s)
    case Some(request) =>
      var (reply, t) := HandleStep(s, read, request, freshId, sanitize);
      (Some(reply), t)
  }

  /** An unparsable line is only logged and changes nothing; a parsed line
      is answered as `handleRequest` answers it, which keeps a good state
      good. */
  lemma ServeLineSpec(s: ServerState, read: Option<Config>, line: string, parse: string -> Option<Json>,
                      freshId: string, sanitize: Json -> Json)
    ensures parse(line).None? ==> ServeLine(s, read, line, parse, freshId, sanitize) == (None, s)
    ensures parse(line).Some? ==>
      var (reply, t) := HandleStep(s, read, parse(line).value, freshId, sanitize);
      ServeLine(s, read, line, parse, freshId, sanitize) == (Some(reply), t)
    ensures Good(s) && Readable(read) ==> Good(ServeLine(s, read, line, parse, freshId, sanitize).1)
  {
    if parse(line).Some? && Good(s) && Readable(read) {
      HandleStepKeepsGood(s, read, parse(line).value, freshId, sanitize);
    }
  }

  // ---------------------------------------------------------------------
  // The server objects
  // ---------------------------------------------------------------------

  /** `MasterMCPServer`. */
  class MasterMCPServer {
    var masterConfig: Option<Config>
    var initialized: bool
    var subagents: map<string, Subagent>
    var activeTasks: map<string, Json>
    var mcpTools: Option<seq<Tool>>

    function State(): ServerState
      reads this
    {
      ServerState(masterConfig, initialized, subagents, activeTasks, mcpTools)
    }

    constructor()
      ensures State() == Fresh
    {
      masterConfig := None;
      initialized := false;
      subagents := map[];
      activeTasks := map[];
      mcpTools := None;
    }

    /** `read` is the configuration read from the document (`Parsed`),
        `None` when the document does not exist. */
    method Initialize(read: Option<Config>) returns (err: Option<string>)
      modifies this
      ensures InitStep(old(State()), read).Ok? ==>
        err.None? && State() == InitStep(old(State()), read).value
      ensures InitStep(old(State()), read).Err? ==>
        err == Some(NotFound) && State() == old(State())
    {
      if initialized {
        return None;
      }
      if read.None? {
        return Some(NotFound);
      }
      masterConfig := read;
      InitializeMCPServer();
      initialized := true;
      err := None;
    }

    method InitializeMCPServer()
      modifies this`mcpTools
      ensures mcpTools == Some(McpTools)
    {
      mcpTools := Some(McpTools);
    }

    method ListTools(read: Option<Config>) returns (r: Result<seq<Tool>, string>)
      modifies this
      ensures (r, State()) == ListToolsStep(old(State()), read)
    {
      var err := Initialize(read);
      if err.Some? {
        return Err(err.value);
      }
      if mcpTools.None? || masterConfig.None? {
        return Err(TypeError);
      }
      var tools := mcpTools.value;
      var caps := masterConfig.value.capabilities;
      var i := 0;
      while i < |caps|
        invariant 0 <= i <= |caps|
        invariant tools == mcpTools.value + CapabilityTools(caps[..i])
      {
        assert CapabilityTools(caps[..i + 1]) == CapabilityTools(caps[..i]) + [CapabilityTool(caps[i])];
        tools := tools + [CapabilityTool(caps[i])];
        i := i + 1;
      }
      assert caps[..|caps|] == caps;
      r := Ok(tools);
    }

    /** `createSubagent`: the subagent is stored under its identifier. */
    method CreateSubagent(args: Json, freshId: string) returns (r: Result<ToolResult, string>)
      modifies this`subagents
      ensures NewSubagent(args, freshId).Err? ==>
        r == Err(NewSubagent(args, freshId).error) && subagents == old(subagents)
      ensures NewSubagent(args, freshId).Ok? ==>
        var sub := NewSubagent(args, freshId).value;
        r == Ok(SubagentCreated(sub.id, sub.taskType, sub.capabilities))
        && subagents == old(subagents)[freshId := sub]
    {
      var sub := NewSubagent(args, freshId);
      if sub.Err? {
        return Err(sub.error);
      }
      subagents := subagents[freshId := sub.value];
      r := Ok(SubagentCreated(sub.value.id, sub.value.taskType, sub.value.capabilities));
    }

    method ExecuteMasterCapability(name: string, args: Json, sanitize: Json -> Json) returns (r: Result<ToolResult, string>)
      ensures masterConfig.None? ==> r == Err("Master configuration not loaded")
      ensures masterConfig.Some? ==> r == Ok(CapabilityRun(masterConfig.value.capabilities, name, args, sanitize))
    {
      if masterConfig.None? {
        return Err("Master configuration not loaded");
      }
      r := Ok(CapabilityRun(masterConfig.value.capabilities, name, args, sanitize));
    }

    /** `callTool`, with the argument sanitiser it needs. */
    method CallTool(read: Option<Config>, name: Option<Json>, args: Json, freshId: string, sanitize: Json -> Json)
      returns (r: Result<ToolResult, string>)
      modifies this
      ensures (r, State()) == CallToolStep(old(State()), read, name, args, freshId, sanitize)
    {
      var err := Initialize(read);
      if err.Some? {
        return Err(err.value);
      }
      if !ValidName(name) {
        return Err(InvalidName);
      }
      var tool := name.value.s;
      var outcome: Result<ToolResult, string>;
      if tool == "create_subagent" {
        outcome := CreateSubagent(args, freshId);
      } else if tool == "orchestrate_tasks" {
        outcome := OrchestrateTasks(args);
      } else if tool == "delegate_to_agent" {
        outcome := Delegation(args);
      } else {
        outcome := ExecuteMasterCapability(tool, args, sanitize);
      }
      r := Ok(Caught(tool, args, sanitize, outcome));
    }

    method Shutdown()
      modifies this
      ensures State() == ShutdownStep(old(State()))
    {
      subagents := map[];
      activeTasks := map[];
      initialized := false;
    }

    function GetStatus(): Status
      reads this
    {
      StatusOf(State())
    }
  }

  /** `MCPServerWrapper` in its fallback mode. */
  class ServerWrapper {
    const masterServer: MasterMCPServer

    constructor()
      ensures fresh(masterServer) && masterServer.State() == Fresh
    {
      masterServer := new MasterMCPServer();
    }

    method HandleRequest(read: Option<Config>, request: Json, freshId: string, sanitize: Json -> Json)
      returns (reply: Reply)
      modifies masterServer
      ensures (reply, masterServer.State()) == HandleStep(old(masterServer.State()), read, request, freshId, sanitize)
    {
      var rpcMethod := Prop(Some(request), "method");
      if rpcMethod.Err? {
        return RpcError(InternalError, rpcMethod.error);
      }
      if rpcMethod.value == Some(JStr("tools/list")) {
        var r := masterServer.ListTools(read);
        reply := if r.Ok? then ToolsListed(r.value) else RpcError(InternalError, r.error);
      } else if rpcMethod.value == Some(JStr("tools/call")) {
        var params := Prop(Some(request), "params").value;
        var name := Prop(params, "name");
        if name.Err? {
          return RpcError(InternalError, name.error);
        }
        var args := OrDefault(Prop(params, "arguments").value, JObj(map[]));
        var r := masterServer.CallTool(read, name.value, args, freshId, sanitize);
        reply := if r.Ok? then ToolCalled(r.value) else RpcError(InternalError, r.error);
      } else {
        reply := RpcError(MethodNotFound, "Method not found");
      }
    }
  }
}
