# subagent-master in Dafny

A model of the decision core of subagent-master, an orchestration system
that reads a task description, decides whether it is ambiguous, picks and
ranks agents and tools for it, runs work in parallel and gathers the
results, classifies and recovers from errors, keeps its configuration,
and exposes a master agent as an MCP server over standard input.

Each core source file becomes one Dafny module:

| module | source |
|---|---|
| `Classification` | `src/error_handling/classification.py` |
| `McpTools` | `src/mcp/intelligent_tools.py` |
| `Clarification` | `src/interactive/clarification.py` |
| `Distribution`, `DistributionExamples` | `src/delegation/enhanced_distribution.py` |
| `Ranking`, `Scoring` | `src/agent_matrix/enhanced_scoring.py` |
| `Compatibility` | `src/agent_matrix/enhanced_compatibility.py` |
| `Synchronization` | `src/parallel/synchronization.py` |
| `Coordination` | `src/parallel/coordination.py` |
| `Recovery` | `src/error_handling/recovery.py` |
| `ErrorDelegation` | `src/error_handling/delegation.py` |
| `Monitoring` | `src/utils/monitoring.py` |
| `Performance` | `src/utils/performance.py` |
| `ConfigLoader` | `src/configuration/loader.py` |
| `MasterConfig`, `MasterServer`, `StdioFraming` | `agents/master.js` |

`Text` holds the string operations the sources take from their languages'
libraries (lower-casing, `strip`/`trim`, `split`, substring search,
tokenising) and `Values` the dynamic values they pass around (a JSON-like
value, `Option`, `Result`, Python truthiness and `dict.get`).

Pure rule tables (keyword families, strategy tables) are functions over
datatypes; loops that accumulate become methods proved against a
specification function; objects whose fields change (the configuration
loader, the performance monitor, the MCP server, the stdin line reader)
become classes whose methods state their new state as a function of the
old one, and the properties are proved about those functions.

## Model

| member | source | states |
|---|---|---|
| Classification.ClassifyError | src/error_handling/classification.py:44-66 | A missing context becomes the empty dict; an error is unrecoverable exactly when its category is not network, timeout or agent and its type is `MemoryError` or `SystemError`. |
| Classification.CategoryOrder | src/error_handling/classification.py:69-100 | Each category is chosen exactly when its keyword family occurs in the lower-cased message and no earlier family does; `timeout` decides between the timeout and network categories. |
| Classification.TimeoutWins | src/error_handling/classification.py:77-80 | A message mentioning a timeout is a recoverable timeout error, whose plan is to raise the timeout by 1.5 up to 300. |
| Classification.SeverityOrder | src/error_handling/classification.py:103-121 | Critical message words decide first; otherwise the type name alone gives high, medium or low severity, never critical. |
| Classification.FailFastExactly | src/error_handling/classification.py:124-142 | Only a `MemoryError` or `SystemError` outside the network, timeout and agent categories fails fast. |
| Classification.StrategyTable | src/error_handling/classification.py:145-188 | Each recoverable category gets the plan named after it with the source's constants (3 retries, timeout cap 300, 2 fallbacks, validation after reload); untabled categories get `generic_retry`. |
| McpTools.IsMcpTaskFirstMatch | src/mcp/intelligent_tools.py:7-22 | The reported family is the first, in declaration order, whose pattern occurs in the lower-cased text. |
| McpTools.FindFileIsSearch | src/mcp/intelligent_tools.py:9-20 | Text mentioning "find file" is always search/research, because `find` belongs to an earlier family. |
| McpTools.AnalyzeTaskCharacteristics | src/mcp/intelligent_tools.py:96-120 | No secondary type is ever recorded. |
| McpTools.CreateMcpExecutionPlan | src/mcp/intelligent_tools.py:123-135 | The plan is one step carrying the task description under `task`, with the primary tool and no `use_result`. |
| McpTools.IntelligentMcpToolSelection | src/mcp/intelligent_tools.py:25-46 | The primary tool is the one mapped to the first matching task type, there are no secondary tools, and the plan is built from them. |
| McpTools.SynthesizeMcpResults | src/mcp/intelligent_tools.py:85-92 | The synthesis is a success that combines every result and counts them. |
| McpTools.PassResult | src/mcp/intelligent_tools.py:69-73 | Passing a result on sets `context` in the next step's parameters and changes no other step. |
| McpTools.PyIndex | src/mcp/intelligent_tools.py:70 | A Python index is valid exactly when it lies in `-n .. n-1`, and then names a position. |
| McpTools.ExecuteMcpToolChain | src/mcp/intelligent_tools.py:49-82 | The loop computes the chain specification; a successful chain counts exactly the results it holds. |
| McpTools.ChainResultsFromSteps | src/mcp/intelligent_tools.py:56-82 | A failed chain fails at some step `j` and keeps the results it started with; every further result it reports is named by a step before `j`, or by `j` itself only when that step ran and its `use_result` index was out of range. A successful chain holds a result for every step name. |
| McpTools.GeneratedPlanFails | src/mcp/intelligent_tools.py:25-82 | The generated plan's single step reads a parameter the plan does not carry (or has no tool), so the chain fails at its first step with nothing gathered. |
| McpTools.ExecuteWithMcpTools | src/mcp/intelligent_tools.py:185-194 | Non-MCP tasks are refused, MCP tasks run the selected plan, and the result is never a success. |
| McpTools.McpExecutionNeverSucceeds | src/mcp/intelligent_tools.py:185-194 | `execute_with_mcp_tools` never succeeds, and refuses exactly the non-MCP tasks. |
| Clarification.Contribution | src/interactive/clarification.py:66-74 | A family's matches add between 0 and 0.4 per match, and a family with any other name adds nothing. |
| Clarification.MatchCount | src/interactive/clarification.py:64-65 | Each listed keyword counts at most once. |
| Clarification.CalculateAmbiguityScore | src/interactive/clarification.py:59-76 | The loop computes the specification score, which lies between 0 and 1. |
| Clarification.AmbiguityScore | src/interactive/clarification.py:59-76 | The score is capped into `0 .. 1`. |
| Clarification.ScoreMonotone | src/interactive/clarification.py:59-76 | A text that holds every keyword another holds never scores lower. |
| Clarification.ExtendingNeverLowers | src/interactive/clarification.py:59-76 | Adding text around a description never lowers its score. |
| Clarification.ScoreOfIndicators | src/interactive/clarification.py:9-16 | With the built-in families the score is 0.3·hedges + 0.4·missing + 0.2·approaches + 0.3·scope, capped at 1. |
| Clarification.RawScoreAtMost | src/interactive/clarification.py:59-76 | The uncapped score is at most 0.4 per keyword found. |
| Clarification.ClarificationNeedsSeveralKeywords | src/interactive/clarification.py:7-21 | Clarification needs at least two keywords, and at least three when the complexity is below 3. |
| Clarification.DetectTaskTypeOrder | src/interactive/clarification.py:79-92 | A development word decides the type whatever else occurs; the type is general exactly when no family's word occurs. |
| Clarification.GenerateContextualQuestions | src/interactive/clarification.py:24-56 | Always four questions: the template of the detected type, or the general questions when it has none. |
| Clarification.Template | src/interactive/clarification.py:28-53 | Exactly the four specific types have a template, each of four questions. |
| Clarification.ProcessUserResponses | src/interactive/clarification.py:105-108 | The context comes back unchanged. |
| Clarification.RefineTaskUnderstanding | src/interactive/clarification.py:111-113 | The context comes back unchanged. |
| Distribution.AnalyzeTaskComplexity | src/delegation/enhanced_distribution.py:35-52 | The complexity is always one of 1, 2, 3, 4. |
| Distribution.ComplexityTiers | src/delegation/enhanced_distribution.py:44-52 | Each complexity is returned exactly when its indicator tier is the first, in the order simple, complexity, complex, to occur in the lower-cased text; 2 exactly when none does. |
| Distribution.SimpleIndicatorWins | src/delegation/enhanced_distribution.py:45-46 | Appending any simple indicator to any description makes it a complexity-1 task. |
| Distribution.RoutingOrder | src/delegation/enhanced_distribution.py:10-32 | Clarification is asked for exactly when the clarification rule holds, and carries the computed complexity; otherwise a complexity-1 MCP task goes to the MCP tools, another complexity-1 task to one agent, and every other task is delegated. |
| Distribution.SimpleTasksStayLocal | src/delegation/enhanced_distribution.py:10-32 | A task with a simple indicator is never delegated, is sent back for clarification only with three or more ambiguity keywords, and never succeeds on the MCP path. |
| Distribution.SelectBestAgentForTask | src/delegation/enhanced_distribution.py:165-168 | No agent exactly when none is available; otherwise the first available one. |
| Distribution.SelectAgentsForTask | src/delegation/enhanced_distribution.py:171-174 | The first `min(2, n)` available agents, in order. |
| Distribution.ExecuteWithTaskDelegation | src/delegation/enhanced_distribution.py:71-85 | Delegation always requires coordination, uses at most two available agents, and runs in parallel exactly when it uses more than one. |
| Distribution.ValidateAgentAvailability | src/delegation/enhanced_distribution.py:88-102 | The loop computes the validated list, which is never longer than the selection. |
| Distribution.ValidatedAgentsAppend | src/delegation/enhanced_distribution.py:93-101 | Validation treats each selected agent on its own: validating a concatenation concatenates the validations. |
| Distribution.AllAvailableUnchanged | src/delegation/enhanced_distribution.py:93-95 | When every selected agent is available the selection comes back unchanged. |
| Distribution.ValidatedAgentsFrom | src/delegation/enhanced_distribution.py:93-101 | Every returned agent is an available selected agent or the non-empty alternative of an unavailable one. |
| DistributionExamples.FixBugGoesToSingleAgent | src/delegation/enhanced_distribution.py:10-52 | "Fix simple bug in function" has complexity 1, no ambiguity and no MCP family, so it goes to a single agent. |
| DistributionExamples.FixBugHasNoAmbiguity | src/interactive/clarification.py:59-76 | "Fix simple bug in function" scores 0 for ambiguity. |
| DistributionExamples.FixBugIsNoMcpTask | src/mcp/intelligent_tools.py:7-22 | "Fix simple bug in function" matches no MCP family. |
| DistributionExamples.AuthenticationIsDelegated | src/delegation/enhanced_distribution.py:10-52 | "Implement authentication system" has complexity 3 and no ambiguity, so it is delegated. |
| DistributionExamples.AuthenticationComplexity | src/delegation/enhanced_distribution.py:44-48 | "Implement authentication system" has complexity 3. |
| DistributionExamples.AuthenticationHasNoAmbiguity | src/interactive/clarification.py:59-76 | "Implement authentication system" scores 0 for ambiguity. |
| DistributionExamples.HedgedRequestIsNotClarified | src/interactive/clarification.py:7-21 | "Maybe we could improve the system somehow", of complexity 3 with one hedge ("maybe"), scores 0.3 and is not sent back for clarification. |
| DistributionExamples.HedgedRequestScore | src/interactive/clarification.py:59-76 | "Maybe we could improve the system somehow" scores exactly 0.3. |
| DistributionExamples.HedgedRequestComplexity | src/delegation/enhanced_distribution.py:44-48 | "Maybe we could improve the system somehow" has complexity 3. |
| Ranking.InsertByKeeps | src/agent_matrix/enhanced_scoring.py:41 | Inserting into a sorted sequence keeps it sorted and adds exactly the element. |
| Ranking.SortByCorrect | src/agent_matrix/enhanced_scoring.py:41 | The sort is ascending in the key, a permutation of its input, and stable: the elements sharing any one key keep their input order. |
| Ranking.SortDescByCorrect | src/agent_matrix/enhanced_scoring.py:41 | `sorted(..., reverse=True)` is descending in the key, a permutation of its input, and stable: tied elements keep their input order, which decides the head among equally scored agents. |
| Ranking.SortDescHeadIsMax | src/agent_matrix/enhanced_scoring.py:41-46 | The head of the descending sort is an input element with the largest key. |
| Ranking.Take | src/agent_matrix/enhanced_scoring.py:145 | A slice `[:n]` is a prefix of length `min(n, len)`. |
| Ranking.TopOfSortDesc | src/agent_matrix/enhanced_scoring.py:141-145 | The first `n` of the descending sort are descending, drawn from the input, and no element left out has a larger key than one kept. |
| Ranking.SortBySorted | src/agent_matrix/enhanced_scoring.py:41 | Sorting a sorted sequence leaves it unchanged. |
| Scoring.HybridScoringSystem | src/agent_matrix/enhanced_scoring.py:7-15 | The result reports the three inputs and the rationale for them. |
| Scoring.HybridWithinInputs | src/agent_matrix/enhanced_scoring.py:7-15 | The weights sum to one: the blend lies between the smallest and largest input, so inputs in `0 .. 1` blend into `0 .. 1`. |
| Scoring.HybridMonotone | src/agent_matrix/enhanced_scoring.py:7-15 | Raising an input never lowers the blend; a TF-IDF gain of d raises it by exactly 0.3·d. |
| Scoring.SelectionRationale | src/agent_matrix/enhanced_scoring.py:75-95 | At most three phrases. |
| Scoring.RationaleTiers | src/agent_matrix/enhanced_scoring.py:75-95 | Each phrase appears exactly when its factor clears its threshold (strong above the higher one, moderate between), no phrase twice, and the default sentence exactly when no factor clears its lower threshold. |
| Scoring.PutShape | src/agent_matrix/enhanced_scoring.py:38 | Setting a dict entry adds the key, grows the dict only for a new key, holds the new pair and keeps the other pairs. |
| Scoring.KeysOfEntries | src/agent_matrix/enhanced_scoring.py:41 | A key is present exactly when some item carries it. |
| Scoring.KeysOfReordered | src/agent_matrix/enhanced_scoring.py:41 | Reordering the items keeps the key set. |
| Scoring.CombineScores | src/agent_matrix/enhanced_scoring.py:30-38 | The loop computes the `final_scores` specification. |
| Scoring.FinalScoresPerName | src/agent_matrix/enhanced_scoring.py:30-38 | One entry per distinct agent name, each holding the blend of that name's three scores (0 for a missing score). |
| Scoring.MaxScore | src/agent_matrix/enhanced_scoring.py:45 | The maximum is attained by some entry and bounds every entry. |
| Scoring.StubScores | src/agent_matrix/enhanced_scoring.py:98-117 | The stub scorers give every agent name a score. |
| Scoring.SelectionRanksBestFirst | src/agent_matrix/enhanced_scoring.py:18-47 | Selection fails exactly when there are no agents (empty `max`); otherwise agents are ranked best first, one per name, the recommendation is the head and the confidence its score. |
| Scoring.StubScoresFollowTfidf | src/agent_matrix/enhanced_scoring.py:18-38 | With the stub scorers every blend is 0.51 + 0.3·tfidf, so the ranking follows TF-IDF relevance alone. |
| Scoring.RequirementsFromKeywordsAndTerms | src/agent_matrix/enhanced_scoring.py:120-138 | A common keyword is required exactly when the description holds it or it is an extracted term; nothing else is required but the terms. |
| Scoring.MatchAgainstSplits | src/agent_matrix/enhanced_scoring.py:54-69 | Matched and missing partition the requirements, the additional capabilities lie outside them, and the score is 0 exactly when nothing matched and 1 exactly when nothing is missing. |
| Scoring.CalculateCapabilityMatches | src/agent_matrix/enhanced_scoring.py:50-71 | The loop computes the capability-match specification. |
| Scoring.CapabilityMatchesPartition | src/agent_matrix/enhanced_scoring.py:50-71 | Every agent name gets an entry, and every entry partitions the requirements as above. |
| Scoring.SelectTopCandidates | src/agent_matrix/enhanced_scoring.py:141-145 | `min(3, n)` candidates. |
| Scoring.TopCandidatesAreBest | src/agent_matrix/enhanced_scoring.py:141-145 | The candidates are best first, drawn from the matrix, and no entry left out beats a chosen one. |
| Compatibility.ExtractKeywordsFromTask | src/agent_matrix/enhanced_compatibility.py:152-155 | The lower-cased description, of the same length. |
| Compatibility.JaccardProperties | src/agent_matrix/enhanced_compatibility.py:116-124 | The overlap score lies in `0 .. 1`, is symmetric, is 1 exactly for equal non-empty sets and 0 exactly for disjoint ones. |
| Compatibility.AsWrittenIgnoresWholeWords | src/agent_matrix/enhanced_compatibility.py:110 | As written, an agent without one-character keywords scores 0 against every task. |
| Compatibility.SameWordScoresZeroAsWritten | src/agent_matrix/enhanced_compatibility.py:110 | The task "api" against an agent whose capability is "api" scores 0 as written and 1 as intended. |
| Compatibility.SimpleKeywordMatching | src/agent_matrix/enhanced_compatibility.py:108-126 | The loop computes the keyword-match specification, with the task side taken as written (its characters) or as intended (its words). |
| Compatibility.KeywordMatchesCoverAgents | src/agent_matrix/enhanced_compatibility.py:108-126 | Under either task side, every agent name gets an entry, each the score of an agent of that name, with the last agent of a name winning. |
| Compatibility.KeywordMatchesInUnitRange | src/agent_matrix/enhanced_compatibility.py:108-126 | Under either task side, every keyword score lies in `0 .. 1`. |
| Compatibility.FallbackScoresEveryAgent | src/agent_matrix/enhanced_compatibility.py:76-105 | When the vector-space computation fails, the fallback as written (task characters against agent words) still gives every agent a score in `0 .. 1`. |
| Compatibility.FallbackSameWordScoresZero | src/agent_matrix/enhanced_compatibility.py:102-110 | The fallback inherits line 110: the task "api" scores 0 against an agent whose capability is "api", where word matching scores 1. |
| Compatibility.AdjustmentRule | src/agent_matrix/enhanced_compatibility.py:136-148 | The weight change is −0.1 exactly for poor performance or relevance, +0.05 exactly for an excellent pair, 0 otherwise, with missing feedback counted as 0.5. |
| Compatibility.AdjustmentsBounded | src/agent_matrix/enhanced_compatibility.py:133-148 | At most one adjustment per history entry, each −0.1 or +0.05 for a category named in the history. |
| Compatibility.EvolveCategories | src/agent_matrix/enhanced_compatibility.py:129-148 | The loop issues exactly the specified adjustments, in order. |
| Compatibility.EvolveCategoriesWithExecutionFeedback | src/agent_matrix/enhanced_compatibility.py:129-161 | With the current (empty) history nothing is adjusted. |
| Synchronization.CompletionAndFailure | src/parallel/synchronization.py:63-76 | `None` is neither complete nor failed, a non-dict value is complete and never failed, and a dict is both exactly when its status is `completed` and it carries an error. |
| Synchronization.SynchronizeParallelResults | src/parallel/synchronization.py:23-60 | The polling loop computes the synchronization outcome for the passes that fit before the deadline. |
| Synchronization.SweepPass | src/parallel/synchronization.py:40-51 | One pass of the inner loop computes the pass specification. |
| Synchronization.CompletedMembers | src/parallel/synchronization.py:43-45 | The collected results are exactly the completed tasks, with their own values. |
| Synchronization.FailedAmongMembers | src/parallel/synchronization.py:46-47 | The failures collected in a pass are exactly the failed tasks that are not complete. |
| Synchronization.SweepAsWritten | src/parallel/synchronization.py:40-51 | As written, a pass records every completed task and appends every failed task again, whatever was recorded before. |
| Synchronization.StepAsWritten | src/parallel/synchronization.py:43-47 | One as-written step adds a completed task's result or appends a failed task's id. |
| Synchronization.SweepRepeatsFailures | src/parallel/synchronization.py:40-51 | A pass on a state holding the completed results and k copies of the failures gives one more copy. |
| Synchronization.PollAsWritten | src/parallel/synchronization.py:40-53 | As written, after any number of passes the failures are recorded once per pass run. |
| Synchronization.Repeat | src/parallel/synchronization.py:46-47 | k copies of a list are k times as long. |
| Synchronization.FirstSweepAsWritten | src/parallel/synchronization.py:40-51 | The first pass records the completed results and the failures once. |
| Synchronization.PollFromStartAsWritten | src/parallel/synchronization.py:36-53 | From an empty state, at least one pass leaves the completed results and one or more copies of the failures. |
| Synchronization.SyncOutcomeAsWritten | src/parallel/synchronization.py:23-60 | As written, the outcome holds exactly the completed results, only failed tasks among the failures, and the completed share as success rate, in `0 .. 1`. |
| Synchronization.PendingTaskCountedAsDone | src/parallel/synchronization.py:43-51 | With `a` failed and `b` pending, the second pass records `a` twice and the loop exits with `b` never settled. |
| Synchronization.SyncOutcomeFixed | src/parallel/synchronization.py:23-60 | With each failure recorded once, the failures are distinct failed tasks, the results are completed tasks with their values, and a full count means every task really is complete or failed. |
| Synchronization.SweepFixed | src/parallel/synchronization.py:40-51 | A corrected pass keeps the invariant: distinct, genuinely failed ids and genuinely completed results, disjoint. |
| Synchronization.PollFixed | src/parallel/synchronization.py:36-53 | The corrected loop keeps that invariant over any number of passes. |
| Synchronization.SettledCount | src/parallel/synchronization.py:50-51 | Under that invariant a full count of ids means every task is settled. |
| Synchronization.DistinctSize | src/parallel/synchronization.py:50 | Distinct ids count as many as the set they form. |
| Synchronization.WaitForTasks | src/parallel/synchronization.py:79-105 | Every task gets a status, true exactly when its probe reported done on some pass that ran. |
| Synchronization.WaitForTasksUntracked | src/parallel/synchronization.py:79-111 | With the placeholder probe every status stays false. |
| Coordination.Launched | src/parallel/coordination.py:41-50 | The launched ids are distinct and are exactly the keys of the result dict. |
| Coordination.LaunchedIds | src/parallel/coordination.py:41-50 | Every task id gets a result entry, and nothing else does. |
| Coordination.LaunchedLastWins | src/parallel/coordination.py:41-50 | A task id holds the result of the last task with that id. |
| Coordination.ExecuteParallelTasksWithCoordination | src/parallel/coordination.py:41-57 | The loop launches every task, then synchronizes the launched results with the polling loop as written, so a failed task is appended again on every pass. |
| Coordination.CoordinationOutcome | src/parallel/coordination.py:41-57 | After at least one pass the coordinated outcome holds exactly the completed launch results, its success rate is their share of the distinct task ids, and every id listed as failed is a task whose launch failed without completing. |
| Coordination.CoordinatedPendingTaskCountedAsDone | src/parallel/coordination.py:57 | With one failed and one pending launch, the coordinator reports the failed id twice and nothing completed, inheriting the double count of the polling loop. |
| Coordination.BestIsFirstMaximum | src/parallel/coordination.py:60-79 | The selected result is the first with the greatest positive score; none is selected, with score 0, exactly when no result scores above 0. |
| Coordination.SelectBestCompetitiveResult | src/parallel/coordination.py:60-79 | The loop computes that selection and the confidence of its score. |
| Coordination.PartialFailureTriage | src/parallel/coordination.py:82-94 | Successes are synthesized exactly when they are at least as many as the failures; otherwise exactly the failed tasks are re-run in sequence. |
| Recovery.StrategyOrder | src/error_handling/recovery.py:60-105 | The strategies come in priority order: the category's three (none for system, validation and unknown errors), then `generic_retry` and last `graceful_degradation`. |
| Recovery.Pow2 | src/error_handling/recovery.py:157 | A power of two is at least 1. |
| Recovery.RetryWithBackoff | src/error_handling/recovery.py:140-164 | The loop computes the backoff specification: outcome and the delays slept. |
| Recovery.BackoffOutcomes | src/error_handling/recovery.py:140-164 | Backoff succeeds exactly with two or more retries and a usable base, at attempt 2 after sleeping base and 2·base; with the defaults it succeeds after 2 attempts. |
| Recovery.IncreaseTimeoutRaisesByHalf | src/error_handling/recovery.py:167-178 | A numeric timeout is raised by half (30 becomes 45 by default) after one attempt. |
| Recovery.DispatchTable | src/error_handling/recovery.py:108-139 | Every result names its strategy; other than backoff and timeout a known strategy succeeds or fails by its kind in one attempt and an unknown name fails; four listed names are missing from the table. |
| Recovery.FirstSuccessIsEarliest | src/error_handling/recovery.py:37-57 | The outcome is the result of the earliest strategy that succeeds, and there is none exactly when no strategy succeeds. |
| Recovery.AttemptRecovery | src/error_handling/recovery.py:26-57 | The loop tries the strategies in order and returns the first success, or the `none` failure counting every strategy. |
| Recovery.RecoveryAlwaysSucceeds | src/error_handling/recovery.py:26-57 | With the built-in table recovery always succeeds, because `graceful_degradation` always does. |
| Recovery.OutcomeByCategory | src/error_handling/recovery.py:60-105 | Configuration, agent and resource errors recover by their first strategy, timeouts by raising the timeout, network errors by backoff in 2 attempts. |
| Recovery.GenericOutcome | src/error_handling/recovery.py:211-228 | System, validation and unknown errors recover by `graceful_degradation`, since `generic_retry` always fails. |
| ErrorDelegation.StrategyChoice | src/error_handling/delegation.py:70-96 | Severity decides first: critical errors go to the urgent specialist; otherwise each category selects its own strategy, and exactly system, validation and unknown errors go to the general handler. |
| ErrorDelegation.SelectHandler | src/error_handling/delegation.py:99-125 | A selected handler is registered. |
| ErrorDelegation.FirstAvailableIsEarliest | src/error_handling/delegation.py:106-113 | The chosen name is the earliest preferred name that is registered; none exactly when none is. |
| ErrorDelegation.SelectHandlerSpec | src/error_handling/delegation.py:99-132 | No handler exactly when none is registered; otherwise the earliest available preferred one, else the first registered one, since every handler can handle every error. |
| ErrorDelegation.DelegationOutcome | src/error_handling/delegation.py:20-67 | Delegation reports its strategy; it succeeds exactly when a handler was found and returned a dict, only then can the error count as resolved, and with no handlers it fails with "No suitable handler found". |
| ErrorDelegation.Report | src/error_handling/delegation.py:135-180 | A handler report is a dict with the given `action` and `resolved`. |
| ErrorDelegation.CreateErrorHandlers | src/error_handling/delegation.py:135-180 | Four handlers, registered as critical, retry, config, general. |
| ErrorDelegation.DefaultHandlers | src/error_handling/delegation.py:140-178 | The critical handler escalates unresolved, retry resolves with 3 retries, and the general handler resolves exactly the recoverable errors. |
| ErrorDelegation.DefaultSelection | src/error_handling/delegation.py:99-125 | The default table gives each strategy its first preferred handler, or the critical handler for orchestration and system strategies, which find none of theirs. |
| ErrorDelegation.DelegatesTo | src/error_handling/delegation.py:40-58 | A selected handler that returns a dict makes delegation succeed under its name, with its own `resolved` value. |
| ErrorDelegation.DefaultDelegation | src/error_handling/delegation.py:20-180 | With the default handlers every error is delegated successfully; agent and resource errors land on the critical handler and stay unresolved. |
| Monitoring.MinOfIsLeast | src/utils/monitoring.py:45 | The running minimum is absent exactly for no times, and otherwise is a recorded time no larger than any other. |
| Monitoring.MaxOfIsGreatest | src/utils/monitoring.py:46 | The running maximum, starting at 0, bounds every recorded time and is 0 or a recorded time. |
| Monitoring.TallyCounts | src/utils/monitoring.py:56-58 | The error-type counters count exactly the occurrences of each type in the error log. |
| Monitoring.AverageWithinExtremes | src/utils/monitoring.py:69-73 | The average response time lies between the smallest and the largest recorded time. |
| Monitoring.Appended | src/utils/monitoring.py:43-46 | Recording a time extends the list, the total, the minimum and the maximum consistently. |
| Monitoring.PerformanceMetrics.constructor | src/utils/monitoring.py:17-26 | Every counter starts at zero and every collection empty. |
| Monitoring.PerformanceMetrics.RecordTaskStart | src/utils/monitoring.py:28-39 | The task count grows by one, a named agent's count grows by one (a new agent entry starts at zero), and nothing else changes. |
| Monitoring.PerformanceMetrics.RecordTaskSuccess | src/utils/monitoring.py:41-50 | The time is recorded and the success count grows; a named agent must already have an entry (else `KeyError`, after the counters changed), whose successes and time grow. |
| Monitoring.PerformanceMetrics.RecordTaskError | src/utils/monitoring.py:52-61 | The error is logged and counted; a named agent must already have an entry (else `KeyError`), whose error count grows; nothing else changes. |
| Monitoring.PerformanceMetrics.SuccessRate | src/utils/monitoring.py:63-67 | Successes over tasks, 0 with no tasks, in `0 .. 1` while successes do not outnumber tasks. |
| Monitoring.PerformanceMetrics.AverageResponseTime | src/utils/monitoring.py:69-73 | The mean recorded time, 0 with no successes, between the minimum and maximum times. |
| Monitoring.PerformanceMetrics.AgentSuccessRate | src/utils/monitoring.py:75-84 | The agent's successes over its tasks, 0 for an unknown agent or one with no tasks. |
| Monitoring.PerformanceMetrics.Summary | src/utils/monitoring.py:86-101 | Minimum, average and maximum come in order (0 with no successes), and the error types are exactly the logged ones. |
| Monitoring.ErrorTypesCountErrors | src/utils/monitoring.py:52-61 | In any reachable state the per-type counters count the logged errors and the error count is their total. |
| Monitoring.RecordTaskMetrics | src/utils/monitoring.py:198-206 | A success with a time is recorded as a success, a failure as an error of the given type (`unknown` when none is given), and a success without a time records nothing. The task count is not touched. A started named agent gets its success (with the time) or its error. `ok` is false exactly when something was recorded for a named agent that was never started. |
| Performance.HealthScore | src/utils/performance.py:39-78 | The health score lies in `0 .. 100`. |
| Performance.AssessOverallHealth | src/utils/performance.py:39-78 | The health report carries the score, its band, and the metrics it was computed from (0 for missing ones). |
| Performance.PerfectHealth | src/utils/performance.py:44-66 | The score is 100 exactly when no penalty applies: a success rate of at least 0.95, a mean response time of at most 5 s and errors within a tenth of the tasks. |
| Performance.HealthMonotone | src/utils/performance.py:44-66 | A better success rate never lowers the score. |
| Performance.StatusBands | src/utils/performance.py:68-75 | Excellent from 90, good from 75, fair from 60, otherwise poor. |
| Performance.IdentifyBottlenecks | src/utils/performance.py:80-125 | The method computes the bottleneck specification. |
| Performance.AppendAgentBottlenecks | src/utils/performance.py:111-123 | The loop over agents appends exactly the per-agent bottlenecks. |
| Performance.AgentBottleneckRule | src/utils/performance.py:111-123 | A flagged agent gets a medium agent-performance bottleneck, and only such bottlenecks come from agents. |
| Performance.BottleneckRules | src/utils/performance.py:84-109 | At most one response and one success bottleneck: a high one for an average above 10 s, spikes otherwise when the maximum exceeds 30 s; a success bottleneck exactly below 90 % success, high below 80 %. |
| Performance.GenerateRecommendations | src/utils/performance.py:127-167 | The method computes the recommendation specification. |
| Performance.AppendAgentRecommendations | src/utils/performance.py:156-165 | The loop over agents appends exactly the per-agent recommendations. |
| Performance.FlaggedAgentsAreRecommended | src/utils/performance.py:111-165 | Every agent flagged as a bottleneck also gets an optimisation recommendation. |
| Performance.BottlenecksAreRecommended | src/utils/performance.py:80-165 | A success bottleneck comes with the error-handling recommendation, a high response bottleneck with the optimisation one. |
| Performance.MissingSuccessRate | src/utils/performance.py:44-109 | Without a success rate the score is 0 and poor, yet no success bottleneck or reliability recommendation is raised. |
| Performance.AgentRecommendationsAreAgents | src/utils/performance.py:156-165 | Every per-agent recommendation is an agent optimisation. |
| Performance.AnalyzeAgentPerformance | src/utils/performance.py:177-198 | The loop computes the per-agent analysis specification. |
| Performance.AnalysedAgents | src/utils/performance.py:177-198 | Exactly the agents with a positive task count get an analysis. |
| Performance.StatsBounds | src/utils/performance.py:184-196 | Reliability is the success rate in percent; the performance score is at most 100 and at most five times the reliability, and 0 without successes, as is the mean time. |
| Performance.GetPerformanceInsights | src/utils/performance.py:207-230 | The method builds the insight lines from the health report, bottlenecks and recommendations. |
| Performance.BottleneckSectionShape | src/utils/performance.py:215-220 | A count line then at most three bottleneck lines, in order; nothing for no bottlenecks. |
| Performance.RecommendationSectionShape | src/utils/performance.py:222-228 | A count line then at most two recommendation lines, in order; nothing for none. |
| Performance.InsightsTruncate | src/utils/performance.py:207-230 | Between one and eight lines, the first the health line. |
| ConfigLoader.LastIndexOf | src/configuration/loader.py:34 | The last occurrence of a character, or none exactly when it does not occur. |
| ConfigLoader.LastComponent | src/configuration/loader.py:34 | A path's last component holds no separator. |
| ConfigLoader.Suffix | src/configuration/loader.py:34 | A suffix is empty or a dot followed by at least one character and no further dot. |
| ConfigLoader.SuffixOfConfigPath | src/configuration/loader.py:26-34 | A configuration path ending in `stem.ext` under any root has suffix `.ext`. |
| ConfigLoader.ReadFileOutcomes | src/configuration/loader.py:82-96 | Reading fails exactly when parsing fails, naming the file; YAML gives `{}` for an empty document; JSON gives the parsed value. |
| ConfigLoader.Load | src/configuration/loader.py:25-57 | A failed load leaves the state as it was, validators never change, and the loader's invariant is kept. |
| ConfigLoader.Reload | src/configuration/loader.py:59-73 | The same three facts for a reload. |
| ConfigLoader.Fetch | src/configuration/loader.py:75-80 | The same three facts for a lookup. |
| ConfigLoader.ClearAll | src/configuration/loader.py:122-125 | Clearing everything gives a consistent state. |
| ConfigLoader.LoadOutcomes | src/configuration/loader.py:25-57 | A missing file, an unknown suffix and a parser error each raise without touching the state; a success stores the configuration and the file time under the path and changes nothing else. |
| ConfigLoader.ValidationOnlyChecksDictionaries | src/configuration/loader.py:47-51 | A parsed file is refused exactly when validation was asked for, a validator is registered and the content is not a dictionary. |
| ConfigLoader.FormatIgnoresCase | src/configuration/loader.py:36-43 | The parser is chosen by suffix regardless of case. |
| ConfigLoader.UpperCaseYaml | src/configuration/loader.py:36-37 | `.YAML` selects the YAML parser. |
| ConfigLoader.ReloadRule | src/configuration/loader.py:59-73 | A reload loads again exactly when the file is strictly newer than the recorded time; otherwise it returns the cached configuration, or `{}`, and changes nothing. |
| ConfigLoader.ReloadAfterLoad | src/configuration/loader.py:25-73 | Reloading a file just loaded and unchanged returns the stored configuration and changes nothing. |
| ConfigLoader.GetConfigurationReadsState | src/configuration/loader.py:75-80 | A lookup returns what the state holds after the optional reload, `{}` for a path never loaded. |
| ConfigLoader.ClearRemovesOnlyPath | src/configuration/loader.py:115-120 | Clearing a path removes it from both dictionaries and the listing and leaves every other path as it was. |
| ConfigLoader.ClearAllEmpties | src/configuration/loader.py:122-125 | Clearing everything leaves nothing loaded and keeps the validators. |
| ConfigLoader.Listing | src/configuration/loader.py:111-113 | The listing holds each loaded path exactly once. |
| ConfigLoader.ReadyIffLoaded | src/configuration/loader.py:190-195 | The loader is ready exactly when something is loaded. |
| ConfigLoader.LoadMakesReady | src/configuration/loader.py:25-57 | A successful load makes the loader ready and lists the path. |
| ConfigLoader.ValidateConfigurationSpec | src/configuration/loader.py:145-173 | A configuration is valid exactly when it is a dictionary with `name` and `version`. |
| ConfigLoader.AgentsFileIsYaml | src/configuration/loader.py:176-182 | The agents file is read as YAML. |
| ConfigLoader.SystemFileIsYaml | src/configuration/loader.py:185-187 | The system file is read as YAML. |
| ConfigLoader.AgentConfigurationLookup | src/configuration/loader.py:176-182 | The agent lookup gives the named entry under `agents`, `{}` when either is missing, and raises when `agents` is not a dictionary. |
| ConfigLoader.ConfigurationLoader.constructor | src/configuration/loader.py:18-23 | A fresh loader holds nothing under its root. |
| ConfigLoader.ConfigurationLoader.LoadConfiguration | src/configuration/loader.py:25-57 | Returns and stores what the load specification says. |
| ConfigLoader.ConfigurationLoader.ReloadConfiguration | src/configuration/loader.py:59-73 | Returns and stores what the reload specification says. |
| ConfigLoader.ConfigurationLoader.GetConfiguration | src/configuration/loader.py:75-80 | Returns and stores what the lookup specification says. |
| ConfigLoader.ConfigurationLoader.RegisterSchemaValidator | src/configuration/loader.py:107-109 | Registers a validator for the path and changes nothing else. |
| ConfigLoader.ConfigurationLoader.ListConfigurations | src/configuration/loader.py:111-113 | Each loaded path exactly once. |
| ConfigLoader.ConfigurationLoader.ClearConfiguration | src/configuration/loader.py:115-120 | The state after clearing the path. |
| ConfigLoader.ConfigurationLoader.ClearAllConfigurations | src/configuration/loader.py:122-125 | The state after clearing everything. |
| MasterConfig.HardcodedConfig | agents/master.js:234-272 | The built-in configuration is named `master`, version 0.9.10, with 25 capabilities, 12 triggers and the single tool `dynamic_agent_discovery`. |
| MasterConfig.DefaultCapabilities | agents/master.js:274-284 | Seven non-empty default capabilities. |
| MasterConfig.DefaultCapabilitiesDistinct | agents/master.js:274-284 | The default capabilities are distinct. |
| MasterConfig.FirstIndexOf | agents/master.js:183 | The first occurrence of a character, or none exactly when it does not occur. |
| MasterConfig.CapabilityName | agents/master.js:183-186 | A bullet's capability name has no blank at either end. |
| MasterConfig.BulletLine | agents/master.js:183-186 | For a line `  - item`, the capability name is the trimmed item. |
| MasterConfig.Add | agents/master.js:185-187 | Adding a capability only when absent keeps the list distinct. |
| MasterConfig.Names | agents/master.js:181-189 | One capability name per bullet line, in order. |
| MasterConfig.GatheredSpec | agents/master.js:178-191 | The gathered capabilities are distinct, are exactly the non-empty bullet names, and keep the order in which the names first appear. |
| MasterConfig.TriggerListSpec | agents/master.js:194-202 | Every trigger is non-empty, trimmed and free of quotes and commas, and there are at most as many triggers as comma-separated parts. |
| MasterConfig.CollectBlock | agents/master.js:181-189 | The loop over one capability block gathers exactly its new names. |
| MasterConfig.ParseYamlConfiguration | agents/master.js:166-210 | The loop over the capability blocks computes the YAML reading. |
| MasterConfig.YamlConfigSpec | agents/master.js:166-210 | The YAML reading has the fixed name and version; its capabilities are the gathered bullet names, distinct, non-empty and in order of first appearance, or exactly the seven defaults when no bullet names a capability; its triggers are the trigger list of the trigger line when there is one and empty otherwise. |
| MasterConfig.ReadStructuredSpec | agents/master.js:212-232 | The structured reading raises exactly when a capability list has no token; otherwise it keeps the built-in configuration except for the given name and the listed tokens. |
| MasterConfig.ReadDocumentYaml | agents/master.js:146-164 | A document with front matter is read as YAML and always yields capabilities. |
| MasterConfig.ReadDocumentStructured | agents/master.js:146-164 | Without front matter the built-in configuration is used exactly when the structured reading raises. |
| MasterConfig.ParseMasterMdHasCapabilities | agents/master.js:146-164 | Whatever the document, the configuration read has at least one capability. |
| MasterServer.CapabilityTools | agents/master.js:293-298 | One tool per capability, in order. |
| MasterServer.ToolNames | agents/master.js:286-301 | The names of a tool list, in order. |
| MasterServer.CapabilityToolNoDash | agents/master.js:296 | A capability tool's description holds no dash: every `-` of the name becomes a space. |
| MasterServer.ToolsListing | agents/master.js:102-144 | The listing holds the three management tools, each with a schema, then one tool per capability, named by it, without a schema. |
| MasterServer.ListedNames | agents/master.js:286-301 | The listed names are the three management tools' then the capabilities, in order. |
| MasterServer.PropSpec | agents/master.js:339 | Reading a property fails exactly on `null`, and yields a value exactly for an object holding the key. |
| MasterServer.NewSubagentSpec | agents/master.js:338-366 | Creating a subagent fails only for `null` arguments; the task type is taken as given, and capabilities and configuration default to `[]` and `{}` only when absent. |
| MasterServer.ReportsSpec | agents/master.js:374-386 | Every task is reported, in order, unless one is `null`, which fails. |
| MasterServer.OrchestrateTasks | agents/master.js:368-395 | The loop computes the orchestration specification. |
| MasterServer.ReportsFailed | agents/master.js:374-386 | A `null` task ends the report with the same failure as the prefix up to it. |
| MasterServer.OrchestratedSpec | agents/master.js:368-395 | An array of tasks is reported in order, counted, and run in parallel unless told otherwise; a string counts one task per character; missing tasks fail. |
| MasterServer.DelegationSpec | agents/master.js:397-414 | Delegation fails only for `null` arguments; the agent is the given one when truthy and `auto-selected-agent` otherwise, the priority the given one or `medium` when absent. |
| MasterServer.CapabilityRunSpec | agents/master.js:416-440 | A capability call never fails, names its tool, and is recognised exactly when the capability is configured. |
| MasterServer.ParsedHasCapabilities | agents/master.js:84-93 | A configuration is read exactly when the document exists, and then has capabilities. |
| MasterServer.InitStepSpec | agents/master.js:78-100 | Initialisation fails, with the missing-file message, exactly when the server is not initialized and the document is missing; otherwise it keeps subagents and tasks, reads the configuration only once, and initialising again changes nothing. |
| MasterServer.ListToolsStepSpec | agents/master.js:286-301 | Listing fails only when initialisation does, and lists the management tools then the configured capabilities, more than three tools. |
| MasterServer.DispatchSpec | agents/master.js:315-325 | Only a subagent request with readable arguments creates a subagent, under the fresh identifier; any other name runs as a capability, recognised exactly when configured. |
| MasterServer.CallToolStepRaises | agents/master.js:303-336 | A call raises exactly when initialisation fails or the name is not a non-empty string; tool failures are caught; the state stays good and no task is recorded. |
| MasterServer.CallToolStepOutcome | agents/master.js:303-366 | A created subagent is stored under the fresh identifier and adds exactly one entry; nothing else changes the subagents; a failure names its tool. |
| MasterServer.ShutdownSpec | agents/master.js:444-469 | After shutdown no subagent or task is reported and the next initialisation reads the document again, while configuration and tools stay. |
| MasterServer.StatusAfterInit | agents/master.js:444-454 | After initialisation the status reports at least one capability and the three management tools. |
| MasterServer.SanitizeArgsMissing | agents/master.js:311 | As written a subagent request on a fresh server raises and creates nothing; as intended it creates the one subagent. |
| MasterServer.CallToolAsWrittenNeverReturns | agents/master.js:303-336 | As written no call ever returns a result. |
| MasterServer.HandleStepKeepsGood | agents/master.js:560-575 | Handling any request keeps the server state consistent. |
| MasterServer.ServeLineSpec | agents/master.js:538-543 | A line that does not parse as JSON is only logged and changes nothing; a parsed line is answered as `handleRequest` answers it, and a consistent state stays consistent. |
| MasterServer.HandleStepCodes | agents/master.js:560-575 | Errors carry -32601 or -32603; "method not found" exactly for a non-null request whose method is neither listing nor calling, changing nothing; `null` is an internal error. |
| MasterServer.HandleStepList | agents/master.js:562-564 | A listing request is answered exactly when initialisation succeeds, with the management tools then the capabilities. |
| MasterServer.HandleStepCallWithoutParams | agents/master.js:565-566 | A call request without `params` is an internal error that changes nothing. |
| MasterServer.HandleStepCall | agents/master.js:565-568 | A call request is answered exactly when the call returns, missing arguments read as `{}`. |
| MasterServer.MasterMCPServer.constructor | agents/master.js:69-76 | A new server is uninitialized, without configuration, subagents, tasks or tools. |
| MasterServer.MasterMCPServer.Initialize | agents/master.js:78-100 | The new state is the initialisation step's. |
| MasterServer.MasterMCPServer.InitializeMCPServer | agents/master.js:102-144 | The stored tools are the three management tools. |
| MasterServer.MasterMCPServer.ListTools | agents/master.js:286-301 | Result and new state are the listing step's. |
| MasterServer.MasterMCPServer.CreateSubagent | agents/master.js:338-366 | The subagent, when created, is stored under the fresh identifier and returned. |
| MasterServer.MasterMCPServer.ExecuteMasterCapability | agents/master.js:416-440 | Fails with "Master configuration not loaded" without a configuration, else runs the capability. |
| MasterServer.MasterMCPServer.CallTool | agents/master.js:303-336 | Result and new state are the call step's. |
| MasterServer.MasterMCPServer.Shutdown | agents/master.js:464-469 | The new state is the shutdown step's. |
| MasterServer.ServerWrapper.constructor | agents/master.js:474-476 | The wrapper owns a new server. |
| MasterServer.ServerWrapper.HandleRequest | agents/master.js:560-575 | Reply and new server state are the request step's. |
| StdioFraming.HasContentIsTrim | agents/master.js:537 | A line has content exactly when trimming leaves something. |
| StdioFraming.FilterMembers | agents/master.js:536-537 | Exactly the lines with content are kept. |
| StdioFraming.ReceiveSpec | agents/master.js:531-546 | After a chunk the buffer holds no newline, handled lines hold none and have content, the completed lines and buffer rejoin into old buffer plus chunk, and without a newline everything is buffered. |
| StdioFraming.SplitAppend | agents/master.js:532-534 | Splitting extended text re-splits only its last piece. |
| StdioFraming.FeedSpec | agents/master.js:531-546 | However the input is chunked, the buffer is the text after the last newline and the handled lines are the complete lines with content, in order. |
| StdioFraming.StreamHandlesEveryLine | agents/master.js:528-558 | Over the ended input every line with content is handled once, in order, with or without a final newline. |
| StdioFraming.LineReader.constructor | agents/master.js:529 | The buffer starts empty, nothing handled. |
| StdioFraming.LineReader.OnData | agents/master.js:531-546 | The new buffer and handled lines are the chunk step's. |
| StdioFraming.LineReader.OnEnd | agents/master.js:548-557 | A leftover with content is handled; the buffer stays. |

## Left out

- Human-readable messages, timestamps and logging calls: results keep the fields that decide behaviour (success flags, categories, counts, names), not the text or the time they were produced.
- Floating-point arithmetic: scores, rates and times are `real`s, so rounding at a threshold boundary (`>= 0.95`, `> 0.7`) is exact here where the source's doubles may round. Numbers carry no int/float distinction either: `Recovery.IntOf` accepts a whole-valued float such as `3.0` as a retry count, where `range(3.0)` raises `TypeError`.
- `round(…, 1)`, `:.2f` and `:.1%` formatting of reported numbers: the unrounded values are modelled.
- Regular-expression extraction of document sections and technical terms: documents arrive already cut into their pieces (`MasterDocument`), and the technical terms of a task are a parameter of `Scoring.ExtractTaskRequirements`.
- Placeholder stubs whose results are fixed constants: `validate_agent_selection_enhanced` (src/agent_matrix/enhanced_scoring.py:148) always reports a valid selection whatever its arguments, and `_analyze_trends` (src/utils/performance.py:169) always returns the same "not implemented" dictionary with one data point; neither inspects its input, so there is nothing to state about them beyond their literal value.
- Bytes and character decoding on standard input: `StdioFraming.Receive` takes each chunk as already-decoded text, so a multi-byte UTF-8 character split between two chunks (each decoded on its own by `chunk.toString()` at agents/master.js:532) is not modelled.
- Lower-casing and blank detection are ASCII only; Unicode case folding and Unicode white space are not modelled.
- The TF-IDF vectorizer and cosine similarity: their scores are the `vectorScores` parameter of `Compatibility.TfidfRelevance`, whose `Err` case stands for any exception they raise.
- `calculate_tfidf_relevance_enhanced` is called in src/agent_matrix/enhanced_scoring.py:24 but defined in no file of the repository; the relevance the blend receives is a parameter of the scoring functions.
- src/agent_matrix/enhanced_compatibility.py does not parse as written (an unmatched `)` at :26 and :90, an unbalanced quote at :113): the model reads each line as its evident intent, the agent text being capabilities, a space, and expertise.
- `Callable` is used without an import in src/utils/monitoring.py:148; the `PerformanceMonitor` thread, its alert callbacks and the module-level singleton instances are not modelled.
- Sleeping and clocks: waiting until a deadline is modelled as a number of polling passes (`passes` in `Synchronization.SyncOutcome` and `Coordination.ExecuteParallelTasksWithCoordination`), so which tasks settle before a real deadline is not modelled.
- Tasks given to src/parallel/coordination.py are typed as dicts, yet :54 reads `task.id`, which raises `AttributeError` on a dict at the first task; the model's `Coordination.Task` is a record that always has an id, so that exception is not modelled.
- The stubs of src/parallel/coordination.py (`launch_task_async`, `calculate_result_quality`, `calculate_selection_confidence`, `synthesize_partial_results`, `fallback_to_sequential_execution`) have only `pass` bodies and so return `None`; they are parameters of the model (`launch`, `quality`, …) returning values.
- Coordination.SelectBestCompetitiveResult: with the quality stub as written, `None > best_score` at src/parallel/coordination.py:74 raises `TypeError` for any non-empty list; the model takes the quality score as a parameter returning a number and does not model that exception.
- `threading.Barrier` and real concurrency: parallel tasks are launched and their results read one after another.
- File modification times, the file system and the YAML and JSON libraries: they are the `fs` parameter (`FileSystem`) of the configuration loader, whose parse result is given, not computed.
- Path normalisation beyond joining the root and the relative path, and the global loader instance of src/configuration/loader.py.
- Schema validator callables: only their registration is modelled; `ConfigLoader.ConfigurationLoader.RegisterSchemaValidator` records the path and validation itself is not run.
- src/configuration/hot_reload.py, src/testing/validation.py and the src/orchestration stubs are outside the modelled core.
- The tool back-ends of src/mcp/intelligent_tools.py (`use_tavily_search` and the rest) return formatted strings; they are the `run` parameter of `McpTools.ExecuteMcpToolChain`, and `handle_mcp_execution_error` is the `ChainFailure` outcome it builds.
- `_can_handle_error` of src/error_handling/delegation.py accepts every handler, so it is folded into `ErrorDelegation.SelectHandler`, which takes the first registered handler in preference order.
- The MCP SDK path of agents/master.js (:482-520): the request handlers registered with the SDK server and its stdio transport are not modelled; the fallback stdio loop is (`StdioFraming`, `MasterServer.ServerWrapper`).
- `serve()` start-up, the process signal handlers and the interleaving of asynchronous handlers: each request is served to completion before the next.
- `JSON.parse` of a request line is the `parse` parameter of `MasterServer.ServeLine`.
- Identifiers built from `Date.now()` and `Math.random()` are the `freshId` parameter of the call step.
- MasterServer.MasterMCPServer.Initialize, MasterServer.MasterMCPServer.ListTools and MasterServer.MasterMCPServer.CallTool receive the configuration already read from master.md (`read: Option<Config>`, `None` when reading fails) instead of reading the file; `MasterConfig.ParseMasterMd` says what is read from a document.
- `sanitizeArgs`, which agents/master.js calls at :311, :333 and :432 but never defines: the corrected model takes it as the `sanitize` parameter (see Findings).
- The text of task results and subagent descriptions; `activeTasks` is never filled by the source, so its count is always 0 in the model too.
- The exact V8 `TypeError` messages are modelled as the constant error text "TypeError".
- The stray class field `undefined` at agents/master.js:442 and the `wrapper_type` text in `getStatus`.

## Findings

| source | as written | input that shows it | evidently intended | confidence | as-written member | corrected member |
|---|---|---|---|---|---|---|
| src/parallel/synchronization.py:43-51 | A failed task is appended to `failed_tasks` again on every pass, and the loop ends when the count of completed plus failed entries reaches the number of tasks; src/parallel/coordination.py:57 calls this loop, so the coordinator inherits it (`Coordination.CoordinatedPendingTaskCountedAsDone`) | Tasks `a` failed and `b` still pending: the second pass lists `a` twice, the count reaches 2, and `b` is reported neither completed nor failed | A task is counted once, and the loop ends only when every task is completed or failed | not executed | Synchronization.PendingTaskCountedAsDone | Synchronization.SyncOutcomeFixed |
| src/agent_matrix/enhanced_compatibility.py:110 | `set()` of the extracted keyword string is the set of its characters, so task characters are compared with agent words; the TF-IDF fallback at :102-105 calls this matching, so it inherits the bug (`Compatibility.FallbackSameWordScoresZero`) | The task "api" against an agent whose capability is "api" scores 0 | The task's words are compared with the agent's words, scoring 1 here | not executed | Compatibility.SameWordScoresZeroAsWritten | Compatibility.SimpleKeywordMatching |
| agents/master.js:311 | `callTool` calls `this.sanitizeArgs`, which no code defines, so every tool call raises before doing anything | Any `create_subagent` call on a freshly initialised server answers with an internal error and creates nothing | Arguments are sanitised and the tool runs, creating the subagent | not executed | MasterServer.CallToolAsWritten | MasterServer.CallToolStep |
