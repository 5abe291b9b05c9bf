# LLM agent framework: a verified model of the execution core

This project models the core of `llm-agent-framework-sample`, a small Python
runtime that drives a language model through a bounded sequence of
decide/act steps. Each step asks the model backend for a response, runs
the tool calls it requests through a tool registry, records the step in an
append-only trajectory and emits lifecycle events to a telemetry log. A
run ends in exactly one of three statuses:

- `completed`: the response had finish reason "stop" and non-empty text;
- `failed`: the consecutive tool-failure counter reached `max_failures`;
- `max_steps_reached`: the step budget ran out.

Around the loop the model covers:

- the insertion-ordered tool registry and the records the loop builds:
  tasks, tool calls, tool results and trajectories;
- the telemetry event log with its handlers and spans;
- the key/value agent memory and the orchestration helpers;
- the scripted mock backend, the builtin `echo` and `math_eval` tools, and
  the mock MCP provider that loads tools into a registry;
- the A2A coordinator, which fans a decomposed task out to the main agent or
  to named specialist agents.

How the model is built:

- **The agent loop** is given twice. `AgentLoop.Steps(cfg, n)` is a
  reference definition of the state after `n` iterations: the conversation,
  the failure counter, the recorded steps, the event log and the verdict.
  `Agents.LLMAgent.Run` is the imperative loop over the backend object, the
  registry, the telemetry object and a fresh trajectory. Its postcondition
  ties every piece of the final state to `AgentLoop.Final`. The loop's
  promises are lemmas about the reference definition, in `AgentProperties`
  and `AgentScenarios`.
- **Stateful classes** stay classes with `modifies` clauses: the registry,
  the trajectory, telemetry, spans, memory, the backend's call counter, the
  MCP provider and the coordinator. Their methods state the whole new state.
- **Pure helpers** are functions with contracts.
- **Python dicts** are `Dicts.Dict`: a key list in first-insertion order plus
  a map.
- **Tools** are values with an `invoke` function from keyword arguments to a
  value or an error message. This stands for Python's keyword binding plus
  exceptions. `Tools.Bind` reproduces the `TypeError` text for missing
  required arguments.
- **The backend** is a `LanguageModel` object: a call counter plus a response
  function of (call number, messages, tool catalog).

Where the code and its documentation disagree, the model follows the code:

- `_is_complete` ignores tool calls, whatever its docstring says.
- `ToolCallResult` does not force `is_error` and `error` to agree. Only the
  registry's results are consistent (`ToolCallResults.RecordAllowsInconsistency`).
- `Trajectory.complete` does not make terminal statuses absorbing. A second
  call overwrites the first (`Trajectories.CompleteTwice`). "Completed once" is
  a property of how `run` calls it.
- The failure threshold is checked after all of a step's tool calls have run,
  not in the middle of a step. It is checked only in steps that made calls.
- `Telemetry(handlers=[])` installs the default handler, because of
  `handlers or [...]`.

## Model

| member | source | states |
|---|---|---|
| Dicts.Dict.Get | src/agent_framework/tools/registry.py:42-44 | `d.get(k)` never fails: it gives the entry exactly when the key is present |
| Dicts.Dict.Put | src/agent_framework/tools/registry.py:36 | `d[k] = v` keeps the dict well formed: a new key goes last, an existing key keeps its position, and only that entry changes |
| Dicts.Dict.Remove | src/agent_framework/tools/registry.py:38-40 | `d.pop(k, None)`: the entry is gone, a missing key changes nothing, and a present key loses exactly its own slot in the key order |
| Dicts.Dict.Values | src/agent_framework/tools/registry.py:56 | `list(d.values())`: one value per key, in key order |
| Dicts.DistinctSnoc | src/agent_framework/tools/registry.py:36 | a key list with one more key has no duplicates iff the list had none and the key is new |
| Dicts.WithoutSpec | src/agent_framework/tools/registry.py:40 | dropping a key keeps every other key, stays duplicate-free, is a no-op for an absent key and otherwise removes exactly one slot |
| Dicts.RemoveSpec | src/agent_framework/agent/memory.py:31-33 | the dict `pop` builds is well formed, equal to the original for a missing key, and missing exactly the key's slot otherwise |
| Text.NatToStringRoundTrip | src/agent_framework/a2a/coordinator.py:86 | a decimal numeral parses back to its number |
| Text.NatToStringInjective | src/agent_framework/agent/agent.py:96 | different numbers give different numerals, so "call_<i>" and "<id>_sub_<i>" ids differ |
| Text.Lower | src/agent_framework/llms/mock_llm.py:45 | `str.lower()` keeps the length and lowers each character |
| Text.Contains | src/agent_framework/llms/mock_llm.py:50 | `p in s` holds iff `p` occurs at some position of `s` |
| Text.SplitJoin | src/agent_framework/agent/orchestration.py:57 | splitting a "\n"-join of newline-free lines gives back the lines |
| Values.Str | src/agent_framework/data_structures/tool_call_result.py:27 | `str(v)` of a string is the string, of None "None", of a boolean "True" or "False", and of an integer a numeral that parses back to it (after a '-' when negative); floats as listed under Left out |
| Tasks.StepBudget | src/agent_framework/agent/agent.py:76 | `range(task.max_steps)` runs `max_steps` iterations, or none when `max_steps <= 0` |
| ToolCalls.FromDict | src/agent_framework/data_structures/tool_call.py:23-30 | `from_dict` copies id, name and arguments when present; the defaults are "", "" and {} |
| ToolCallResults.ToolCallResult.Content | src/agent_framework/data_structures/tool_call_result.py:27 | the message text is the error after a failure and `str(result)` otherwise |
| ToolCallResults.ToolCallResult.ToMessage | src/agent_framework/data_structures/tool_call_result.py:21-28 | a "tool" message carrying the call id, the tool name and that text |
| ToolCallResults.RecordAllowsInconsistency | src/agent_framework/data_structures/tool_call_result.py:15-19 | the record accepts `is_error` without an error text, whose message then reads "None" |
| Tools.Tool.ToDict | src/agent_framework/base/tool.py:52-61 | the catalog entry has type "function" and copies the tool's name, description and schema |
| Tools.Missing | src/agent_framework/base/tool.py:39-50 | the required parameters absent from the arguments, no more and no fewer |
| Tools.Bind | src/agent_framework/base/tool.py:39-50 | keyword binding succeeds iff every parameter is supplied, and then binds each one to its argument |
| Registry.ExecuteWith | src/agent_framework/tools/registry.py:62-96 | an unknown name gives the "not found" error result; a tool's success gives its value and its failure gives its message; ids and names are copied and the result is consistent |
| Registry.CatalogOf | src/agent_framework/tools/registry.py:58-60 | one catalog entry per registered tool, in registration order |
| Registry.ToolRegistry.constructor | src/agent_framework/tools/registry.py:20-21 | a new registry is empty |
| Registry.ToolRegistry.Register | src/agent_framework/tools/registry.py:23-36 | a taken name without `replace` is refused with the ValueError text and nothing changes; otherwise the tool is filed under its name, last if new, in place if replacing |
| Registry.ToolRegistry.Unregister | src/agent_framework/tools/registry.py:38-40 | removes the name if present, otherwise changes nothing |
| Registry.ToolRegistry.Get | src/agent_framework/tools/registry.py:42-44 | the tool exactly when the name is registered, and it carries that name |
| Registry.ToolRegistry.List | src/agent_framework/tools/registry.py:46-56 | every registered tool once, in registration order |
| Registry.ToolRegistry.ListForLLM | src/agent_framework/tools/registry.py:58-60 | entry i is the full `to_dict()` (kind "function", name, description, parameters) of the i-th registered tool, in registration order |
| Registry.ToolRegistry.Execute | src/agent_framework/tools/registry.py:62-96 | execution is `ExecuteWith` on the registry's current tools and changes nothing |
| Echo.EchoInvoke | src/agent_framework/tools/builtin/echo.py:36-38 | returns `message` unchanged whatever else is passed; without `message` it fails with Python's missing-argument text |
| Echo.EchoThroughRegistry | src/agent_framework/tools/registry.py:82-96 | through a registry, echo returns the message as a success, and a call without one becomes an error result with the exact `TypeError` text |
| MathEval.Apply | src/agent_framework/tools/builtin/math_eval.py:17-22 | integer +, - and * give the exact integer; / by a zero divisor fails and otherwise divides; non-numbers fail |
| MathEval.Evaluate | src/agent_framework/tools/builtin/math_eval.py:70-74 | an operator outside the table fails with "Unsupported operator: <op>"; a table operator is applied |
| MathEval.MathInvoke | src/agent_framework/tools/builtin/math_eval.py:54-74 | a missing a, operator or b fails; otherwise the three bound values are evaluated |
| MathEval.SchemaMatchesTable | src/agent_framework/tools/builtin/math_eval.py:32-52 | with a non-zero divisor an operator succeeds iff the schema's enum lists it |
| MathEval.CalculatorCallEvaluates | src/agent_framework/tools/registry.py:83 | the registered calculator binds a, operator and b by name and evaluates them |
| MathEval.MathThroughRegistry | src/agent_framework/tools/builtin/math_eval.py:17-22 | through a registry, integer +, - and * come back as successes carrying a+b, a-b and a*b |
| MathEval.MathErrorsThroughRegistry | src/agent_framework/tools/builtin/math_eval.py:70-74 | through a registry, / by zero and an unknown operator come back as error results with Python's messages |
| Trajectories.Trajectory.constructor | src/agent_framework/data_structures/trajectory.py:31-44 | a new trajectory has no steps, no end time, no result and status "in_progress" |
| Trajectories.Trajectory.AddStep | src/agent_framework/data_structures/trajectory.py:46-48 | appends the step at the end and changes nothing else |
| Trajectories.Trajectory.Complete | src/agent_framework/data_structures/trajectory.py:50-54 | sets the end time, the result and the status together and keeps the steps |
| Trajectories.Trajectory.ToDict | src/agent_framework/data_structures/trajectory.py:56-58 | the serialised record carries every field unchanged |
| Trajectories.CompleteTwice | src/agent_framework/data_structures/trajectory.py:50-54 | completing twice leaves the second call's status and result: nothing is absorbing |
| Monitoring.Deliveries | src/agent_framework/monitoring/telemetry.py:47-48 | one `emit` calls every handler once, in list order, with the log already holding the event |
| Monitoring.FanoutSnoc | src/agent_framework/monitoring/telemetry.py:31-48 | emitting one more event adds exactly that event's handler calls at the end |
| Monitoring.Filter | src/agent_framework/monitoring/telemetry.py:66 | the filtered log is no longer than the log and holds only events of the type |
| Monitoring.FilterAppend | src/agent_framework/monitoring/telemetry.py:66 | filtering distributes over concatenation, so the filter keeps emission order |
| Monitoring.FilterOne | src/agent_framework/monitoring/telemetry.py:66 | a single event is kept iff it has the type |
| Monitoring.EmitAfter | src/agent_framework/monitoring/telemetry.py:31-48 | an emit extends the log, and the handler calls, by one event |
| Monitoring.Telemetry.constructor | src/agent_framework/monitoring/telemetry.py:21-29 | an empty log; a missing or empty handler list installs the default handler alone |
| Monitoring.Telemetry.Emit | src/agent_framework/monitoring/telemetry.py:31-48 | appends exactly one event at the end and calls every handler once, in order, after the append |
| Monitoring.Telemetry.GetEvents | src/agent_framework/monitoring/telemetry.py:54-66 | the whole log, or the events of one type in emission order |
| Monitoring.Telemetry.Clear | src/agent_framework/monitoring/telemetry.py:68-70 | empties the log and keeps the handlers |
| Monitoring.Span.constructor | src/agent_framework/monitoring/telemetry.py:83-95 | a missing data dict becomes an empty one |
| Monitoring.Span.Enter | src/agent_framework/monitoring/telemetry.py:97-101 | emits "<name>_start" with the span's data |
| Monitoring.Span.Exit | src/agent_framework/monitoring/telemetry.py:103-109 | emits "<name>_end" with the data plus the duration, and the error text only after a failure |
| Monitoring.EndData | src/agent_framework/monitoring/telemetry.py:106-108 | the end data keeps every other key, sets "duration_ms", sets "error" only after a failure, and keeps the key order |
| Llm.LanguageModel.constructor | src/agent_framework/llms/mock_llm.py:15-24 | a new backend has made no calls |
| Llm.LanguageModel.Generate | src/agent_framework/base/llm.py:31-50 | each `generate` counts one call and answers from the messages and the catalog |
| MockLlm.LastUserIndex | src/agent_framework/llms/mock_llm.py:41-46 | the reversed scan finds the last "user" entry, or none when there is none |
| MockLlm.LastUserContent | src/agent_framework/llms/mock_llm.py:41-46 | matching sees the lower-cased last user entry, or "" |
| MockLlm.LastUserIgnoresTrailing | src/agent_framework/llms/mock_llm.py:41-46 | appending non-user entries does not change what matching sees |
| MockLlm.FirstMatch | src/agent_framework/llms/mock_llm.py:48-50 | the first pattern, in insertion order, whose lower-case form occurs; none only when no pattern occurs |
| MockLlm.Scripted | src/agent_framework/llms/mock_llm.py:51-55 | a scripted reply gives its content, its tool calls or [], and finish reason "stop" |
| MockLlm.MockRespond | src/agent_framework/llms/mock_llm.py:26-77 | a match gives the scripted reply; otherwise one call "call_<n>" of the first catalogued tool with {} and no text; with no tools the default text answer |
| MockLlm.ScriptedReplyRepeats | src/agent_framework/llms/mock_llm.py:41-55 | once a pattern matches, later steps that add no user entry get the same reply |
| MockLlm.NewMockLLM | src/agent_framework/llms/mock_llm.py:15-24 | a fresh mock with no calls made that answers as `MockRespond` |
| MockLlm.ScriptOf | src/agent_framework/llms/mock_llm.py:23 | a missing or empty script means no patterns |
| Orchestration.ShouldContinue | src/agent_framework/agent/orchestration.py:17-34 | go on iff steps remain and failures are below the threshold |
| Orchestration.ResultLine | src/agent_framework/agent/orchestration.py:51-55 | "Tool <name> failed: <error>" for an error, "Tool <name> returned: <result>" otherwise |
| Orchestration.ResultLines | src/agent_framework/agent/orchestration.py:50-55 | one line per result, in input order |
| Orchestration.FormatToolResults | src/agent_framework/agent/orchestration.py:37-57 | the text is empty iff there are no results |
| Orchestration.FormatSplitsPerResult | src/agent_framework/agent/orchestration.py:50-57 | the text splits back into exactly one line per result, in order |
| AgentMemory.Memory.constructor | src/agent_framework/agent/memory.py:20-21 | a new memory is empty |
| AgentMemory.Memory.Set | src/agent_framework/agent/memory.py:23-25 | stores the value under the key, changes only that key, and reads back |
| AgentMemory.Memory.Get | src/agent_framework/agent/memory.py:27-29 | the stored value, or the default (None unless given) |
| AgentMemory.Memory.Delete | src/agent_framework/agent/memory.py:31-33 | removes the key if present, otherwise changes nothing; afterwards `get` gives the default |
| AgentMemory.Memory.Clear | src/agent_framework/agent/memory.py:35-37 | no keys remain |
| AgentMemory.Memory.Keys | src/agent_framework/agent/memory.py:39-41 | the store's key order, which `Set` and `Delete` maintain as first-insertion order (through `Dict.Put` and `Dict.Remove`); exactly the stored keys, each once |
| Mcp.WeatherInvoke | src/agent_framework/mcp/provider.py:84-86 | with a location, the canned report for it; without one, an error |
| Mcp.WeatherReportPrefix | src/agent_framework/mcp/provider.py:84-86 | the report begins with "Weather in <location>: " |
| Mcp.LoadAll | src/agent_framework/mcp/provider.py:56-57 | registering in turn keeps the registry well formed |
| Mcp.LoadAllContents | src/agent_framework/mcp/provider.py:56-57 | a load with no refusal appends the tools' names in list order and keeps earlier tools |
| Mcp.LoadAllFiles | src/agent_framework/mcp/provider.py:56-57 | after a load with no refusal each loaded tool is filed under its name |
| Mcp.LoadAllSucceeds | src/agent_framework/mcp/provider.py:56-57 | the load succeeds iff the names are distinct and none is registered already |
| Mcp.LoadAllStops | src/agent_framework/mcp/provider.py:56-57 | after the first refusal nothing more is registered, and the tools before it stay |
| Mcp.MockMCPProvider.constructor | src/agent_framework/mcp/provider.py:40-47 | a provider built without tools has none |
| Mcp.MockMCPProvider.LoadTools | src/agent_framework/mcp/provider.py:49-57 | registers the tools in list order with `replace=False` and stops with the error at the first duplicate; the registry ends as `LoadAll` says |
| AgentLoop.InitialMessages | src/agent_framework/agent/agent.py:188-200 | exactly two entries: the system entry with the fixed prompt text, then the instruction as a user entry |
| AgentLoop.IsComplete | src/agent_framework/agent/agent.py:202-212 | complete iff the finish reason is "stop" and the text is non-empty |
| AgentLoop.CompletionIgnoresCalls | src/agent_framework/agent/agent.py:202-212 | replacing a response's tool calls never changes whether it completes the run |
| AgentLoop.ToolCallOf | src/agent_framework/agent/agent.py:95-99 | a missing id becomes "call_<step>", a missing name "" and missing arguments {} |
| AgentLoop.Calls | src/agent_framework/agent/agent.py:94-100 | one call per requested call, in emission order |
| AgentLoop.Results | src/agent_framework/agent/agent.py:108-109 | one registry result per call, in the same order |
| AgentLoop.ToolMessages | src/agent_framework/agent/agent.py:118 | one tool message per result, in the same order |
| AgentLoop.Final | src/agent_framework/agent/agent.py:76-186 | every run, however it ends, has a verdict |
| AgentLoop.StepsStable | src/agent_framework/agent/agent.py:137-141 | once a run has ended, later iterations change nothing |
| AgentLoop.StepShape | src/agent_framework/agent/agent.py:76-171 | one iteration: the failure check only in steps with calls, after all of them; the assistant entry only for text; a step appended; and the verdict failed, completed or none |
| AgentLoop.StepVerdict | src/agent_framework/agent/agent.py:125-171 | an iteration leaves the run going iff it neither hits the threshold nor completes |
| AgentLoop.StepsIndexed | src/agent_framework/agent/agent.py:85-86 | after `n` iterations at most `n` steps are recorded, exactly `n` while running, each numbered by its position |
| AgentLoop.FinalAt | src/agent_framework/agent/agent.py:137-171 | a run that ended within the budget has that state as its outcome |
| AgentProperties.TrailAppend | src/agent_framework/agent/agent.py:120-123 | counting over two batches of results is counting over the first and carrying on over the second |
| AgentProperties.TrailAllErrors | src/agent_framework/agent/agent.py:120-121 | each error adds one to the counter |
| AgentProperties.TrailAfterSuccess | src/agent_framework/agent/agent.py:122-123 | after a success the counter is the number of errors since it |
| AgentProperties.FailureCounter | src/agent_framework/agent/agent.py:72-123 | the counter equals the run of trailing errors over all results so far, across step boundaries; it is never reset per step |
| AgentProperties.StepsPrefix | src/agent_framework/data_structures/trajectory.py:46-48 | the recorded steps only grow: earlier steps are a prefix of later ones |
| AgentProperties.RecordedMeansRunning | src/agent_framework/agent/agent.py:128-152 | a recorded step was made by an iteration that ran while the run was still going |
| AgentProperties.StepsAligned | src/agent_framework/agent/agent.py:85-109 | each step has one result per call, in order, with the call's id and tool name |
| AgentProperties.StepMessages | src/agent_framework/agent/agent.py:118-148 | an iteration only appends to the conversation, and never a user entry |
| AgentProperties.Conversation | src/agent_framework/agent/agent.py:188-200 | the conversation always starts with the system prompt and the instruction, and no user entry follows |
| AgentProperties.ToolEventsFilter | src/agent_framework/agent/agent.py:102-115 | a step's tool events hold no event of any other type |
| AgentProperties.FilterPairOut | src/agent_framework/agent/agent.py:102-115 | a tool start/end pair drops out of a filter for any other type |
| AgentProperties.StepEvents | src/agent_framework/agent/agent.py:78-165 | an iteration logs step_start, a start/end pair per call, then step_end and task_end as its verdict says |
| AgentProperties.FilterIteration | src/agent_framework/monitoring/telemetry.py:66 | filtering an iteration's events skips the tool events |
| AgentProperties.TailFilter | src/agent_framework/agent/agent.py:133-165 | an iteration's closing events hold no step_start, and task_end only with a verdict, last |
| AgentProperties.FilterSnoc | src/agent_framework/monitoring/telemetry.py:66 | filtering a log with one more event adds that event iff it has the type |
| AgentProperties.EventLogStep | src/agent_framework/agent/agent.py:74-165 | an iteration keeps the event log in shape |
| AgentProperties.EventOrderStep | src/agent_framework/agent/agent.py:78-165 | an iteration of the reference run keeps the event log in shape |
| AgentProperties.EventOrder | src/agent_framework/agent/agent.py:74-186 | the log starts with task_start, has one step_start per recorded step, and has a task_end only once the run has ended: exactly one, last, with the run's status |
| AgentProperties.VerdictKinds | src/agent_framework/agent/agent.py:125-171 | an iteration ends a run only as "failed" or "completed", and only after recording a step |
| AgentProperties.FinalBounds | src/agent_framework/agent/agent.py:76-186 | at most `max_steps` steps, numbered by position, one of the three statuses, and no steps with no budget |
| AgentProperties.FinalMaxSteps | src/agent_framework/agent/agent.py:173-186 | max_steps_reached iff no iteration ended the run; then one step per iteration, result "Max steps reached", no answer, and task_end last |
| AgentProperties.LastIteration | src/agent_framework/agent/agent.py:137-186 | the last recorded step is the iteration that decided the run |
| AgentProperties.FinalCompleted | src/agent_framework/agent/agent.py:157-212 | completed iff the last iteration did not hit the threshold and its response was complete; the answer and the result are then its text |
| AgentProperties.FinalFailed | src/agent_framework/agent/agent.py:125-141 | failed iff the last iteration made calls and left the counter at the threshold; then no answer and the result "Stopped due to N consecutive failures" |
| AgentProperties.EarlierStepsContinue | src/agent_framework/agent/agent.py:137-166 | no step before the last completed or hit the threshold, so no `generate` follows an ending step |
| AgentScenarios.MockSeesInstruction | src/agent_framework/llms/mock_llm.py:41-46 | at every step the mock matches against the lower-cased instruction |
| AgentScenarios.ScriptAnswersEveryStep | src/agent_framework/llms/mock_llm.py:48-55 | a matching script entry answers every step alike |
| AgentScenarios.AcceptedCallsReset | src/agent_framework/agent/agent.py:122-123 | calls that all succeed leave the counter at zero |
| AgentScenarios.QuietStepContinues | src/agent_framework/agent/agent.py:125-157 | an iteration with no text whose calls all succeed leaves the run going |
| AgentScenarios.QuietRunGoesOn | src/agent_framework/agent/agent.py:76-157 | a backend that always answers so never lets an iteration end the run |
| AgentScenarios.ScriptedLoopReachesMaxSteps | tests/test_agent.py:43-73 | a matched reply with no text whose calls succeed runs to max_steps_reached, with one step per iteration and no answer |
| AgentScenarios.ScriptedAnswerCompletes | tests/test_agent.py:76-97 | a matched reply with text and no calls completes in one step with that text as the answer |
| AgentScenarios.DefaultCallFails | src/agent_framework/llms/mock_llm.py:57-70 | with no match the mock calls the first tool without arguments, and that call fails |
| AgentScenarios.DefaultCallsCount | src/agent_framework/agent/agent.py:120-126 | each such iteration adds one failure, and the run goes on below the threshold |
| AgentScenarios.DefaultCallsFailRun | src/agent_framework/agent/agent.py:125-141 | such a run fails after exactly `max_failures` steps, with the count in its result |
| AgentScenarios.DefaultEchoCallsFailRun | tests/test_agent.py:22-40 | with echo first in the registry and no match, the run fails after `max_failures` steps |
| Agents.LLMAgent.constructor | src/agent_framework/agent/agent.py:36-58 | the given parts are kept; a missing memory or telemetry gets a fresh empty one with the default handler |
| Agents.LLMAgent.CallTool | src/agent_framework/agent/agent.py:95-115 | one call is built with the loop's defaults and run through the registry, between its start and end events |
| Agents.LLMAgent.ExecuteCalls | src/agent_framework/agent/agent.py:93-123 | the calls run in order; the messages, the counter and the events come out as the reference step says |
| Agents.LLMAgent.RunStep | src/agent_framework/agent/agent.py:76-171 | one iteration on the objects gives the reference iteration's conversation, counter, steps, events and verdict, and one `generate` call |
| Agents.LLMAgent.RunSteps | src/agent_framework/agent/agent.py:76-171 | the loop stops at the first verdict or at the budget, in the reference run's state |
| Agents.LLMAgent.Run | src/agent_framework/agent/agent.py:60-186 | the result's status, answer and trajectory, the backend's call count and the event log are exactly those of the reference run |
| A2A.SubtaskOf | src/agent_framework/a2a/coordinator.py:85-90 | subtask `i` has id "<task id>_sub_<i>", the entry's instruction, its context when given (else {}) and its step budget when given (else 5) |
| A2A.SubtaskIdsDistinct | src/agent_framework/a2a/coordinator.py:86 | subtasks at different positions get different ids |
| A2A.SubtaskIndexInId | src/agent_framework/a2a/coordinator.py:86 | the id is "<task id>_sub_" followed by the numeral of the position |
| A2A.Route | src/agent_framework/a2a/coordinator.py:92-102 | "main" selects the main agent; another registered name selects its own specialist; none iff the name is neither |
| A2A.MainShadowsSpecialist | src/agent_framework/a2a/coordinator.py:94-95 | a specialist registered as "main" is never reached |
| A2A.Entry | src/agent_framework/a2a/coordinator.py:96-107 | an entry carries the instruction; after a run, that run's answer and status; with no agent, no answer and status "failed" |
| A2A.A2ACoordinator.constructor | src/agent_framework/a2a/coordinator.py:22-31 | a missing or empty specialist dict means no specialists |
| A2A.A2ACoordinator.RegisterSpecialist | src/agent_framework/a2a/coordinator.py:33-41 | adds the agent under the name, replacing any agent already there |
| A2A.A2ACoordinator.DelegateSubtask | src/agent_framework/a2a/coordinator.py:43-69 | an unknown name gives "Specialist '<name>' not found" and runs nothing; a known one passes on its run's status, answer and trajectory |
| A2A.A2ACoordinator.RunSubtask | src/agent_framework/a2a/coordinator.py:84-107 | one subtask runs on the agent its name selects and gives the entry of that run, which starts from the selected backend's call count just before it |
| A2A.A2ACoordinator.CoordinateTask | src/agent_framework/a2a/coordinator.py:71-113 | one entry per decomposition entry, in order, each from the run of its subtask on the selected agent; the task id is echoed and the status is always "completed" |

## Left out

- Wall-clock time: `datetime.now()` readings are parameters (`Timestamp`) supplied by the caller. Event timestamps, step timestamps, `latency_ms` and the span's measured duration are not modelled. Every subtask of `coordinate_task` is given the same start and end readings.
- The default telemetry handler's `print(json.dumps(...))`, and logger.py: console output. A handler call is recorded as a delivery; what a handler does is not modelled, and neither is a handler that raises.
- Float arithmetic: floats are exact reals, so `/` and float operands do not round as IEEE doubles do.
- `str()` and `repr()` of values follow Python's layout for None, booleans, integers, strings, lists and dicts, without escaping of quotes or special characters inside strings.
- Values.Str: a float prints as Python does only when it is integral and below 1e16 (`7.0`). A non-integral float, such as the 3.5 a calculator division returns, renders as the placeholder `<float>` where Python prints `3.5`. An integral float of 1e16 or more renders in positional form (`10000000000000000.0`) where Python prints `1e+16`. Such renderings reach tool messages and the formatted tool results. The cause is that floats are exact reals here, and Python's shortest round-trip float printing is not modelled.
- Monitoring.Telemetry.GetEvents: returns the log as a value. In the source, `get_events()` without a type returns the live list, so a list obtained earlier grows with later emits and is emptied by `clear()`. That aliasing is not modelled.
- `str.lower()` lowers ASCII letters only.
- Pydantic validation and `model_dump`: records are Dafny datatypes, and the serialised trajectory is a record, not a nested dict.
- A `KeyError` from a decomposition entry without "instruction" in `coordinate_task`: the entry type always has an instruction.
- The agent's memory object is kept but never used by the loop, as in the source.
- ollama_llm.py, mcp/client.py, a2a/client.py and a2a/protocol.py: network placeholders and schemas with no behaviour. human_in_the_loop.py: a foreign callback plus console output.
- Monitoring.Span.Exit: leaving a span that was never entered (a `TypeError` in the source) is excluded by its precondition.
- Monitoring.Span.constructor: the span keeps the caller's data dict by value, so later changes by the caller to that dict are not seen.
- A2A.A2ACoordinator.constructor: the specialist dict is copied by value, so the caller's later changes to its own dict do not reach the coordinator.
- A2A.A2ACoordinator.CoordinateTask: each backend's call count before its subtask runs is a ghost output, not computed from the earlier subtasks' runs on the same backend.
- A2A.RunVerdict: gives no verdict for an agent whose registry is not well formed; the coordinator's invariant rules that case out.
- Agents.LLMAgent.Run: "`complete` is called exactly once" is stated through the trajectory's status and result equalling the verdict's, not as a call count.
- Math operands that are not numbers, such as strings or lists, fail with an error message; Python's sequence repetition and concatenation for them are not modelled.
