/**
 * The reference semantics of the agent's processing loop: what one run
 * produces, step by step, as a pure function of the backend's behaviour, the
 * registered tools and the task.
 */
module AgentLoop {
  import opened Wrappers
  import opened Text
  import opened Values
  import opened Dicts
  import opened Messages
  import opened ToolCalls
  import opened ToolCallResults
  import opened Tasks
  import opened Tools
  import opened Llm
  import opened Registry
  import opened Trajectories
  import opened Monitoring

  const SYSTEM_PROMPT := "You are a helpful AI agent. Use the available tools to complete tasks."
  const MAX_STEPS_MESSAGE := "Max steps reached"

  /** `_build_initial_messages`: the system prompt, then the instruction as the user's entry. */
  function InitialMessages(task: Task): (ms: seq<Message>)
    ensures |ms| == 2
    ensures ms[0] == Message("system", SYSTEM_PROMPT)
    ensures ms[1] == Message("user", task.instruction)
  {
    [Message("system", SYSTEM_PROMPT), Message("user", task.instruction)]
  }

  /** Python truthiness of an optional string: present and non-empty. */
  predicate HasText(content: Option<string>) {
    content.Some? && content.value != ""
  }

  /**
   * `_is_complete`: finish reason "stop" with non-empty content. Tool calls
   * in the same response do not matter.
   */
  function IsComplete(r: LLMResponse): (b: bool)
    ensures b <==> r.finishReason == Some("stop") && HasText(r.content)
  {
    r.finishReason == Some("stop") && HasText(r.content)
  }

  /** Whether a response completes the run does not depend on the tool calls it also asks for. */
  lemma CompletionIgnoresCalls(r: LLMResponse, cs: seq<ToolCallDict>)
    ensures IsComplete(r.(toolCalls := cs)) == IsComplete(r)
  {
  }

  /** The message after the failure threshold is reached. */
  function FailureMessage(failures: nat): string {
    "Stopped due to " + NatToString(failures) + " consecutive failures"
  }

  // Lifecycle events with their data dicts.

  function TaskStartEvent(taskId: string): Event {
    Event("task_start", Dict(["task_id"], map["task_id" := VStr(taskId)]))
  }

  function StepStartEvent(step: nat, taskId: string): Event {
    Event("step_start", Dict(["step", "task_id"], map["step" := VInt(step), "task_id" := VStr(taskId)]))
  }

  function StepEndEvent(step: nat, taskId: string): Event {
    Event("step_end", Dict(["step", "task_id"], map["step" := VInt(step), "task_id" := VStr(taskId)]))
  }

  function ToolStartEvent(tool: string, step: nat): Event {
    Event("tool_call_start", Dict(["tool", "step"], map["tool" := VStr(tool), "step" := VInt(step)]))
  }

  function ToolEndEvent(tool: string, success: bool, step: nat): Event {
    Event("tool_call_end", Dict(["tool", "success", "step"],
      map["tool" := VStr(tool), "success" := VBool(success), "step" := VInt(step)]))
  }

  function TaskEndEvent(taskId: string, status: string): Event {
    Event("task_end", Dict(["task_id", "status"], map["task_id" := VStr(taskId), "status" := VStr(status)]))
  }

  /**
   * Everything a run depends on: the backend, its call count before the run,
   * the registered tools and their catalog, the task and the failure budget.
   */
  datatype Config = Config(
    respond: Generator,
    firstCall: nat,
    tools: map<string, Tool>,
    catalog: seq<CatalogEntry>,
    task: Task,
    maxFailures: int)

  /** How a run ended: the status, the trajectory's final result and the final answer. */
  datatype Verdict = Verdict(status: string, finalResult: Value, finalAnswer: Option<string>)

  /**
   * The state of a run between steps: the conversation, the recorded steps,
   * the events emitted, the consecutive-failure counter and, once the run has
   * ended, its verdict.
   */
  datatype Progress = Progress(
    messages: seq<Message>,
    steps: seq<TrajectoryStep>,
    events: seq<Event>,
    failures: nat,
    verdict: Option<Verdict>)

  /** A tool-call dict as the loop reads it: a missing id becomes "call_<step>". */
  function ToolCallOf(raw: ToolCallDict, step: nat): (c: ToolCall)
    ensures c.id == (if raw.id.Some? then raw.id.value else "call_" + NatToString(step))
    ensures c.name == (if raw.name.Some? then raw.name.value else "")
    ensures c.arguments == (if raw.arguments.Some? then raw.arguments.value else map[])
  {
    ToolCall(raw.id.GetOr("call_" + NatToString(step)), raw.name.GetOr(""), raw.arguments.GetOr(map[]))
  }

  /** The calls of one response, in emission order. */
  function Calls(raws: seq<ToolCallDict>, step: nat): (cs: seq<ToolCall>)
    ensures |cs| == |raws| && forall j :: 0 <= j < |raws| ==> cs[j] == ToolCallOf(raws[j], step)
  {
    seq(|raws|, j requires 0 <= j < |raws| => ToolCallOf(raws[j], step))
  }

  /** Their results, each executed against the registry. */
  function Results(tools: map<string, Tool>, calls: seq<ToolCall>): (rs: seq<ToolCallResult>)
    ensures |rs| == |calls| && forall j :: 0 <= j < |calls| ==> rs[j] == ExecuteWith(tools, calls[j])
  {
    seq(|calls|, j requires 0 <= j < |calls| => ExecuteWith(tools, calls[j]))
  }

  /** One "tool" message per result, in order. */
  function ToolMessages(rs: seq<ToolCallResult>): (ms: seq<Message>)
    ensures |ms| == |rs| && forall j :: 0 <= j < |rs| ==> ms[j] == rs[j].ToMessage()
  {
    seq(|rs|, j requires 0 <= j < |rs| => rs[j].ToMessage())
  }

  /** A start and an end event per call, in order. */
  function ToolEvents(tools: map<string, Tool>, calls: seq<ToolCall>, step: nat): seq<Event>
    decreases |calls|
  {
    if calls == [] then []
    else
      var c := calls[|calls| - 1];
      ToolEvents(tools, calls[..|calls| - 1], step)
      + [ToolStartEvent(c.name, step), ToolEndEvent(c.name, !ExecuteWith(tools, c).isError, step)]
  }

  /** The consecutive-failure counter after `rs`, starting from `f`: +1 per error, 0 on success. */
  function Trail(f: nat, rs: seq<ToolCallResult>): nat
    decreases |rs|
  {
    if rs == [] then f
    else if rs[|rs| - 1].isError then Trail(f, rs[..|rs| - 1]) + 1
    else 0
  }

  /** The response to the step `step` of a run in state `p`. */
  function Response(cfg: Config, p: Progress, step: nat): LLMResponse {
    cfg.respond(cfg.firstCall + step + 1, p.messages, cfg.catalog)
  }

  /** The state before the first step: the initial conversation and the task_start event. */
  function Start(cfg: Config): Progress {
    Progress(InitialMessages(cfg.task), [], [TaskStartEvent(cfg.task.id)], 0, None)
  }

  /** The state after `n` iterations of `for step_idx in range(...)`. */
  function Steps(cfg: Config, n: nat): Progress
    decreases n, 0
  {
    if n == 0 then Start(cfg) else Next(cfg, n - 1)
  }

  /** Iteration `n` if the run is still going; an ended run stays put. */
  function Next(cfg: Config, n: nat): Progress
    decreases n, 2
  {
    var p := Steps(cfg, n);
    if p.verdict.Some? then p else StepOf(cfg, n)
  }

  /**
   * Iteration `n` of the loop, from the state `Steps(cfg, n)`: ask the
   * backend, run its tool calls in order, then either stop on the failure
   * threshold (checked only when there were tool calls), or record the step
   * and stop if the response is complete.
   */
  function StepOf(cfg: Config, n: nat): (q: Progress)
    decreases n, 1
  {
    var p := Steps(cfg, n);
    var r := Response(cfg, p, n);
    var calls := Calls(r.toolCalls, n);
    var results := Results(cfg.tools, calls);
    var failures := Trail(p.failures, results);
    var messages := p.messages + ToolMessages(results);
    var events := p.events + [StepStartEvent(n, cfg.task.id)] + ToolEvents(cfg.tools, calls, n);
    var record := TrajectoryStep(n, llmResponse := r.content, toolCalls := calls, toolResults := results);
    var steps := p.steps + [record];
    if r.toolCalls != [] && failures >= cfg.maxFailures then
      Progress(messages, steps, events + [TaskEndEvent(cfg.task.id, FAILED)], failures,
        Some(Verdict(FAILED, VStr(FailureMessage(failures)), None)))
    else
      var messages' := if HasText(r.content) then messages + [Message("assistant", r.content.value)] else messages;
      var events' := events + [StepEndEvent(n, cfg.task.id)];
      if IsComplete(r) then
        Progress(messages', steps, events' + [TaskEndEvent(cfg.task.id, COMPLETED)], failures,
          Some(Verdict(COMPLETED, VStr(r.content.value), r.content)))
      else
        Progress(messages', steps, events', failures, None)
  }

  /** The whole run: the loop, then the max-steps ending if no step ended it. */
  function Final(cfg: Config): (q: Progress)
    ensures q.verdict.Some?
  {
    var p := Steps(cfg, StepBudget(cfg.task));
    if p.verdict.Some? then p
    else Progress(p.messages, p.steps, p.events + [TaskEndEvent(cfg.task.id, MAX_STEPS_REACHED)], p.failures,
      Some(Verdict(MAX_STEPS_REACHED, VStr(MAX_STEPS_MESSAGE), None)))
  }

  /** Once a run has ended, further iterations change nothing. */
  lemma {:induction false} StepsStable(cfg: Config, m: nat, n: nat)
    requires m <= n && Steps(cfg, m).verdict.Some?
    ensures Steps(cfg, n) == Steps(cfg, m)
    decreases n - m
  {
    if m < n {
      StepsStable(cfg, m, n - 1);
      assert Steps(cfg, n) == Next(cfg, n - 1);
    }
  }

  /** The failure threshold is reached in iteration `n`: there were tool calls, and the counter hit the limit. */
  predicate FailsAt(cfg: Config, n: nat) {
    var p := Steps(cfg, n);
    var r := Response(cfg, p, n);
    r.toolCalls != [] && Trail(p.failures, Results(cfg.tools, Calls(r.toolCalls, n))) >= cfg.maxFailures
  }

  /** Iteration `n` of a run still going, spelled out field by field. */
  lemma StepShape(cfg: Config, n: nat)
    requires Steps(cfg, n).verdict.None?
    ensures var p := Steps(cfg, n); var r := Response(cfg, p, n); var calls := Calls(r.toolCalls, n);
      var results := Results(cfg.tools, calls); var q := Steps(cfg, n + 1);
      var events := p.events + [StepStartEvent(n, cfg.task.id)] + ToolEvents(cfg.tools, calls, n);
      && q.steps == p.steps + [TrajectoryStep(n, llmResponse := r.content, toolCalls := calls, toolResults := results)]
      && q.failures == Trail(p.failures, results)
      && (FailsAt(cfg, n) ==>
            q.messages == p.messages + ToolMessages(results)
            && q.events == events + [TaskEndEvent(cfg.task.id, FAILED)]
            && q.verdict == Some(Verdict(FAILED, VStr(FailureMessage(q.failures)), None)))
      && (!FailsAt(cfg, n) ==>
            q.messages == p.messages + ToolMessages(results)
              + (if HasText(r.content) then [Message("assistant", r.content.value)] else [])
            && q.events == events + [StepEndEvent(n, cfg.task.id)]
              + (if IsComplete(r) then [TaskEndEvent(cfg.task.id, COMPLETED)] else [])
            && q.verdict == (if IsComplete(r) then Some(Verdict(COMPLETED, VStr(r.content.value), r.content)) else None))
  {
    assert Steps(cfg, n + 1) == Next(cfg, n) == StepOf(cfg, n);
    var p := Steps(cfg, n);
    var r := Response(cfg, p, n);
    var base := p.messages + ToolMessages(Results(cfg.tools, Calls(r.toolCalls, n)));
    var events := p.events + [StepStartEvent(n, cfg.task.id)] + ToolEvents(cfg.tools, Calls(r.toolCalls, n), n) + [StepEndEvent(n, cfg.task.id)];
    assert base + [] == base && events + [] == events;
  }

  /** An iteration leaves the run going exactly when it neither hits the failure threshold nor completes. */
  lemma StepVerdict(cfg: Config, n: nat)
    requires Steps(cfg, n).verdict.None?
    ensures Steps(cfg, n + 1).verdict.None? <==> !FailsAt(cfg, n) && !IsComplete(Response(cfg, Steps(cfg, n), n))
  {
    StepShape(cfg, n);
  }

  /** An ended run stays ended: the state one iteration later is the same. */
  lemma StepsAfterEnd(cfg: Config, n: nat)
    requires Steps(cfg, n).verdict.Some?
    ensures Steps(cfg, n + 1) == Steps(cfg, n)
  {
    assert Steps(cfg, n + 1) == Next(cfg, n);
  }

  /**
   * Every iteration of a run still going records exactly one step at the
   * end: its index, the response text, and the calls and results it ran.
   */
  lemma StepRecord(cfg: Config, n: nat)
    requires Steps(cfg, n).verdict.None?
    ensures var p := Steps(cfg, n); var r := Response(cfg, p, n); var calls := Calls(r.toolCalls, n);
      Steps(cfg, n + 1).steps
      == p.steps + [TrajectoryStep(n, llmResponse := r.content, toolCalls := calls, toolResults := Results(cfg.tools, calls))]
  {
    assert Steps(cfg, n + 1) == Next(cfg, n) == StepOf(cfg, n);
  }

  /**
   * The recorded steps are numbered by their position; a run still going
   * after `n` iterations has recorded exactly `n` steps, and never more.
   */
  lemma {:induction false} StepsIndexed(cfg: Config, n: nat)
    ensures |Steps(cfg, n).steps| <= n
    ensures Steps(cfg, n).verdict.None? ==> |Steps(cfg, n).steps| == n
    ensures n > 0 && Steps(cfg, n - 1).verdict.None? ==> |Steps(cfg, n).steps| == n
    ensures forall i :: 0 <= i < |Steps(cfg, n).steps| ==> Steps(cfg, n).steps[i].stepIndex == i
  {
    if n > 0 {
      StepsIndexed(cfg, n - 1);
      if Steps(cfg, n - 1).verdict.None? {
        StepRecord(cfg, n - 1);
      } else {
        assert Steps(cfg, n) == Next(cfg, n - 1) == Steps(cfg, n - 1);
      }
    }
  }

  // One more tool call extends each of the per-call sequences by one entry.

  lemma CallsSnoc(raws: seq<ToolCallDict>, j: nat, step: nat)
    requires j < |raws|
    ensures Calls(raws[..j + 1], step) == Calls(raws[..j], step) + [ToolCallOf(raws[j], step)]
  {
  }

  lemma ResultsSnoc(tools: map<string, Tool>, calls: seq<ToolCall>, c: ToolCall)
    ensures Results(tools, calls + [c]) == Results(tools, calls) + [ExecuteWith(tools, c)]
  {
  }

  lemma ToolMessagesSnoc(rs: seq<ToolCallResult>, r: ToolCallResult)
    ensures ToolMessages(rs + [r]) == ToolMessages(rs) + [r.ToMessage()]
  {
  }

  lemma ToolEventsSnoc(tools: map<string, Tool>, calls: seq<ToolCall>, c: ToolCall, step: nat)
    ensures ToolEvents(tools, calls + [c], step)
         == ToolEvents(tools, calls, step) + [ToolStartEvent(c.name, step), ToolEndEvent(c.name, !ExecuteWith(tools, c).isError, step)]
  {
    assert (calls + [c])[..|calls|] == calls;
  }

  lemma TrailSnoc(f: nat, rs: seq<ToolCallResult>, r: ToolCallResult)
    ensures Trail(f, rs + [r]) == if r.isError then Trail(f, rs) + 1 else 0
  {
    assert (rs + [r])[..|rs|] == rs;
  }

  /**
   * One iteration of the inner tool-call loop extends the calls, results,
   * tool messages, failure counter and events of a step by exactly one call.
   */
  lemma NextCall(cfg: Config, raws: seq<ToolCallDict>, j: nat, step: nat, f0: nat, m0: seq<Message>, evs0: seq<Event>,
                 calls: seq<ToolCall>, results: seq<ToolCallResult>, call: ToolCall, result: ToolCallResult)
    requires j < |raws| && calls == Calls(raws[..j], step) && results == Results(cfg.tools, calls)
    requires call == ToolCallOf(raws[j], step) && result == ExecuteWith(cfg.tools, call)
    ensures calls + [call] == Calls(raws[..j + 1], step)
    ensures results + [result] == Results(cfg.tools, calls + [call])
    ensures m0 + ToolMessages(results) + [result.ToMessage()] == m0 + ToolMessages(results + [result])
    ensures (if result.isError then Trail(f0, results) + 1 else 0) == Trail(f0, results + [result])
    ensures evs0 + ToolEvents(cfg.tools, calls, step) + [ToolStartEvent(call.name, step)] + [ToolEndEvent(call.name, !result.isError, step)]
         == evs0 + ToolEvents(cfg.tools, calls + [call], step)
  {
    CallsSnoc(raws, j, step);
    ResultsSnoc(cfg.tools, calls, call);
    NextMessages(m0, results, result);
    TrailSnoc(f0, results, result);
    NextEvents(cfg.tools, evs0, calls, call, result, step);
  }

  /** The conversation after one more tool result: one more tool message at the end. */
  lemma NextMessages(m0: seq<Message>, results: seq<ToolCallResult>, result: ToolCallResult)
    ensures m0 + ToolMessages(results) + [result.ToMessage()] == m0 + ToolMessages(results + [result])
  {
    ToolMessagesSnoc(results, result);
  }

  /** The events after one more tool call: its start and end events at the end. */
  lemma NextEvents(tools: map<string, Tool>, evs0: seq<Event>, calls: seq<ToolCall>, call: ToolCall, result: ToolCallResult, step: nat)
    requires result == ExecuteWith(tools, call)
    ensures evs0 + ToolEvents(tools, calls, step) + [ToolStartEvent(call.name, step)] + [ToolEndEvent(call.name, !result.isError, step)]
         == evs0 + ToolEvents(tools, calls + [call], step)
  {
    ToolEventsSnoc(tools, calls, call, step);
  }

  // The shapes of one iteration, as the agent's own loop builds them.

  /** A response without tool calls runs nothing, answers nothing and emits no tool events. */
  lemma NoCalls(tools: map<string, Tool>, step: nat, f: nat, ms: seq<Message>, evs: seq<Event>)
    ensures Calls([], step) == [] && Results(tools, []) == [] && Trail(f, []) == f
    ensures ms + ToolMessages([]) == ms && evs + ToolEvents(tools, [], step) == evs
  {
    assert ms + [] == ms && evs + [] == evs;
  }

  /** An iteration whose tool calls reach the failure threshold ends the run as failed. */
  lemma FailingStep(cfg: Config, n: nat, calls: seq<ToolCall>, results: seq<ToolCallResult>)
    requires Steps(cfg, n).verdict.None?
    requires Response(cfg, Steps(cfg, n), n).toolCalls != []
    requires calls == Calls(Response(cfg, Steps(cfg, n), n).toolCalls, n) && results == Results(cfg.tools, calls)
    requires Trail(Steps(cfg, n).failures, results) >= cfg.maxFailures
    ensures var p := Steps(cfg, n); Steps(cfg, n + 1) == Progress(
      p.messages + ToolMessages(results),
      p.steps + [TrajectoryStep(n, llmResponse := Response(cfg, p, n).content, toolCalls := calls, toolResults := results)],
      p.events + [StepStartEvent(n, cfg.task.id)] + ToolEvents(cfg.tools, calls, n) + [TaskEndEvent(cfg.task.id, FAILED)],
      Trail(p.failures, results),
      Some(Verdict(FAILED, VStr(FailureMessage(Trail(p.failures, results))), None)))
  {
    assert Steps(cfg, n + 1) == Next(cfg, n) == StepOf(cfg, n);
  }

  /**
   * An iteration below the failure threshold records the step, adds the
   * answer to the conversation when there is text, and ends the run as
   * completed exactly when the response is complete.
   */
  lemma RecordedStep(cfg: Config, n: nat, calls: seq<ToolCall>, results: seq<ToolCallResult>,
                     base: seq<Message>, events: seq<Event>)
    requires Steps(cfg, n).verdict.None?
    requires calls == Calls(Response(cfg, Steps(cfg, n), n).toolCalls, n) && results == Results(cfg.tools, calls)
    requires Response(cfg, Steps(cfg, n), n).toolCalls != [] ==> Trail(Steps(cfg, n).failures, results) < cfg.maxFailures
    requires base == Steps(cfg, n).messages + ToolMessages(results)
    requires events == Steps(cfg, n).events + [StepStartEvent(n, cfg.task.id)] + ToolEvents(cfg.tools, calls, n) + [StepEndEvent(n, cfg.task.id)]
    ensures var p := Steps(cfg, n); var r := Response(cfg, p, n); var q := Steps(cfg, n + 1);
      && q.messages == (if HasText(r.content) then base + [Message("assistant", r.content.value)] else base)
      && q.steps == p.steps + [TrajectoryStep(n, llmResponse := r.content, toolCalls := calls, toolResults := results)]
      && q.failures == Trail(p.failures, results)
      && (IsComplete(r) ==>
           q.events == events + [TaskEndEvent(cfg.task.id, COMPLETED)]
           && q.verdict == Some(Verdict(COMPLETED, VStr(r.content.value), r.content)))
      && (!IsComplete(r) ==> q.events == events && q.verdict.None?)
  {
    assert Steps(cfg, n + 1) == Next(cfg, n) == StepOf(cfg, n);
  }

  /** A run that ends at iteration `n` within the budget ends with that state. */
  lemma FinalAt(cfg: Config, n: nat)
    requires n <= StepBudget(cfg.task) && Steps(cfg, n).verdict.Some?
    ensures Final(cfg) == Steps(cfg, n)
  {
    StepsStable(cfg, n, StepBudget(cfg.task));
  }
}
