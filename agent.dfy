/** The agent: drives the backend and the tools step by step and records what happened. */
module Agents {
  import opened Wrappers
  import opened Dicts
  import opened Tools
  import opened Values
  import opened Messages
  import opened ToolCalls
  import opened ToolCallResults
  import opened Tasks
  import opened Llm
  import opened Registry
  import opened Trajectories
  import opened Monitoring
  import opened AgentMemory
  import opened AgentLoop

  /** What `run` returns: the task id, the trajectory, the answer if completed, and the status. */
  datatype AgentResult = AgentResult(
    taskId: string,
    trajectory: Trajectory,
    finalAnswer: Option<string>,
    status: string)

  class LLMAgent {
    const llm: LanguageModel
    const registry: ToolRegistry
    const memory: Memory
    const telemetry: Telemetry
    const maxFailures: int

    /**
     * `LLMAgent(llm, tool_registry, memory, telemetry, max_failures)`: a missing
     * memory or telemetry gets a new one (a new telemetry with the default
     * handler); at most 3 consecutive failures by default.
     */
    constructor (llm: LanguageModel, registry: ToolRegistry, memory: Option<Memory>, telemetry: Option<Telemetry>, maxFailures: int := 3)
      ensures this.llm == llm && this.registry == registry && this.maxFailures == maxFailures
      ensures memory.Some? ==> this.memory == memory.value
      ensures memory.None? ==> fresh(this.memory) && this.memory.store.keys == []
      ensures telemetry.Some? ==> this.telemetry == telemetry.value
      ensures telemetry.None? ==> fresh(this.telemetry) && this.telemetry.handlers == [DefaultHandler] && this.telemetry.events == []
    {
      this.llm := llm;
      this.registry := registry;
      this.maxFailures := maxFailures;
      if memory.Some? {
        this.memory := memory.value;
      } else {
        this.memory := new Memory();
      }
      if telemetry.Some? {
        this.telemetry := telemetry.value;
      } else {
        this.telemetry := new Telemetry(None);
      }
    }

    /** The inputs of a run with the registry holding `tools` and the backend's call count `firstCall` before it. */
    ghost function SetupWith(tools: Dict<Tool>, firstCall: nat, task: Task): (cfg: Config)
      requires tools.Valid()
    {
      Config(llm.respond, firstCall, tools.entries, CatalogOf(tools), task, maxFailures)
    }

    /** The inputs of a run, with the backend's call count `firstCall` before it. */
    ghost function Setup(firstCall: nat, task: Task): (cfg: Config)
      reads registry
      requires registry.Valid()
    {
      SetupWith(registry.tools, firstCall, task)
    }

    /**
     * One tool call of a step: built from its dict, announced, executed
     * against the registry, and reported with its success.
     */
    method CallTool(raw: ToolCallDict, step: nat, ghost cfg: Config, ghost e0: seq<Event>, ghost d0: seq<Delivery>, ghost evs: seq<Event>)
      returns (call: ToolCall, result: ToolCallResult)
      requires registry.Valid() && cfg.tools == registry.tools.entries
      requires Logged(telemetry, e0, d0, evs)
      modifies telemetry
      ensures call == ToolCallOf(raw, step) && result == ExecuteWith(cfg.tools, call)
      ensures Logged(telemetry, e0, d0, evs + [ToolStartEvent(call.name, step)] + [ToolEndEvent(call.name, !result.isError, step)])
      ensures telemetry.handlers == old(telemetry.handlers)
    {
      call := ToolCallOf(raw, step);
      EmitAfter(telemetry, ToolStartEvent(call.name, step), e0, d0, evs);
      result := registry.Execute(call);
      EmitAfter(telemetry, ToolEndEvent(call.name, !result.isError, step), e0, d0, evs + [ToolStartEvent(call.name, step)]);
    }

    /**
     * The inner `for tc_dict in llm_response.tool_calls` loop of one step:
     * every call built, executed and answered in emission order, the failure
     * counter carried on from `failures0`.
     */
    method ExecuteCalls(raws: seq<ToolCallDict>, step: nat, messages0: seq<Message>, failures0: nat,
                        ghost cfg: Config, ghost e0: seq<Event>, ghost d0: seq<Delivery>, ghost evs0: seq<Event>)
      returns (calls: seq<ToolCall>, results: seq<ToolCallResult>, messages: seq<Message>, failures: nat)
      requires registry.Valid() && cfg.tools == registry.tools.entries
      requires Logged(telemetry, e0, d0, evs0)
      modifies telemetry
      ensures calls == Calls(raws, step) && results == Results(cfg.tools, calls)
      ensures messages == messages0 + ToolMessages(results) && failures == Trail(failures0, results)
      ensures Logged(telemetry, e0, d0, evs0 + ToolEvents(cfg.tools, calls, step))
      ensures telemetry.handlers == old(telemetry.handlers)
    {
      calls, results, messages, failures := [], [], messages0, failures0;
      assert evs0 + ToolEvents(cfg.tools, [], step) == evs0;
      for j := 0 to |raws|
        invariant calls == Calls(raws[..j], step) && results == Results(cfg.tools, calls)
        invariant messages == messages0 + ToolMessages(results) && failures == Trail(failures0, results)
        invariant Logged(telemetry, e0, d0, evs0 + ToolEvents(cfg.tools, calls, step))
        invariant telemetry.handlers == old(telemetry.handlers)
      {
        var call, result := CallTool(raws[j], step, cfg, e0, d0, evs0 + ToolEvents(cfg.tools, calls, step));
        NextCall(cfg, raws, j, step, failures0, messages0, evs0, calls, results, call, result);
        calls := calls + [call];
        results := results + [result];
        messages := messages + [result.ToMessage()];
        if result.isError {
          failures := failures + 1;
        } else {
          failures := 0;
        }
      }
      assert raws[..|raws|] == raws;
    }

    /**
     * One iteration of `run`'s step loop: the step_start event, one backend
     * call, the tool calls, then the failure check, the step record and the
     * completion check. The new conversation, counter, trajectory, events
     * and verdict are those of iteration `step` of the reference run.
     */
    method RunStep(task: Task, step: nat, messages0: seq<Message>, failures0: nat, trajectory: Trajectory, endedAt: Timestamp,
                   ghost cfg: Config, ghost e0: seq<Event>, ghost d0: seq<Delivery>)
      returns (messages: seq<Message>, failures: nat, verdict: Option<Verdict>)
      requires registry.Valid() && cfg == Setup(cfg.firstCall, task) && llm.callCount == cfg.firstCall + step
      requires Steps(cfg, step).verdict.None?
      requires messages0 == Steps(cfg, step).messages && failures0 == Steps(cfg, step).failures
      requires trajectory.steps == Steps(cfg, step).steps
      requires Logged(telemetry, e0, d0, Steps(cfg, step).events)
      modifies llm, telemetry, trajectory
      ensures var q := Steps(cfg, step + 1);
        && messages == q.messages && failures == q.failures && verdict == q.verdict
        && trajectory.steps == q.steps
        && Logged(telemetry, e0, d0, q.events)
      ensures verdict.None? ==>
        trajectory.status == old(trajectory.status) && trajectory.endTime == old(trajectory.endTime)
        && trajectory.finalResult == old(trajectory.finalResult)
      ensures verdict.Some? ==>
        trajectory.status == verdict.value.status && trajectory.endTime == Some(endedAt)
        && trajectory.finalResult == verdict.value.finalResult
      ensures llm.callCount == old(llm.callCount) + 1 && telemetry.handlers == old(telemetry.handlers)
    {
      ghost var p := Steps(cfg, step);
      EmitAfter(telemetry, StepStartEvent(step, task.id), e0, d0, p.events);
      ghost var evs1 := p.events + [StepStartEvent(step, task.id)];
      var tools := registry.ListForLLM();
      var r := llm.Generate(messages0, tools);
      assert r == Response(cfg, p, step);
      var calls: seq<ToolCall> := [];
      var results: seq<ToolCallResult> := [];
      messages, failures := messages0, failures0;
      if r.toolCalls != [] {
        calls, results, messages, failures := ExecuteCalls(r.toolCalls, step, messages, failures, cfg, e0, d0, evs1);
        if failures >= maxFailures {
          trajectory.AddStep(TrajectoryStep(step, llmResponse := r.content, toolCalls := calls, toolResults := results));
          trajectory.Complete(VStr(FailureMessage(failures)), endedAt, FAILED);
          EmitAfter(telemetry, TaskEndEvent(task.id, FAILED), e0, d0, evs1 + ToolEvents(cfg.tools, calls, step));
          FailingStep(cfg, step, calls, results);
          return messages, failures, Some(Verdict(FAILED, VStr(FailureMessage(failures)), None));
        }
      } else {
        NoCalls(cfg.tools, step, failures, messages, evs1);
      }
      ghost var base := messages;
      if HasText(r.content) {
        messages := messages + [Message("assistant", r.content.value)];
      }
      trajectory.AddStep(TrajectoryStep(step, llmResponse := r.content, toolCalls := calls, toolResults := results));
      EmitAfter(telemetry, StepEndEvent(step, task.id), e0, d0, evs1 + ToolEvents(cfg.tools, calls, step));
      RecordedStep(cfg, step, calls, results, base, evs1 + ToolEvents(cfg.tools, calls, step) + [StepEndEvent(step, task.id)]);
      if IsComplete(r) {
        trajectory.Complete(VStr(r.content.value), endedAt, COMPLETED);
        EmitAfter(telemetry, TaskEndEvent(task.id, COMPLETED), e0, d0,
          evs1 + ToolEvents(cfg.tools, calls, step) + [StepEndEvent(step, task.id)]);
        verdict := Some(Verdict(COMPLETED, VStr(r.content.value), r.content));
      } else {
        verdict := None;
      }
    }

    /**
     * The loop of `run`: iterations from the first on, until one sets the
     * verdict or the budget is spent. Stops after `n` iterations, in the
     * state `Steps(cfg, n)`, with the trajectory completed exactly when a
     * verdict was reached.
     */
    method RunSteps(task: Task, trajectory: Trajectory, endedAt: Timestamp, ghost cfg: Config, ghost e0: seq<Event>, ghost d0: seq<Delivery>)
      returns (n: nat, verdict: Option<Verdict>)
      requires registry.Valid() && cfg == Setup(cfg.firstCall, task) && llm.callCount == cfg.firstCall
      requires trajectory.steps == [] && trajectory.status == IN_PROGRESS
      requires trajectory.endTime == None && trajectory.finalResult == VNull
      requires Logged(telemetry, e0, d0, Steps(cfg, 0).events)
      modifies llm, telemetry, trajectory
      ensures n <= StepBudget(task) && verdict == Steps(cfg, n).verdict
      ensures verdict.None? ==> n == StepBudget(task)
      ensures trajectory.steps == Steps(cfg, n).steps && |trajectory.steps| == n
      ensures Logged(telemetry, e0, d0, Steps(cfg, n).events) && telemetry.handlers == old(telemetry.handlers)
      ensures llm.callCount == cfg.firstCall + n
      ensures verdict.None? ==>
        trajectory.status == IN_PROGRESS && trajectory.endTime == None && trajectory.finalResult == VNull
      ensures verdict.Some? ==>
        trajectory.status == verdict.value.status && trajectory.endTime == Some(endedAt)
        && trajectory.finalResult == verdict.value.finalResult
    {
      var messages := InitialMessages(task);
      var failures: nat := 0;
      var budget := StepBudget(task);
      n := 0;
      while n < budget
        invariant n <= budget && Steps(cfg, n).verdict.None?
        invariant messages == Steps(cfg, n).messages && failures == Steps(cfg, n).failures
        invariant trajectory.steps == Steps(cfg, n).steps
        invariant trajectory.status == IN_PROGRESS && trajectory.endTime == None && trajectory.finalResult == VNull
        invariant Logged(telemetry, e0, d0, Steps(cfg, n).events) && telemetry.handlers == old(telemetry.handlers)
        invariant llm.callCount == cfg.firstCall + n
      {
        messages, failures, verdict := RunStep(task, n, messages, failures, trajectory, endedAt, cfg, e0, d0);
        if verdict.Some? {
          StepsIndexed(cfg, n + 1);
          return n + 1, verdict;
        }
        n := n + 1;
      }
      StepsIndexed(cfg, n);
      verdict := None;
    }

    /**
     * `run(task)`: the trajectory, the status, the answer, the backend calls
     * and the events are exactly those of the reference run `Final` for this
     * agent's backend, tools and failure budget. The clock readings at the
     * start and the end are parameters.
     */
    method Run(task: Task, startedAt: Timestamp, endedAt: Timestamp) returns (res: AgentResult)
      requires registry.Valid()
      modifies llm, telemetry
      ensures fresh(res.trajectory)
      ensures var out := Final(Setup(old(llm.callCount), task));
        && res.taskId == task.id
        && res.status == out.verdict.value.status
        && res.finalAnswer == out.verdict.value.finalAnswer
        && res.trajectory.taskId == task.id && res.trajectory.startTime == startedAt
        && res.trajectory.steps == out.steps
        && res.trajectory.status == out.verdict.value.status
        && res.trajectory.finalResult == out.verdict.value.finalResult
        && res.trajectory.endTime == Some(endedAt)
        && llm.callCount == old(llm.callCount) + |out.steps|
        && Logged(telemetry, old(telemetry.events), old(telemetry.deliveries), out.events)
      ensures telemetry.handlers == old(telemetry.handlers)
    {
      ghost var cfg := Setup(llm.callCount, task);
      ghost var e0, d0 := telemetry.events, telemetry.deliveries;
      var trajectory := new Trajectory(task.id, startedAt);
      assert Logged(telemetry, e0, d0, []);
      EmitAfter(telemetry, TaskStartEvent(task.id), e0, d0, []);
      var n, verdict := RunSteps(task, trajectory, endedAt, cfg, e0, d0);
      if verdict.Some? {
        FinalAt(cfg, n);
        return AgentResult(task.id, trajectory, verdict.value.finalAnswer, verdict.value.status);
      }
      trajectory.Complete(VStr(MAX_STEPS_MESSAGE), endedAt, MAX_STEPS_REACHED);
      EmitAfter(telemetry, TaskEndEvent(task.id, MAX_STEPS_REACHED), e0, d0, Steps(cfg, n).events);
      return AgentResult(task.id, trajectory, None, MAX_STEPS_REACHED);
    }
  }
}
