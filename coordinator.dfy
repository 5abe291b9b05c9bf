/**
 * The A2A coordinator: splits a task into subtasks, runs them one after
 * another on the main agent or on named specialist agents, and gathers one
 * result entry per subtask.
 */
module A2A {
  import opened Wrappers
  import opened Dicts
  import opened Tools
  import opened Text
  import opened Values
  import opened Tasks
  import opened Trajectories
  import opened AgentLoop
  import opened Llm
  import opened Monitoring
  import opened Agents

  /** The specialist name that always means the main agent. */
  const MAIN := "main"

  /** The step budget of a subtask that does not set one. */
  const DEFAULT_SUBTASK_STEPS := 5

  /** One entry of a decomposition; every key but "instruction" may be missing. */
  datatype SubtaskDef = SubtaskDef(
    instruction: string,
    context: Option<Args> := None,
    maxSteps: Option<int> := None,
    specialist: Option<string> := None)

  /** What `delegate_subtask` returns: the not-found error, or the specialist's outcome and trajectory. */
  datatype Delegation =
    | NotFound(error: string)
    | Delegated(status: string, result: Option<string>, trajectory: TrajectoryData)
  {
    /** `result.get("status")`: the not-found error carries "failed". */
    function Status(): string {
      if NotFound? then FAILED else status
    }

    /** `result.get("result")`: the not-found error has none. */
    function Answer(): Option<string> {
      if NotFound? then None else result
    }
  }

  /** One entry of `subtask_results`: the instruction, the answer and the status. */
  datatype SubtaskResult = SubtaskResult(subtask: string, result: Option<string>, status: string)

  /** What `coordinate_task` returns. */
  datatype Coordination = Coordination(taskId: string, subtaskResults: seq<SubtaskResult>, status: string)

  /** The error text for a specialist name nobody registered. */
  function NotFoundMessage(name: string): string {
    "Specialist '" + name + "' not found"
  }

  /** The specialist a decomposition entry names; "main" when it names none. */
  function SpecialistOf(def: SubtaskDef): string {
    def.specialist.GetOr(MAIN)
  }

  /**
   * The `i`-th subtask of `task`: id "<task id>_sub_<i>", the entry's
   * instruction, its context or {} and its step budget or 5.
   */
  function SubtaskOf(task: Task, i: nat, def: SubtaskDef): (t: Task)
    ensures t.id == task.id + "_sub_" + NatToString(i)
    ensures t.instruction == def.instruction && t.metadata == map[]
    ensures def.context.Some? ==> t.context == def.context.value
    ensures def.context.None? ==> t.context == map[]
    ensures def.maxSteps.Some? ==> t.maxSteps == def.maxSteps.value
    ensures def.maxSteps.None? ==> t.maxSteps == DEFAULT_SUBTASK_STEPS
  {
    Task(task.id + "_sub_" + NatToString(i), def.instruction, def.context.GetOr(map[]), def.maxSteps.GetOr(DEFAULT_SUBTASK_STEPS), map[])
  }

  /** The text after a common prefix determines the whole. */
  lemma AfterPrefix(p: string, a: string, b: string)
    requires p + a == p + b
    ensures a == b
  {
    assert a == (p + a)[|p|..];
    assert b == (p + b)[|p|..];
  }

  /** Subtasks at different positions get different ids, whatever their entries. */
  lemma SubtaskIdsDistinct(task: Task, i: nat, j: nat, d: SubtaskDef, e: SubtaskDef)
    requires i != j
    ensures SubtaskOf(task, i, d).id != SubtaskOf(task, j, e).id
  {
    if SubtaskOf(task, i, d).id == SubtaskOf(task, j, e).id {
      AfterPrefix(task.id + "_sub_", NatToString(i), NatToString(j));
      NatToStringInjective(i, j);
    }
  }

  /** The subtask's position can be read back from its id: what follows "<task id>_sub_" is its numeral. */
  lemma SubtaskIndexInId(task: Task, i: nat, d: SubtaskDef)
    ensures var id := SubtaskOf(task, i, d).id; var n := |task.id| + 5;
      && n < |id| && id[..n] == task.id + "_sub_"
      && AllDigits(id[n..]) && ParseNat(id[n..]) == i
  {
    var id := SubtaskOf(task, i, d).id;
    assert id[|task.id| + 5..] == NatToString(i);
    NatToStringRoundTrip(i);
  }

  /**
   * The agent a specialist name selects: "main" is always the main agent,
   * even when a specialist is registered under that name; any other name is
   * looked up among the specialists.
   */
  function Route(main: LLMAgent, specialists: map<string, LLMAgent>, name: string): (a: Option<LLMAgent>)
    ensures name == MAIN ==> a == Some(main)
    ensures name != MAIN && name in specialists ==> a == Some(specialists[name])
    ensures a.None? <==> name != MAIN && name !in specialists
    ensures a.Some? ==> a.value == main || a.value in specialists.Values
  {
    if name == MAIN then Some(main)
    else if name in specialists then Some(specialists[name])
    else None
  }

  /** A specialist registered as "main" is never reached through a decomposition. */
  lemma MainShadowsSpecialist(main: LLMAgent, specialists: map<string, LLMAgent>, other: LLMAgent)
    ensures Route(main, specialists[MAIN := other], MAIN) == Some(main)
  {
  }

  /**
   * The verdict of a run of `agent` on `subtask` with its registry holding
   * `tools` and its backend having answered `firstCall` times before; none
   * without an agent. (The coordinator keeps every registry well formed.)
   */
  ghost function RunVerdict(agent: Option<LLMAgent>, tools: Dict<Tool>, firstCall: nat, subtask: Task): Option<Verdict> {
    if agent.Some? && tools.Valid() then Final(agent.value.SetupWith(tools, firstCall, subtask)).verdict else None
  }

  /** What the registry of `agent` holds; nothing without an agent. */
  ghost function ToolsOf(agent: Option<LLMAgent>): Dict<Tool>
    reads if agent.Some? then {agent.value.registry} else {}
  {
    if agent.Some? then agent.value.registry.tools else Empty()
  }

  /** The entry a subtask contributes: the run's answer and status, or no answer and "failed" without an agent. */
  function Entry(def: SubtaskDef, outcome: Option<Verdict>): (e: SubtaskResult)
    ensures e.subtask == def.instruction
    ensures outcome.None? ==> e.result.None? && e.status == FAILED
    ensures outcome.Some? ==> e.result == outcome.value.finalAnswer && e.status == outcome.value.status
  {
    match outcome
    case None => SubtaskResult(def.instruction, None, FAILED)
    case Some(v) => SubtaskResult(def.instruction, v.finalAnswer, v.status)
  }

  class A2ACoordinator {
    const mainAgent: LLMAgent
    var specialists: map<string, LLMAgent>

    /** `A2ACoordinator(main_agent, specialist_agents)`: a missing or empty dict means no specialists. */
    constructor (mainAgent: LLMAgent, specialists: Option<map<string, LLMAgent>>)
      ensures this.mainAgent == mainAgent
      ensures this.specialists == (if specialists.Some? then specialists.value else map[])
    {
      this.mainAgent := mainAgent;
      this.specialists := if specialists.Some? && specialists.value != map[] then specialists.value else map[];
    }

    /** Every agent the coordinator can run has a well-formed registry. */
    ghost predicate Valid()
      reads this, mainAgent.registry, set a | a in specialists.Values :: a.registry
    {
      && mainAgent.registry.Valid()
      && forall a :: a in specialists.Values ==> a.registry.Valid()
    }

    /** The backends the coordinator's agents call when they run. */
    ghost function Backends(): set<LanguageModel>
      reads this
    {
      {mainAgent.llm} + set a | a in specialists.Values :: a.llm
    }

    /** The telemetries the coordinator's agents emit to when they run. */
    ghost function Monitors(): set<Telemetry>
      reads this
    {
      {mainAgent.telemetry} + set a | a in specialists.Values :: a.telemetry
    }

    /** `register_specialist`: adds the agent under `name`, replacing any agent already there. */
    method RegisterSpecialist(name: string, agent: LLMAgent)
      requires Valid() && agent.registry.Valid()
      modifies this
      ensures specialists == old(specialists)[name := agent]
      ensures Valid()
    {
      specialists := specialists[name := agent];
    }

    /**
     * `delegate_subtask`: an unknown name gives the not-found error and runs
     * nothing; a known specialist runs the subtask and its status, final
     * answer and trajectory are handed back.
     */
    method DelegateSubtask(subtask: Task, name: string, startedAt: Timestamp, endedAt: Timestamp) returns (d: Delegation)
      requires Valid()
      modifies Backends(), Monitors()
      ensures name !in specialists ==> d == NotFound(NotFoundMessage(name)) && unchanged(Backends(), Monitors())
      ensures name in specialists ==>
        var a := specialists[name]; var out := Final(a.Setup(old(a.llm.callCount), subtask));
        d == Delegated(out.verdict.value.status, out.verdict.value.finalAnswer,
          TrajectoryData(subtask.id, out.steps, startedAt, Some(endedAt), out.verdict.value.finalResult, out.verdict.value.status))
      ensures Valid()
    {
      if name !in specialists {
        return NotFound(NotFoundMessage(name));
      }
      var specialist := specialists[name];
      var res := specialist.Run(subtask, startedAt, endedAt);
      d := Delegated(res.status, res.finalAnswer, res.trajectory.ToDict());
    }

    /**
     * One iteration of `coordinate_task`: subtask `i` runs on the agent its
     * specialist name selects, or on none; `firstCall` is that agent's
     * backend call count just before the run.
     */
    method RunSubtask(task: Task, i: nat, def: SubtaskDef, startedAt: Timestamp, endedAt: Timestamp)
      returns (entry: SubtaskResult, ghost firstCall: nat)
      requires Valid()
      modifies Backends(), Monitors()
      ensures var agent := Route(mainAgent, specialists, SpecialistOf(def));
        entry == Entry(def, RunVerdict(agent, old(ToolsOf(agent)), firstCall, SubtaskOf(task, i, def)))
      ensures var agent := Route(mainAgent, specialists, SpecialistOf(def));
        agent.Some? ==> firstCall == old(agent.value.llm.callCount)
      ensures Valid()
    {
      var subtask := SubtaskOf(task, i, def);
      var name := def.specialist.GetOr(MAIN);
      if name == MAIN {
        firstCall := mainAgent.llm.callCount;
        var res := mainAgent.Run(subtask, startedAt, endedAt);
        entry := SubtaskResult(def.instruction, res.finalAnswer, res.status);
      } else {
        firstCall := if name in specialists then specialists[name].llm.callCount else 0;
        var d := DelegateSubtask(subtask, name, startedAt, endedAt);
        entry := SubtaskResult(def.instruction, d.Answer(), d.Status());
      }
    }

    /**
     * `coordinate_task`: one entry per decomposition entry, in order, each
     * from running its subtask on the agent its specialist name selects,
     * with that agent's tools as they were when coordination began (no
     * agent: no answer and "failed"); the overall status is "completed"
     * whatever the entries say. `firstCalls[i]` is the call count of the
     * backend that ran subtask `i`, just before that run.
     */
    method CoordinateTask(task: Task, decomposition: seq<SubtaskDef>, startedAt: Timestamp, endedAt: Timestamp)
      returns (c: Coordination, ghost firstCalls: seq<nat>)
      requires Valid()
      modifies Backends(), Monitors()
      ensures c.taskId == task.id && c.status == COMPLETED
      ensures |c.subtaskResults| == |decomposition| == |firstCalls|
      ensures forall i :: 0 <= i < |decomposition| ==>
        var agent := Route(mainAgent, specialists, SpecialistOf(decomposition[i]));
        c.subtaskResults[i]
        == Entry(decomposition[i], RunVerdict(agent, old(ToolsOf(agent)), firstCalls[i], SubtaskOf(task, i, decomposition[i])))
      ensures Valid()
    {
      var results: seq<SubtaskResult> := [];
      firstCalls := [];
      ghost var specs := specialists;
      for i := 0 to |decomposition|
        invariant |results| == i && |firstCalls| == i
        invariant Valid() && specialists == specs
        invariant forall j :: 0 <= j < i ==>
          var agent := Route(mainAgent, specs, SpecialistOf(decomposition[j]));
          results[j]
          == Entry(decomposition[j], RunVerdict(agent, old(ToolsOf(agent)), firstCalls[j], SubtaskOf(task, j, decomposition[j])))
      {
        ghost var agent := Route(mainAgent, specialists, SpecialistOf(decomposition[i]));
        assert ToolsOf(agent) == old(ToolsOf(agent));
        var entry;
        ghost var firstCall;
        entry, firstCall := RunSubtask(task, |results|, decomposition[i], startedAt, endedAt);
        results := results + [entry];
        firstCalls := firstCalls + [firstCall];
      }
      c := Coordination(task.id, results, COMPLETED);
    }
  }
}
