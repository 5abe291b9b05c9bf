/**
 * Runs of the agent loop against the scripted mock backend, stated for every
 * task, budget and script: a matched script entry answers every step alike,
 * so a text-less reply whose calls succeed runs out of steps, a text reply
 * completes at once, and with no match the default call of a tool that
 * rejects empty arguments fails the run after `max_failures` steps.
 */
module AgentScenarios {
  import opened Wrappers
  import opened Text
  import opened Values
  import opened Messages
  import opened ToolCalls
  import opened ToolCallResults
  import opened Tools
  import opened Tasks
  import opened Llm
  import opened Registry
  import opened Trajectories
  import opened MockLlm
  import opened Echo
  import opened AgentLoop
  import opened AgentProperties

  /** The run's backend is the scripted mock with a well-formed script. */
  ghost predicate MockBackend(cfg: Config, script: Script) {
    && script.Valid()
    && forall n, ms, tools :: cfg.respond(n, ms, tools) == MockRespond(script, n, ms, tools)
  }

  /** The reply a matched script entry gives. */
  function Matched(script: Script, i: nat): LLMResponse
    requires script.Valid() && i < |script.keys|
  {
    Scripted(script.entries[script.keys[i]])
  }

  /** Running `raw` succeeds: it names a registered tool that accepts its arguments. */
  ghost predicate Accepted(tools: map<string, Tool>, raw: ToolCallDict) {
    var name := raw.name.GetOr("");
    name in tools && tools[name].invoke(raw.arguments.GetOr(map[])).Ok?
  }

  /** Whatever the step, the mock matches against the task's instruction, lower-cased. */
  lemma MockSeesInstruction(cfg: Config, n: nat)
    ensures LastUserContent(Steps(cfg, n).messages) == Lower(cfg.task.instruction)
  {
    Conversation(cfg, n);
    var ms := Steps(cfg, n).messages;
    assert ms == ms[..2] + ms[2..];
    LastUserIgnoresTrailing(ms[..2], ms[2..]);
  }

  /** A script entry that matches the instruction answers every step of the run with the same reply. */
  lemma ScriptAnswersEveryStep(cfg: Config, script: Script, i: nat, n: nat)
    requires MockBackend(cfg, script)
    requires FirstMatch(script.keys, Lower(cfg.task.instruction)) == Some(i)
    ensures Response(cfg, Steps(cfg, n), n) == Matched(script, i)
  {
    MockSeesInstruction(cfg, n);
  }

  /** Calls that all succeed leave the consecutive-failure counter at zero. */
  lemma AcceptedCallsReset(tools: map<string, Tool>, raws: seq<ToolCallDict>, step: nat, f: nat)
    requires raws != [] && forall raw :: raw in raws ==> Accepted(tools, raw)
    ensures Trail(f, Results(tools, Calls(raws, step))) == 0
  {
    var results := Results(tools, Calls(raws, step));
    assert Accepted(tools, raws[|raws| - 1]);
    assert !results[|results| - 1].isError;
  }

  /** An iteration whose response has no text and whose calls all succeed leaves the run going. */
  lemma QuietStepContinues(cfg: Config, k: nat, r: LLMResponse)
    requires Steps(cfg, k).verdict.None? && Response(cfg, Steps(cfg, k), k) == r
    requires !HasText(r.content)
    requires forall raw :: raw in r.toolCalls ==> Accepted(cfg.tools, raw)
    requires r.toolCalls != [] ==> cfg.maxFailures > 0
    ensures Steps(cfg, k + 1).verdict.None?
  {
    if r.toolCalls != [] {
      AcceptedCallsReset(cfg.tools, r.toolCalls, k, Steps(cfg, k).failures);
    }
    StepShape(cfg, k);
  }

  /** The backend gives the same reply `r` at every step of the run. */
  ghost predicate AnswersAlways(cfg: Config, r: LLMResponse) {
    forall k: nat :: Response(cfg, Steps(cfg, k), k) == r
  }

  /** A backend that always replies without text, with calls that all succeed, never lets an iteration end the run. */
  lemma {:induction false} QuietRunGoesOn(cfg: Config, r: LLMResponse, n: nat)
    requires AnswersAlways(cfg, r) && !HasText(r.content)
    requires forall raw :: raw in r.toolCalls ==> Accepted(cfg.tools, raw)
    requires r.toolCalls != [] ==> cfg.maxFailures > 0
    ensures Steps(cfg, n).verdict.None?
  {
    if n > 0 {
      QuietRunGoesOn(cfg, r, n - 1);
      QuietStepContinues(cfg, n - 1, r);
    }
  }

  /**
   * A matched reply without text whose tool calls all succeed never ends
   * the run: it stops at the step budget with one step per iteration and
   * no final answer.
   */
  lemma ScriptedLoopReachesMaxSteps(cfg: Config, script: Script, i: nat)
    requires MockBackend(cfg, script)
    requires FirstMatch(script.keys, Lower(cfg.task.instruction)) == Some(i)
    requires !HasText(Matched(script, i).content)
    requires forall raw :: raw in Matched(script, i).toolCalls ==> Accepted(cfg.tools, raw)
    requires Matched(script, i).toolCalls != [] ==> cfg.maxFailures > 0
    ensures Final(cfg).verdict.value.status == MAX_STEPS_REACHED
    ensures |Final(cfg).steps| == StepBudget(cfg.task)
    ensures Final(cfg).verdict.value.finalAnswer.None?
  {
    var r := Matched(script, i);
    forall k: nat
      ensures Response(cfg, Steps(cfg, k), k) == r
    {
      ScriptAnswersEveryStep(cfg, script, i, k);
    }
    QuietRunGoesOn(cfg, r, StepBudget(cfg.task));
    FinalMaxSteps(cfg);
  }

  /**
   * A matched reply with text and no tool calls completes the run in its
   * first step, with the reply's text as the final answer.
   */
  lemma ScriptedAnswerCompletes(cfg: Config, script: Script, i: nat)
    requires MockBackend(cfg, script)
    requires FirstMatch(script.keys, Lower(cfg.task.instruction)) == Some(i)
    requires HasText(Matched(script, i).content) && Matched(script, i).toolCalls == []
    requires StepBudget(cfg.task) > 0
    ensures Final(cfg).verdict.value.status == COMPLETED
    ensures |Final(cfg).steps| == 1
    ensures Final(cfg).verdict.value.finalAnswer == Matched(script, i).content
  {
    ScriptAnswersEveryStep(cfg, script, i, 0);
    assert Steps(cfg, 0) == Start(cfg);
    StepShape(cfg, 0);
    FinalAt(cfg, 1);
  }

  /** The first catalogued tool is unknown to the registry or rejects a call without arguments. */
  ghost predicate FirstToolRejectsEmpty(cfg: Config) {
    && cfg.catalog != []
    && var name := cfg.catalog[0].fn.name;
       name !in cfg.tools || cfg.tools[name].invoke(map[]).Err?
  }

  /** Without a matching pattern the mock calls the first catalogued tool, and that call fails. */
  lemma DefaultCallFails(cfg: Config, script: Script, n: nat)
    requires MockBackend(cfg, script)
    requires FirstMatch(script.keys, Lower(cfg.task.instruction)).None?
    requires FirstToolRejectsEmpty(cfg)
    ensures var r := Response(cfg, Steps(cfg, n), n);
      && r.content.None? && |r.toolCalls| == 1
      && Results(cfg.tools, Calls(r.toolCalls, n))[0].isError
  {
    MockSeesInstruction(cfg, n);
  }

  /** Before the threshold, each default-call iteration adds one failure and the run goes on. */
  lemma {:induction false} DefaultCallsCount(cfg: Config, script: Script, n: nat)
    requires MockBackend(cfg, script)
    requires FirstMatch(script.keys, Lower(cfg.task.instruction)).None?
    requires FirstToolRejectsEmpty(cfg)
    requires n < cfg.maxFailures
    ensures Steps(cfg, n).verdict.None? && Steps(cfg, n).failures == n
  {
    if n > 0 {
      var k := n - 1;
      DefaultCallsCount(cfg, script, k);
      DefaultCallFails(cfg, script, k);
      StepShape(cfg, k);
    }
  }

  /**
   * With no matching pattern and a first tool that rejects empty arguments,
   * every iteration's single call fails, so the run fails after exactly
   * `max_failures` steps when the budget allows that many.
   */
  lemma DefaultCallsFailRun(cfg: Config, script: Script)
    requires MockBackend(cfg, script)
    requires FirstMatch(script.keys, Lower(cfg.task.instruction)).None?
    requires FirstToolRejectsEmpty(cfg)
    requires 0 < cfg.maxFailures <= StepBudget(cfg.task)
    ensures Final(cfg).verdict.value.status == FAILED
    ensures |Final(cfg).steps| == cfg.maxFailures
    ensures Final(cfg).verdict.value.finalResult == VStr(FailureMessage(cfg.maxFailures))
  {
    var k: nat := cfg.maxFailures - 1;
    DefaultCallsCount(cfg, script, k);
    DefaultCallFails(cfg, script, k);
    StepShape(cfg, k);
    StepsIndexed(cfg, k + 1);
    FinalAt(cfg, k + 1);
  }

  /**
   * The echo tool called without a message fails, so a registry whose first
   * tool is echo, with a mock that matches nothing, fails the run after
   * `max_failures` steps.
   */
  lemma DefaultEchoCallsFailRun(cfg: Config, script: Script)
    requires MockBackend(cfg, script)
    requires FirstMatch(script.keys, Lower(cfg.task.instruction)).None?
    requires cfg.catalog != [] && cfg.catalog[0].fn.name == "echo"
    requires "echo" in cfg.tools && cfg.tools["echo"] == ECHO_TOOL
    requires 0 < cfg.maxFailures <= StepBudget(cfg.task)
    ensures Final(cfg).verdict.value.status == FAILED
    ensures |Final(cfg).steps| == cfg.maxFailures
  {
    assert ECHO_TOOL.invoke(map[]).Err?;
    DefaultCallsFailRun(cfg, script);
  }
}
