/**
 * What every run of the agent loop guarantees, proved on its reference
 * semantics `AgentLoop.Steps` / `AgentLoop.Final`: the shape of the
 * conversation, the order of the lifecycle events, the pairing of calls and
 * results in each step, the failure counter, and the three ways a run ends.
 */
module AgentProperties {
  import opened Wrappers
  import opened Values
  import opened Messages
  import opened ToolCalls
  import opened ToolCallResults
  import opened Tasks
  import opened Registry
  import opened Trajectories
  import opened Monitoring
  import opened AgentLoop

  /** No entry of `ms` is a user entry. */
  ghost predicate NoUser(ms: seq<Message>) {
    forall i :: 0 <= i < |ms| ==> ms[i].role != "user"
  }

  /** A step answers each of its calls with one result, in the same order, carrying the call's id and tool name. */
  ghost predicate Aligned(s: TrajectoryStep) {
    && |s.toolResults| == |s.toolCalls|
    && forall j :: 0 <= j < |s.toolCalls| ==>
         s.toolResults[j].toolCallId == s.toolCalls[j].id && s.toolResults[j].toolName == s.toolCalls[j].name
  }

  /** Every tool result of the recorded steps, in execution order. */
  function AllResults(steps: seq<TrajectoryStep>): seq<ToolCallResult>
    decreases |steps|
  {
    if steps == [] then [] else AllResults(steps[..|steps| - 1]) + steps[|steps| - 1].toolResults
  }

  // The consecutive-failure counter.

  /** Counting over two batches of results is counting over the first, then carrying on over the second. */
  lemma {:induction false} TrailAppend(f: nat, a: seq<ToolCallResult>, b: seq<ToolCallResult>)
    ensures Trail(f, a + b) == Trail(Trail(f, a), b)
    decreases |b|
  {
    if b != [] {
      var b' := b[..|b| - 1];
      TrailAppend(f, a, b');
      assert (a + b)[..|a + b| - 1] == a + b';
      assert (a + b)[|a + b| - 1] == b[|b| - 1];
    } else {
      assert a + b == a;
    }
  }

  /** Without a success the counter grows by one per result from where it started. */
  lemma {:induction false} TrailAllErrors(f: nat, rs: seq<ToolCallResult>)
    requires forall i :: 0 <= i < |rs| ==> rs[i].isError
    ensures Trail(f, rs) == f + |rs|
    decreases |rs|
  {
    if rs != [] {
      TrailAllErrors(f, rs[..|rs| - 1]);
    }
  }

  /** After the last success at position `i`, the counter is the number of errors that follow it. */
  lemma {:induction false} TrailAfterSuccess(f: nat, rs: seq<ToolCallResult>, i: nat)
    requires i < |rs| && !rs[i].isError
    requires forall j :: i < j < |rs| ==> rs[j].isError
    ensures Trail(f, rs) == |rs| - 1 - i
    decreases |rs|
  {
    if i < |rs| - 1 {
      TrailAfterSuccess(f, rs[..|rs| - 1], i);
    }
  }

  /**
   * The counter is never reset at a step boundary: after `n` iterations it
   * is the count over all results of all recorded steps, from 0.
   */
  lemma {:induction false} FailureCounter(cfg: Config, n: nat)
    ensures Steps(cfg, n).failures == Trail(0, AllResults(Steps(cfg, n).steps))
  {
    if n > 0 {
      FailureCounter(cfg, n - 1);
      var p := Steps(cfg, n - 1);
      if p.verdict.None? {
        StepShape(cfg, n - 1);
        var q := Steps(cfg, n);
        var rec := q.steps[|q.steps| - 1];
        assert q.steps[..|q.steps| - 1] == p.steps;
        TrailAppend(0, AllResults(p.steps), rec.toolResults);
      } else {
        StepsAfterEnd(cfg, n - 1);
      }
    }
  }

  // The recorded steps.

  /** The step list only grows: an earlier state's steps are a prefix of a later one's. */
  lemma {:induction false} StepsPrefix(cfg: Config, m: nat, n: nat)
    requires m <= n
    ensures |Steps(cfg, m).steps| <= |Steps(cfg, n).steps|
    ensures Steps(cfg, n).steps[..|Steps(cfg, m).steps|] == Steps(cfg, m).steps
    decreases n
  {
    if m < n {
      StepsPrefix(cfg, m, n - 1);
      var a := Steps(cfg, m).steps;
      var b := Steps(cfg, n - 1).steps;
      if Steps(cfg, n - 1).verdict.None? {
        StepRecord(cfg, n - 1);
        var c := Steps(cfg, n).steps;
        assert c[..|a|] == b[..|a|];
      } else {
        StepsAfterEnd(cfg, n - 1);
      }
    }
  }

  /** Iteration `k` ran (its step is recorded) only if the run was still going before it. */
  lemma {:induction false} RecordedMeansRunning(cfg: Config, n: nat, k: nat)
    requires k < |Steps(cfg, n).steps|
    ensures k < n && Steps(cfg, k).verdict.None?
    ensures Steps(cfg, k + 1).steps == Steps(cfg, n).steps[..k + 1]
  {
    StepsIndexed(cfg, n);
    var p := Steps(cfg, n - 1);
    if p.verdict.Some? {
      StepsAfterEnd(cfg, n - 1);
      RecordedMeansRunning(cfg, n - 1, k);
    } else if k < n - 1 {
      StepRecord(cfg, n - 1);
      StepsIndexed(cfg, n - 1);
      assert Steps(cfg, n).steps[..k + 1] == p.steps[..k + 1];
      RecordedMeansRunning(cfg, n - 1, k);
    } else {
      StepsIndexed(cfg, n - 1);
      StepRecord(cfg, n - 1);
      assert Steps(cfg, n).steps[..k + 1] == Steps(cfg, n).steps;
    }
  }

  /** Every recorded step answers its calls one for one, in order, with matching ids and names. */
  lemma {:induction false} StepsAligned(cfg: Config, n: nat)
    ensures forall i :: 0 <= i < |Steps(cfg, n).steps| ==> Aligned(Steps(cfg, n).steps[i])
  {
    if n > 0 {
      StepsAligned(cfg, n - 1);
      var p := Steps(cfg, n - 1);
      if p.verdict.None? {
        StepRecord(cfg, n - 1);
        var q := Steps(cfg, n);
        assert q.steps[..|p.steps|] == p.steps;
        forall i | 0 <= i < |q.steps| ensures Aligned(q.steps[i]) {
          if i < |p.steps| {
            assert q.steps[i] == p.steps[i];
          }
        }
      } else {
        StepsAfterEnd(cfg, n - 1);
      }
    }
  }

  // The conversation.

  /** One iteration adds tool entries and possibly an assistant entry, never a user entry. */
  lemma StepMessages(cfg: Config, n: nat)
    requires Steps(cfg, n).verdict.None?
    ensures var p := Steps(cfg, n); var q := Steps(cfg, n + 1);
      |p.messages| <= |q.messages| && q.messages[..|p.messages|] == p.messages && NoUser(q.messages[|p.messages|..])
  {
    StepShape(cfg, n);
    var p := Steps(cfg, n);
    var q := Steps(cfg, n + 1);
    var r := Response(cfg, p, n);
    var tms := ToolMessages(Results(cfg.tools, Calls(r.toolCalls, n)));
    var extra := if !FailsAt(cfg, n) && HasText(r.content) then tms + [Message("assistant", r.content.value)] else tms;
    assert q.messages == p.messages + extra;
    assert q.messages[|p.messages|..] == extra;
    forall i | 0 <= i < |extra| ensures extra[i].role != "user" {
      if i < |tms| {
        assert extra[i] == tms[i];
      }
    }
  }

  /**
   * The conversation starts with the system prompt and the instruction, and
   * the loop never adds a user entry after them: only tool results and
   * assistant answers.
   */
  lemma {:induction false} Conversation(cfg: Config, n: nat)
    ensures |Steps(cfg, n).messages| >= 2
    ensures Steps(cfg, n).messages[..2] == InitialMessages(cfg.task)
    ensures NoUser(Steps(cfg, n).messages[2..])
  {
    if n > 0 {
      Conversation(cfg, n - 1);
      var a := Steps(cfg, n - 1).messages;
      if Steps(cfg, n - 1).verdict.None? {
        StepMessages(cfg, n - 1);
        var b := Steps(cfg, n).messages;
        assert b[..2] == a[..2];
        assert b[2..] == a[2..] + b[|a|..];
        forall i | 0 <= i < |b| - 2 ensures b[2..][i].role != "user" {
          if i < |a| - 2 {
            assert b[2..][i] == a[2..][i];
          } else {
            assert b[2..][i] == b[|a|..][i - (|a| - 2)];
          }
        }
      } else {
        StepsAfterEnd(cfg, n - 1);
      }
    }
  }

  // The lifecycle events.

  /** The tool events of a step hold only tool_call_start and tool_call_end events. */
  lemma {:induction false} ToolEventsFilter(tools: map<string, Tools.Tool>, calls: seq<ToolCall>, step: nat, t: string)
    requires t != "tool_call_start" && t != "tool_call_end"
    ensures Filter(ToolEvents(tools, calls, step), t) == []
    decreases |calls|
  {
    if calls != [] {
      var c := calls[|calls| - 1];
      var init := calls[..|calls| - 1];
      ToolEventsFilter(tools, init, step, t);
      var start, end := ToolStartEvent(c.name, step), ToolEndEvent(c.name, !ExecuteWith(tools, c).isError, step);
      assert ToolEvents(tools, calls, step) == ToolEvents(tools, init, step) + [start, end];
      FilterAppend(ToolEvents(tools, init, step), [start, end], t);
      FilterPairOut(start, end, t);
    }
  }

  /** Two events of other types than `t` both drop out. */
  lemma FilterPairOut(a: Event, b: Event, t: string)
    requires a.eventType != t && b.eventType != t
    ensures Filter([a, b], t) == []
  {
    FilterAppend([a], [b], t);
    FilterOne(a, t);
    FilterOne(b, t);
    assert [a, b] == [a] + [b];
  }

  /**
   * How an iteration's events end: step_end if the run goes on; task_end
   * "failed" without step_end if the threshold was hit; step_end then
   * task_end "completed" otherwise.
   */
  function IterationTail(n: nat, taskId: string, v: Option<Verdict>): seq<Event> {
    match v
    case None => [StepEndEvent(n, taskId)]
    case Some(v) =>
      if v.status == FAILED then [TaskEndEvent(taskId, FAILED)]
      else [StepEndEvent(n, taskId), TaskEndEvent(taskId, v.status)]
  }

  /** The events of one iteration: step_start, the tool events, then the tail its verdict calls for. */
  lemma StepEvents(cfg: Config, n: nat)
    requires Steps(cfg, n).verdict.None?
    ensures var p := Steps(cfg, n); var q := Steps(cfg, n + 1);
      var calls := Calls(Response(cfg, p, n).toolCalls, n);
      && q.events == p.events + [StepStartEvent(n, cfg.task.id)] + ToolEvents(cfg.tools, calls, n)
           + IterationTail(n, cfg.task.id, q.verdict)
      && (q.verdict.Some? ==> q.verdict.value.status == FAILED || q.verdict.value.status == COMPLETED)
  {
    StepShape(cfg, n);
    var p := Steps(cfg, n);
    var q := Steps(cfg, n + 1);
    var e := p.events + [StepStartEvent(n, cfg.task.id)] + ToolEvents(cfg.tools, Calls(Response(cfg, p, n).toolCalls, n), n);
    if !FailsAt(cfg, n) {
      if q.verdict.Some? {
        assert e + [StepEndEvent(n, cfg.task.id)] + [TaskEndEvent(cfg.task.id, COMPLETED)]
            == e + [StepEndEvent(n, cfg.task.id), TaskEndEvent(cfg.task.id, COMPLETED)];
      } else {
        assert e + [StepEndEvent(n, cfg.task.id)] + [] == e + [StepEndEvent(n, cfg.task.id)];
      }
    }
  }

  /** A log extended by `tool events` and a tail: the filter ignores the tool events. */
  lemma FilterIteration(es: seq<Event>, start: Event, tes: seq<Event>, tail: seq<Event>, t: string)
    requires Filter(tes, t) == []
    ensures Filter(es + [start] + tes + tail, t) == Filter(es, t) + Filter([start], t) + Filter(tail, t)
  {
    FilterAppend(es, [start], t);
    FilterAppend(es + [start], tes, t);
    FilterAppend(es + [start] + tes, tail, t);
    assert Filter(es + [start], t) + [] == Filter(es + [start], t);
  }

  /** The tail holds no step_start, and a task_end with the run's status exactly when it ended. */
  lemma TailFilter(n: nat, taskId: string, v: Option<Verdict>)
    ensures Filter(IterationTail(n, taskId, v), "step_start") == []
    ensures Filter(IterationTail(n, taskId, v), "task_end") == (if v.Some? then [TaskEndEvent(taskId, v.value.status)] else [])
    ensures v.Some? ==> IterationTail(n, taskId, v)[|IterationTail(n, taskId, v)| - 1] == TaskEndEvent(taskId, v.value.status)
  {
    var tail := IterationTail(n, taskId, v);
    if v.None? {
      FilterOne(StepEndEvent(n, taskId), "step_start");
      FilterOne(StepEndEvent(n, taskId), "task_end");
    } else if v.value.status == FAILED {
      FilterOne(TaskEndEvent(taskId, FAILED), "step_start");
      FilterOne(TaskEndEvent(taskId, FAILED), "task_end");
    } else {
      FilterSnoc([StepEndEvent(n, taskId)], TaskEndEvent(taskId, v.value.status), "step_start");
      FilterSnoc([StepEndEvent(n, taskId)], TaskEndEvent(taskId, v.value.status), "task_end");
      FilterOne(StepEndEvent(n, taskId), "step_start");
      FilterOne(StepEndEvent(n, taskId), "task_end");
      assert tail == [StepEndEvent(n, taskId)] + [TaskEndEvent(taskId, v.value.status)];
    }
  }

  /** Filtering a log extended by one event filters that event. */
  lemma FilterSnoc(es: seq<Event>, e: Event, t: string)
    ensures Filter(es + [e], t) == Filter(es, t) + (if e.eventType == t then [e] else [])
  {
    FilterAppend(es, [e], t);
    FilterOne(e, t);
  }

  /**
   * The log of a run in state `p` starts with task_start, holds one
   * step_start per recorded step, and holds a task_end exactly when the run
   * has ended: one, last, carrying the run's status.
   */
  ghost predicate EventLog(taskId: string, p: Progress) {
    && |p.events| > 0 && p.events[0] == TaskStartEvent(taskId)
    && |Filter(p.events, "step_start")| == |p.steps|
    && (p.verdict.None? ==> Filter(p.events, "task_end") == [])
    && (p.verdict.Some? ==>
          Filter(p.events, "task_end") == [TaskEndEvent(taskId, p.verdict.value.status)]
          && p.events[|p.events| - 1] == TaskEndEvent(taskId, p.verdict.value.status))
  }

  /** One iteration keeps the log in that shape. */
  lemma EventLogStep(taskId: string, n: nat, p: Progress, q: Progress, tes: seq<Event>)
    requires EventLog(taskId, p) && p.verdict.None?
    requires q.events == p.events + [StepStartEvent(n, taskId)] + tes + IterationTail(n, taskId, q.verdict)
    requires Filter(tes, "step_start") == [] && Filter(tes, "task_end") == []
    requires |q.steps| == |p.steps| + 1
    ensures EventLog(taskId, q)
  {
    var start := StepStartEvent(n, taskId);
    var tail := IterationTail(n, taskId, q.verdict);
    FilterIteration(p.events, start, tes, tail, "step_start");
    FilterIteration(p.events, start, tes, tail, "task_end");
    FilterOne(start, "step_start");
    FilterOne(start, "task_end");
    TailFilter(n, taskId, q.verdict);
    assert q.events[0] == p.events[0];
    if q.verdict.Some? {
      assert q.events[|q.events| - 1] == tail[|tail| - 1];
    }
  }

  /** An iteration of the run keeps its log in that shape. */
  lemma EventOrderStep(cfg: Config, n: nat)
    requires EventLog(cfg.task.id, Steps(cfg, n)) && Steps(cfg, n).verdict.None?
    ensures EventLog(cfg.task.id, Steps(cfg, n + 1))
  {
    StepEvents(cfg, n);
    StepRecord(cfg, n);
    var calls := Calls(Response(cfg, Steps(cfg, n), n).toolCalls, n);
    ToolEventsFilter(cfg.tools, calls, n, "step_start");
    ToolEventsFilter(cfg.tools, calls, n, "task_end");
    EventLogStep(cfg.task.id, n, Steps(cfg, n), Steps(cfg, n + 1), ToolEvents(cfg.tools, calls, n));
  }

  /** Every state of a run has a log of that shape. */
  lemma {:induction false} EventOrder(cfg: Config, n: nat)
    ensures EventLog(cfg.task.id, Steps(cfg, n))
  {
    if n == 0 {
      FilterOne(TaskStartEvent(cfg.task.id), "step_start");
      FilterOne(TaskStartEvent(cfg.task.id), "task_end");
    } else {
      EventOrder(cfg, n - 1);
      if Steps(cfg, n - 1).verdict.None? {
        EventOrderStep(cfg, n - 1);
      } else {
        StepsAfterEnd(cfg, n - 1);
      }
    }
  }

  // How a run ends.

  /** Only an iteration sets a verdict before the loop ends, and only "failed" or "completed", after recording a step. */
  lemma {:induction false} VerdictKinds(cfg: Config, n: nat)
    ensures Steps(cfg, n).verdict.Some? ==>
      (Steps(cfg, n).verdict.value.status == FAILED || Steps(cfg, n).verdict.value.status == COMPLETED)
      && |Steps(cfg, n).steps| > 0
  {
    if n > 0 {
      VerdictKinds(cfg, n - 1);
      if Steps(cfg, n - 1).verdict.None? {
        StepEvents(cfg, n - 1);
        StepRecord(cfg, n - 1);
      } else {
        StepsAfterEnd(cfg, n - 1);
      }
    }
  }

  /**
   * A run records at most `max_steps` steps, numbered by position, and ends
   * in one of the three statuses; with no budget it records nothing and
   * reports max_steps_reached.
   */
  lemma FinalBounds(cfg: Config)
    ensures var out := Final(cfg);
      && |out.steps| <= StepBudget(cfg.task)
      && (forall i :: 0 <= i < |out.steps| ==> out.steps[i].stepIndex == i)
      && (out.verdict.value.status == COMPLETED || out.verdict.value.status == FAILED
          || out.verdict.value.status == MAX_STEPS_REACHED)
      && (StepBudget(cfg.task) == 0 ==> out.steps == [] && out.verdict.value.status == MAX_STEPS_REACHED)
  {
    StepsIndexed(cfg, StepBudget(cfg.task));
    VerdictKinds(cfg, StepBudget(cfg.task));
  }

  /**
   * A run reports max_steps_reached exactly when no iteration ended it; it
   * then has recorded one step per allowed iteration, its result is
   * "Max steps reached", it has no answer, and its log ends with task_end.
   */
  lemma FinalMaxSteps(cfg: Config)
    ensures var out := Final(cfg); var b := StepBudget(cfg.task);
      && (out.verdict.value.status == MAX_STEPS_REACHED <==> Steps(cfg, b).verdict.None?)
      && (out.verdict.value.status == MAX_STEPS_REACHED ==>
            |out.steps| == b && out.verdict.value.finalResult == VStr(MAX_STEPS_MESSAGE)
            && out.verdict.value.finalAnswer.None?
            && out.events == Steps(cfg, b).events + [TaskEndEvent(cfg.task.id, MAX_STEPS_REACHED)])
  {
    StepsIndexed(cfg, StepBudget(cfg.task));
    VerdictKinds(cfg, StepBudget(cfg.task));
  }

  /**
   * The last recorded step is the iteration that decided the run: either
   * it set the verdict, or it was the last iteration the budget allowed.
   */
  lemma LastIteration(cfg: Config)
    requires |Final(cfg).steps| > 0
    ensures var k := |Final(cfg).steps| - 1;
      && Steps(cfg, k).verdict.None?
      && (Steps(cfg, k + 1).verdict.Some? ==> Final(cfg) == Steps(cfg, k + 1))
      && (Steps(cfg, k + 1).verdict.None? ==>
            k + 1 == StepBudget(cfg.task) && Final(cfg).verdict.value.status == MAX_STEPS_REACHED)
  {
    var b := StepBudget(cfg.task);
    var out := Final(cfg);
    var k := |out.steps| - 1;
    assert out.steps == Steps(cfg, b).steps;
    RecordedMeansRunning(cfg, b, k);
    assert Steps(cfg, k + 1).steps == out.steps;
    if Steps(cfg, k + 1).verdict.Some? {
      FinalAt(cfg, k + 1);
    } else {
      if k + 1 < b {
        StepRecord(cfg, k + 1);
        StepsPrefix(cfg, k + 2, b);
        assert false;
      }
      FinalMaxSteps(cfg);
    }
  }

  /**
   * A run is completed exactly when its last iteration did not hit the
   * failure threshold and its response was complete; its answer and result
   * are then that response's text, which is also the last step's.
   */
  lemma FinalCompleted(cfg: Config)
    ensures var out := Final(cfg); var k := |out.steps| - 1;
      && (out.verdict.value.status == COMPLETED <==>
            |out.steps| > 0 && !FailsAt(cfg, k) && IsComplete(Response(cfg, Steps(cfg, k), k)))
      && (out.verdict.value.status == COMPLETED ==>
            var r := Response(cfg, Steps(cfg, k), k);
            && out.verdict.value.finalAnswer == r.content && HasText(r.content)
            && out.verdict.value.finalResult == VStr(r.content.value)
            && out.steps[k].llmResponse == r.content)
  {
    var out := Final(cfg);
    if |out.steps| == 0 {
      VerdictKinds(cfg, StepBudget(cfg.task));
      FinalMaxSteps(cfg);
    } else {
      var k := |out.steps| - 1;
      LastIteration(cfg);
      StepShape(cfg, k);
    }
  }

  /**
   * A run fails exactly when its last iteration made tool calls and left the
   * counter at the threshold; it then has no answer and its result names
   * the count.
   */
  lemma FinalFailed(cfg: Config)
    ensures var out := Final(cfg); var k := |out.steps| - 1;
      && (out.verdict.value.status == FAILED <==> |out.steps| > 0 && FailsAt(cfg, k))
      && (out.verdict.value.status == FAILED ==>
            && Response(cfg, Steps(cfg, k), k).toolCalls != []
            && out.failures >= cfg.maxFailures
            && out.verdict.value.finalAnswer.None?
            && out.verdict.value.finalResult == VStr(FailureMessage(out.failures)))
  {
    var out := Final(cfg);
    if |out.steps| == 0 {
      VerdictKinds(cfg, StepBudget(cfg.task));
      FinalMaxSteps(cfg);
    } else {
      var k := |out.steps| - 1;
      LastIteration(cfg);
      StepShape(cfg, k);
    }
  }

  /** Completion ends the run: no recorded step but the last had a complete response or hit the threshold. */
  lemma EarlierStepsContinue(cfg: Config, k: nat)
    requires k + 1 < |Final(cfg).steps|
    ensures !FailsAt(cfg, k) && !IsComplete(Response(cfg, Steps(cfg, k), k))
  {
    var b := StepBudget(cfg.task);
    assert Final(cfg).steps == Steps(cfg, b).steps;
    RecordedMeansRunning(cfg, b, k + 1);
    RecordedMeansRunning(cfg, b, k);
    StepVerdict(cfg, k);
  }
}
