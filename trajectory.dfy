/** The append-only execution record of one task. */
module Trajectories {
  import opened Wrappers
  import opened Values
  import opened ToolCalls
  import opened ToolCallResults

  /** A clock reading, supplied by the caller (the model has no clock). */
  datatype Timestamp = Timestamp(reading: int)

  const IN_PROGRESS := "in_progress"
  const COMPLETED := "completed"
  const FAILED := "failed"
  const MAX_STEPS_REACHED := "max_steps_reached"

  /**
   * One loop iteration. A new step has no plan, no response text, no tool
   * calls or results and empty metadata. Its wall-clock fields (`timestamp`,
   * `latency_ms`) are not modelled.
   */
  datatype TrajectoryStep = TrajectoryStep(
    stepIndex: int,
    plan: Option<string> := None,
    llmResponse: Option<string> := None,
    toolCalls: seq<ToolCall> := [],
    toolResults: seq<ToolCallResult> := [],
    metadata: Args := map[])

  /** A plain-data copy of a trajectory's fields, as `to_dict` returns them. */
  datatype TrajectoryData = TrajectoryData(
    taskId: string,
    steps: seq<TrajectoryStep>,
    startTime: Timestamp,
    endTime: Option<Timestamp>,
    finalResult: Value,
    status: string)

  class Trajectory {
    const taskId: string
    const startTime: Timestamp
    var steps: seq<TrajectoryStep>
    var endTime: Option<Timestamp>
    var finalResult: Value
    var status: string

    /** A new trajectory: in progress, no steps, no end time, no final result. */
    constructor (taskId: string, startTime: Timestamp)
      ensures this.taskId == taskId && this.startTime == startTime
      ensures steps == [] && endTime == None && finalResult == VNull && status == IN_PROGRESS
    {
      this.taskId := taskId;
      this.startTime := startTime;
      steps := [];
      endTime := None;
      finalResult := VNull;
      status := IN_PROGRESS;
    }

    /** `add_step`: appends at the end; earlier steps and all other fields stay. */
    method AddStep(step: TrajectoryStep)
      modifies this
      ensures steps == old(steps) + [step]
      ensures endTime == old(endTime) && finalResult == old(finalResult) && status == old(status)
    {
      steps := steps + [step];
    }

    /**
     * `complete(result, status)`: sets the end time, the final result and the
     * status together and leaves the steps alone. It does not look at the
     * current status, so a second call overwrites the first.
     */
    method Complete(result: Value, at: Timestamp, status: string := COMPLETED)
      modifies this
      ensures endTime == Some(at) && finalResult == result && this.status == status
      ensures steps == old(steps)
    {
      endTime := Some(at);
      finalResult := result;
      this.status := status;
    }

    /** `to_dict`: every field, as plain data. */
    function ToDict(): (d: TrajectoryData)
      reads this
      ensures d.taskId == taskId && d.steps == steps && d.startTime == startTime
      ensures d.endTime == endTime && d.finalResult == finalResult && d.status == status
    {
      TrajectoryData(taskId, steps, startTime, endTime, finalResult, status)
    }
  }

  /** `complete` guards nothing: completing twice leaves the second call's values. */
  method CompleteTwice(t: Trajectory, first: Value, second: Value, at: Timestamp)
    modifies t
    ensures t.status == MAX_STEPS_REACHED && t.finalResult == second
  {
    t.Complete(first, at, FAILED);
    t.Complete(second, at, MAX_STEPS_REACHED);
  }
}
