/** The execution request handed to an agent. */
module Tasks {
  import opened Values

  /**
   * A task. `context` and `metadata` default to empty maps and `maxSteps` to
   * 10; nothing checks that `maxSteps` is positive.
   */
  datatype Task = Task(
    id: string,
    instruction: string,
    context: Args := map[],
    maxSteps: int := 10,
    metadata: Args := map[])

  /** The number of loop iterations `range(max_steps)` allows: none when not positive. */
  function StepBudget(t: Task): (n: nat)
    ensures t.maxSteps <= 0 ==> n == 0
    ensures t.maxSteps > 0 ==> n == t.maxSteps
  {
    if t.maxSteps > 0 then t.maxSteps else 0
  }
}
