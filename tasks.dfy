/**
  An already-completed .NET `Task<T>`.

  Every task this library creates or consumes is awaited before the next step
  runs, and the core never schedules, cancels or times out a task, so a task is
  modelled as the value it completes with. Scheduling and the `configureAwait`
  flag change no value and are not part of this model.
 */
module Tasks {

  /** A task that has run to completion with `result`. */
  datatype Task<T> = Done(result: T)

  /** `Task.FromResult`: a task that is already resolved to `x`. */
  function FromResult<T>(x: T): (t: Task<T>)
    ensures Await(t) == x
  {
    Done(x)
  }

  /** `await t`: the value the completed task resolved to. */
  function Await<T>(t: Task<T>): T
  {
    t.result
  }
}
