/**
  Chains of combinator calls, as a caller writes them:
  `Create(x).OnSuccess(...).OnFailure(...).OnSuccessAsync(...)...`.

  A chain is a sequence of steps over one success type and one failure type.
  It can be run synchronously, each step through its synchronous combinator
  (an asynchronous callback's task being awaited), or on a task, each step
  through the `Task`-receiver overload. The two runs agree; failures pass every
  success-side step untouched and successes every failure-side step; and
  observing actions never alter the result.
 */
module Pipelines {
  import opened Tasks
  import opened Results
  import Core = NetCoreFailableResultExtensions
  import opened NetCoreIFailableResultExtensions

  /** One call in a chain; its callback in the C# overload's shape. */
  datatype Step<!S, !F, E> =
    | OnSuccessStep(mapSuccess: S -> S)
    | OnSuccessBindStep(bind: S -> Result<S, F>)
    | OnSuccessAsyncStep(mapAsync: S -> Task<S>)
    | OnSuccessAsyncBindStep(bindAsync: S -> Task<Result<S, F>>)
    | OnFailureStep(mapFailure: F -> F)
    | OnFailureAsyncStep(mapFailureAsync: F -> Task<F>)
    | OnFailureActionStep(action: F -> E)

  /** A step that only ever looks at a success. */
  predicate IsSuccessStep<S, F, E>(step: Step<S, F, E>)
  {
    step.OnSuccessStep? || step.OnSuccessBindStep? || step.OnSuccessAsyncStep? || step.OnSuccessAsyncBindStep?
  }

  /** One step on a plain result, through the synchronous combinator. */
  function StepSync<S, F, E>(r: Result<S, F>, step: Step<S, F, E>): (o: Effectful<Result<S, F>, E>)
    ensures IsSuccessStep(step) && r.Failure? ==> o == Effectful(r, [])
    ensures !IsSuccessStep(step) && r.Success? ==> o == Effectful(r, [])
    ensures step.OnFailureActionStep? ==> o.value == r
  {
    match step
    case OnSuccessStep(f) => Effectful(Core.OnSuccess(r, f), [])
    case OnSuccessBindStep(f) => Effectful(Core.OnSuccessBind(r, f), [])
    case OnSuccessAsyncStep(f) => Effectful(Core.OnSuccess(r, (s: S) => Await(f(s))), [])
    case OnSuccessAsyncBindStep(f) => Effectful(Core.OnSuccessBind(r, (s: S) => Await(f(s))), [])
    case OnFailureStep(g) => Effectful(Core.OnFailure(r, g), [])
    case OnFailureAsyncStep(g) => Effectful(Core.OnFailure(r, (e: F) => Await(g(e))), [])
    case OnFailureActionStep(a) => OnFailureAction(r, a)
  }

  /** One step on a task, through the `Task`-receiver overload; awaited, it is `StepSync`. */
  function StepAsync<S, F, E>(asyncResult: Task<Result<S, F>>, step: Step<S, F, E>): (o: Effectful<Task<Result<S, F>>, E>)
    ensures Await(o.value) == StepSync(Await(asyncResult), step).value
    ensures o.effects == StepSync(Await(asyncResult), step).effects
  {
    match step
    case OnSuccessStep(f) => Effectful(Core.TaskOnSuccessMap(asyncResult, f), [])
    case OnSuccessBindStep(f) => Effectful(Core.TaskOnSuccessBind(asyncResult, f), [])
    case OnSuccessAsyncStep(f) => Effectful(Core.TaskOnSuccessAsyncMap(asyncResult, f), [])
    case OnSuccessAsyncBindStep(f) => Effectful(Core.TaskOnSuccessAsyncBind(asyncResult, f), [])
    case OnFailureStep(g) => Effectful(Core.TaskOnFailure(asyncResult, g), [])
    case OnFailureAsyncStep(g) => Effectful(Core.TaskOnFailureAsync(asyncResult, g), [])
    case OnFailureActionStep(a) => TaskOnFailureAction(asyncResult, a)
  }

  /** A whole chain on a plain result: the final result and every effect, in order. */
  function RunSync<S, F, E>(r: Result<S, F>, steps: seq<Step<S, F, E>>): Effectful<Result<S, F>, E>
    decreases |steps|
  {
    if |steps| == 0 then Effectful(r, [])
    else
      var first := StepSync(r, steps[0]);
      var rest := RunSync(first.value, steps[1..]);
      Effectful(rest.value, first.effects + rest.effects)
  }

  /** A whole chain on a task, each step awaiting the previous one's task. */
  function RunAsync<S, F, E>(asyncResult: Task<Result<S, F>>, steps: seq<Step<S, F, E>>)
    : Effectful<Task<Result<S, F>>, E>
    decreases |steps|
  {
    if |steps| == 0 then Effectful(asyncResult, [])
    else
      var first := StepAsync(asyncResult, steps[0]);
      var rest := RunAsync(first.value, steps[1..]);
      Effectful(rest.value, first.effects + rest.effects)
  }

  /** The chain with its observing steps removed. */
  function WithoutActions<S, F, E>(steps: seq<Step<S, F, E>>): (r: seq<Step<S, F, E>>)
    ensures |r| <= |steps|
    ensures forall i :: 0 <= i < |r| ==> !r[i].OnFailureActionStep?
    decreases |steps|
  {
    if |steps| == 0 then []
    else if steps[0].OnFailureActionStep? then WithoutActions(steps[1..])
    else [steps[0]] + WithoutActions(steps[1..])
  }

  /**
    Running a chain on a task gives, once awaited, the result of running the
    same chain synchronously on the awaited result, and requests the same
    effects in the same order: the asynchronous overloads change only when a
    callback runs, never whether it runs.
   */
  lemma {:induction false} RunAsyncAgreesWithRunSync<S, F, E>(asyncResult: Task<Result<S, F>>, steps: seq<Step<S, F, E>>)
    ensures Await(RunAsync(asyncResult, steps).value) == RunSync(Await(asyncResult), steps).value
    ensures RunAsync(asyncResult, steps).effects == RunSync(Await(asyncResult), steps).effects
    decreases |steps|
  {
    if |steps| > 0 {
      var first := StepAsync(asyncResult, steps[0]);
      RunAsyncAgreesWithRunSync(first.value, steps[1..]);
    }
  }

  /** A chain started from an already-resolved task is the synchronous chain. */
  lemma ChainFromResolvedTask<S, F, E>(r: Result<S, F>, steps: seq<Step<S, F, E>>)
    ensures Await(RunAsync(FromResult(r), steps).value) == RunSync(r, steps).value
  {
    RunAsyncAgreesWithRunSync(FromResult(r), steps);
  }

  /**
    A failure propagates past any number of success-side steps with the same
    payload, applying none of their callbacks and requesting no effect.
   */
  lemma {:induction false} FailurePassesSuccessSteps<S, F, E>(e: F, steps: seq<Step<S, F, E>>)
    requires forall i :: 0 <= i < |steps| ==> IsSuccessStep(steps[i])
    ensures RunSync(Failure(e), steps) == Effectful(Failure(e), [])
    decreases |steps|
  {
    if |steps| > 0 {
      FailurePassesSuccessSteps(e, steps[1..]);
    }
  }

  /** A success passes any number of failure-side steps unchanged, and no action runs. */
  lemma {:induction false} SuccessPassesFailureSteps<S, F, E>(s: S, steps: seq<Step<S, F, E>>)
    requires forall i :: 0 <= i < |steps| ==> !IsSuccessStep(steps[i])
    ensures RunSync(Success(s), steps) == Effectful(Success(s), [])
    decreases |steps|
  {
    if |steps| > 0 {
      SuccessPassesFailureSteps(s, steps[1..]);
    }
  }

  /** Observing steps never alter the final result of a chain. */
  lemma {:induction false} ActionsDoNotAlterResult<S, F, E>(r: Result<S, F>, steps: seq<Step<S, F, E>>)
    ensures RunSync(r, steps).value == RunSync(r, WithoutActions(steps)).value
    decreases |steps|
  {
    if |steps| > 0 {
      var first := StepSync(r, steps[0]);
      var rest := steps[1..];
      ActionsDoNotAlterResult(first.value, rest);
      assert RunSync(r, steps).value == RunSync(first.value, rest).value;
      if steps[0].OnFailureActionStep? {
        assert first.value == r;
        assert WithoutActions(steps) == WithoutActions(rest);
      } else {
        var kept := [steps[0]] + WithoutActions(rest);
        assert WithoutActions(steps) == kept;
        assert kept[0] == steps[0] && kept[1..] == WithoutActions(rest);
        assert RunSync(r, kept).value == RunSync(first.value, WithoutActions(rest)).value;
      }
    }
  }
}
