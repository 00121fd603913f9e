/**
  `IFailableResultExtensions` of the `FailableResult.NetCore` package: a second
  set of combinators beside `FailableResultExtensions`, adding the
  side-effecting `OnFailure(Action<TFailure>)`.

  The naming of the C# overloads follows `NetCoreFailableResultExtensions`.
  Several overloads here have the same signature as one there; each is proved
  to agree with its twin.
 */
module NetCoreIFailableResultExtensions {
  import opened Tasks
  import opened Results
  import Sibling = NetCoreFailableResultExtensions

  /**
    A value together with the effects a caller's `Action` was asked to perform
    while computing it, in order. What the action does is the caller's concern;
    the model records each invocation as the effect value the action maps its
    argument to.
   */
  datatype Effectful<T, E> = Effectful(value: T, effects: seq<E>)

  /** `OnSuccess(Func<TResult, IFailableResult<...>>)`: a success is replaced, a failure passed on. */
  function OnSuccessBind<S, F, T>(r: Result<S, F>, onSuccess: S -> Result<T, F>): (r': Result<T, F>)
    ensures r.Success? ==> r' == onSuccess(r.result)
    ensures r.Failure? ==> r' == Failure(r.failure)
  {
    r.Fold(onSuccess, (e: F) => CreateFailure<T, F>(e))
  }

  /**
    `OnSuccessAsync(Func<TResult, Task<IFailableResult<...>>>)` on a plain result:
    a success yields the callback's own task, a failure an already-resolved
    failure with the same payload.
   */
  function OnSuccessAsyncBind<S, F, T>(r: Result<S, F>, onSuccessAsync: S -> Task<Result<T, F>>)
    : (o: Task<Result<T, F>>)
    ensures r.Success? ==> o == onSuccessAsync(r.result)
    ensures r.Failure? ==> o == FromResult(Failure(r.failure))
  {
    r.Fold(onSuccessAsync, (e: F) => FromResult(CreateFailure<T, F>(e)))
  }

  /**
    `OnSuccessAsync(Func<TResult, Task<IFailableResult<...>>>)` on a task: the
    synchronous bind of the awaited result by the awaited callback.
   */
  function TaskOnSuccessAsyncBind<S, F, T>(asyncResult: Task<Result<S, F>>, onSuccessAsync: S -> Task<Result<T, F>>)
    : (o: Task<Result<T, F>>)
    ensures Await(o) == OnSuccessBind(Await(asyncResult), (s: S) => Await(onSuccessAsync(s)))
  {
    var result := Await(asyncResult);
    var newResult := Await(result.Fold(onSuccessAsync, (e: F) => FromResult(CreateFailure<T, F>(e))));
    FromResult(newResult)
  }

  /** `OnSuccessAsync(Func<TResult, IFailableResult<...>>)` on a task: the bind of the awaited result. */
  function TaskOnSuccessBind<S, F, T>(asyncResult: Task<Result<S, F>>, onSuccess: S -> Result<T, F>)
    : (o: Task<Result<T, F>>)
    ensures Await(o) == OnSuccessBind(Await(asyncResult), onSuccess)
  {
    var result := Await(asyncResult);
    FromResult(result.Fold(onSuccess, (e: F) => CreateFailure<T, F>(e)))
  }

  /** `OnFailure(Func<TFailure, TNewFailure>)`: maps the failure payload, passes a success on. */
  function OnFailure<S, F, G>(r: Result<S, F>, onFailure: F -> G): (r': Result<S, G>)
    ensures r.Failure? ==> r' == Failure(onFailure(r.failure))
    ensures r.Success? ==> r' == Success(r.result)
  {
    r.Fold((s: S) => CreateSuccess<S, G>(s), f => CreateFailure<S, G>(onFailure(f)))
  }

  /** `OnFailureAsync(Func<TFailure, TNewFailure>)` on a task: the failure map of the awaited result. */
  function TaskOnFailure<S, F, G>(asyncResult: Task<Result<S, F>>, onFailure: F -> G): (o: Task<Result<S, G>>)
    ensures Await(o) == OnFailure(Await(asyncResult), onFailure)
  {
    var result := Await(asyncResult);
    FromResult(result.Fold((s: S) => CreateSuccess<S, G>(s), f => CreateFailure<S, G>(onFailure(f))))
  }

  /**
    `OnFailure(Action<TFailure>)`: returns the result it was given, unchanged;
    the action runs exactly once, with the failure payload, on a failure, and
    never on a success.
   */
  function OnFailureAction<S, F, E>(r: Result<S, F>, onFailure: F -> E): (o: Effectful<Result<S, F>, E>)
    ensures o.value == r
    ensures r.Success? ==> o.effects == []
    ensures r.Failure? ==> o.effects == [onFailure(r.failure)]
  {
    var handled := r.Fold(
      (s: S) => Effectful(true, []),
      f => Effectful(false, [onFailure(f)]));
    Effectful(r, handled.effects)
  }

  /** `OnFailureAsync(Action<TFailure>)` on a task: `OnFailure(Action)` on the awaited result. */
  function TaskOnFailureAction<S, F, E>(asyncResult: Task<Result<S, F>>, onFailure: F -> E)
    : (o: Effectful<Task<Result<S, F>>, E>)
    ensures Await(o.value) == Await(asyncResult)
    ensures o.effects == OnFailureAction(Await(asyncResult), onFailure).effects
  {
    var result := Await(asyncResult);
    var observed := OnFailureAction(result, onFailure);
    Effectful(FromResult(observed.value), observed.effects)
  }

  /** `GetResultOrThrowException`: the success payload, or the exception `onFailure` builds, thrown. */
  function GetResultOrThrowException<S, F, X>(r: Result<S, F>, onFailure: F -> X): (c: Completion<S, X>)
    ensures r.Success? ==> c == Value(r.result)
    ensures r.Failure? ==> c == Thrown(onFailure(r.failure))
  {
    r.Fold((s: S) => Value(s), f => Thrown(onFailure(f)))
  }

  /** `GetResultOrThrowExceptionAsync`: `GetResultOrThrowException` on the awaited result. */
  function GetResultOrThrowExceptionAsync<S, F, X>(asyncResult: Task<Result<S, F>>, onFailure: F -> X)
    : (o: Task<Completion<S, X>>)
    ensures Await(asyncResult).Success? ==> Await(o) == Value(Await(asyncResult).result)
    ensures Await(asyncResult).Failure? ==> Await(o) == Thrown(onFailure(Await(asyncResult).failure))
  {
    var result := Await(asyncResult);
    FromResult(GetResultOrThrowException(result, onFailure))
  }

  /**
    The overloads that share a signature with one in `FailableResultExtensions`
    of the same namespace compute the same thing, so whichever C# picks does
    not matter.
   */
  lemma AgreesWithFailableResultExtensions<S, F, T, G, X>(
    r: Result<S, F>, asyncResult: Task<Result<S, F>>,
    bind: S -> Result<T, F>, bindAsync: S -> Task<Result<T, F>>, g: F -> G, toException: F -> X)
    ensures OnSuccessBind(r, bind) == Sibling.OnSuccessBind(r, bind)
    ensures OnSuccessAsyncBind(r, bindAsync) == Sibling.OnSuccessAsyncBind(r, bindAsync)
    ensures TaskOnSuccessAsyncBind(asyncResult, bindAsync) == Sibling.TaskOnSuccessAsyncBind(asyncResult, bindAsync)
    ensures TaskOnSuccessBind(asyncResult, bind) == Sibling.TaskOnSuccessBind(asyncResult, bind)
    ensures OnFailure(r, g) == Sibling.OnFailure(r, g)
    ensures TaskOnFailure(asyncResult, g) == Sibling.TaskOnFailure(asyncResult, g)
    ensures GetResultOrThrowException(r, toException) == Sibling.GetResultOrThrowException(r, toException)
    ensures GetResultOrThrowExceptionAsync(asyncResult, toException)
            == Sibling.GetResultOrThrowExceptionAsync(asyncResult, toException)
  {
  }

  /** Observing a failure does not alter the chain: what follows sees the same result. */
  lemma OnFailureActionIsTransparent<S, F, E, T>(r: Result<S, F>, act: F -> E, bind: S -> Result<T, F>)
    ensures OnSuccessBind(OnFailureAction(r, act).value, bind) == OnSuccessBind(r, bind)
    ensures |OnFailureAction(r, act).effects| <= 1
  {
  }

  /** The values the unit tests expect. */
  lemma InterfaceExtensionExamples()
    ensures OnSuccessBind(CreateSuccess<int, int>(1), (x: int) => CreateSuccess<int, int>(x + 1)) == Success(2)
    ensures OnSuccessBind(CreateFailure<int, int>(1), (x: int) => CreateSuccess<int, int>(x + 1)) == Failure(1)
    ensures OnFailure(CreateSuccess<int, int>(1), (x: int) => x + 1) == Success(1)
    ensures OnFailure(CreateFailure<int, int>(1), (x: int) => x + 1) == Failure(2)
    ensures OnFailureAction(CreateSuccess<int, int>(1), (i: int) => i).effects == []
    ensures OnFailureAction(CreateFailure<int, int>(1), (i: int) => i).effects == [1]
    ensures TaskOnFailureAction(FromResult(CreateSuccess<int, int>(1)), (i: int) => i).effects == []
    ensures TaskOnFailureAction(FromResult(CreateFailure<int, int>(1)), (i: int) => i).effects == [1]
    ensures GetResultOrThrowException(CreateSuccess<int, int>(1), (i: int) => i) == Value(1)
    ensures GetResultOrThrowException(CreateFailure<int, int>(12345), (i: int) => i) == Thrown(12345)
    ensures Await(GetResultOrThrowExceptionAsync(FromResult(CreateSuccess<int, int>(1)), (i: int) => i)) == Value(1)
    ensures Await(GetResultOrThrowExceptionAsync(FromResult(CreateFailure<int, int>(12345)), (i: int) => i)) == Thrown(12345)
  {
  }
}
