/**
  `FailableResultExtensions` of the `FailableResult.NetCore` package: the two
  `HandleAsync` overloads, the synchronous combinators and their `Task`-based
  counterparts.

  Naming of the C# overloads here: a `Task...` prefix for the overloads whose
  receiver is a `Task<IFailableResult<...>>`, an `...Async` part for those whose
  callback returns a `Task`, and a `...Bind` suffix for those whose callback
  returns a whole result (the flattening overloads).
 */
module NetCoreFailableResultExtensions {
  import opened Tasks
  import opened Results
  import Legacy = FailableResultExtensions

  /** A handler that returns a task, seen as the handler that awaits it. */
  function Awaited<A, T>(handler: Option<A -> Task<T>>): Option<A -> T>
  {
    match handler
    case None => None
    case Some(f) => Some((x: A) => Await(f(x)))
  }

  /**
    `HandleAsync(Func<TResult, TNewResult>, Func<TFailure, TNewResult>)`: awaits
    the result and handles it; a missing active handler faults the task with an
    `ArgumentNullException`, as `Handle` raises it.
   */
  function HandleAsync<S, F, T>(asyncResult: Task<Result<S, F>>, onSuccess: Option<S -> T>, onFailure: Option<F -> T>)
    : (o: Task<Handled<T>>)
    ensures Await(o).Returned? <==> (if Await(asyncResult).Success? then onSuccess.Some? else onFailure.Some?)
    ensures Await(o) == Await(asyncResult).Handle(onSuccess, onFailure)
  {
    var result := Await(asyncResult);
    FromResult(result.Handle(onSuccess, onFailure))
  }

  /**
    `HandleAsync(Func<TResult, Task<TNewResult>>, Func<TFailure, Task<TNewResult>>)`:
    awaits the result, handles it, and awaits the task the handler returned. It
    ends as `Handle` on the awaited result with the awaiting handlers.
   */
  function HandleAsyncAwaiting<S, F, T>(
    asyncResult: Task<Result<S, F>>, onSuccessAsync: Option<S -> Task<T>>, onFailureAsync: Option<F -> Task<T>>)
    : (o: Task<Handled<T>>)
    ensures Await(o) == Await(asyncResult).Handle(Awaited(onSuccessAsync), Awaited(onFailureAsync))
  {
    var result := Await(asyncResult);
    match result.Handle(onSuccessAsync, onFailureAsync)
    case Returned(task) => FromResult(Returned(Await(task)))
    case NullHandler(name) => FromResult(NullHandler(name))
  }

  /** `HandleAsync` with both handlers supplied: the task never faults. */
  function FoldAsync<S, F, T>(asyncResult: Task<Result<S, F>>, onSuccess: S -> T, onFailure: F -> T): (o: Task<T>)
    ensures Await(o) == Await(asyncResult).Fold(onSuccess, onFailure)
  {
    var handled := HandleAsync(asyncResult, Some(onSuccess), Some(onFailure));
    FromResult(Await(handled).value)
  }

  /** The awaiting `HandleAsync` with both handlers supplied: the task never faults. */
  function FoldAsyncAwaiting<S, F, T>(
    asyncResult: Task<Result<S, F>>, onSuccessAsync: S -> Task<T>, onFailureAsync: F -> Task<T>)
    : (o: Task<T>)
    ensures Await(o) == Await(asyncResult).Fold((s: S) => Await(onSuccessAsync(s)), (e: F) => Await(onFailureAsync(e)))
  {
    var handled := HandleAsyncAwaiting(asyncResult, Some(onSuccessAsync), Some(onFailureAsync));
    FromResult(Await(handled).value)
  }

  /** `OnSuccess(Func<TResult, IFailableResult<...>>)`: the same bind as the older package's. */
  function OnSuccessBind<S, F, T>(r: Result<S, F>, onSuccess: S -> Result<T, F>): (r': Result<T, F>)
    ensures r' == Legacy.OnSuccessBind(r, onSuccess)
  {
    r.Fold(onSuccess, (e: F) => CreateFailure<T, F>(e))
  }

  /** `OnSuccess(Func<TResult, TNewResult>)`: the same map as the older package's. */
  function OnSuccess<S, F, T>(r: Result<S, F>, onSuccess: S -> T): (r': Result<T, F>)
    ensures r' == Legacy.OnSuccess(r, onSuccess)
  {
    r.Fold(s => CreateSuccess<T, F>(onSuccess(s)), (e: F) => CreateFailure<T, F>(e))
  }

  /**
    `OnSuccessAsync(Func<TResult, Task<IFailableResult<...>>>)` on a plain result:
    a success yields the callback's own task, a failure an already-resolved
    failure with the same payload; awaited, it is the synchronous bind.
   */
  function OnSuccessAsyncBind<S, F, T>(r: Result<S, F>, onSuccessAsync: S -> Task<Result<T, F>>)
    : (o: Task<Result<T, F>>)
    ensures r.Success? ==> o == onSuccessAsync(r.result)
    ensures r.Failure? ==> o == FromResult(Failure(r.failure))
    ensures Await(o) == OnSuccessBind(r, (s: S) => Await(onSuccessAsync(s)))
  {
    r.Fold(onSuccessAsync, (e: F) => CreateFailureAsync<T, F>(e))
  }

  /**
    `OnSuccessAsync(Func<TResult, Task<TNewResult>>)` on a plain result: awaited,
    it is the synchronous map by the awaited callback.
   */
  function OnSuccessAsyncMap<S, F, T>(r: Result<S, F>, onSuccessAsync: S -> Task<T>): (o: Task<Result<T, F>>)
    ensures Await(o) == OnSuccess(r, (s: S) => Await(onSuccessAsync(s)))
  {
    r.Fold(s => FromResult(CreateSuccess<T, F>(Await(onSuccessAsync(s)))), (e: F) => CreateFailureAsync<T, F>(e))
  }

  /** `OnSuccessAsync(Func<TResult, IFailableResult<...>>)` on a task: the bind of the awaited result. */
  function TaskOnSuccessBind<S, F, T>(asyncResult: Task<Result<S, F>>, onSuccess: S -> Result<T, F>)
    : (o: Task<Result<T, F>>)
    ensures Await(o) == OnSuccessBind(Await(asyncResult), onSuccess)
  {
    FoldAsync(asyncResult, onSuccess, (e: F) => CreateFailure<T, F>(e))
  }

  /** `OnSuccessAsync(Func<TResult, TNewResult>)` on a task: the map of the awaited result. */
  function TaskOnSuccessMap<S, F, T>(asyncResult: Task<Result<S, F>>, onSuccess: S -> T): (o: Task<Result<T, F>>)
    ensures Await(o) == OnSuccess(Await(asyncResult), onSuccess)
  {
    FoldAsync(asyncResult, s => CreateSuccess<T, F>(onSuccess(s)), (e: F) => CreateFailure<T, F>(e))
  }

  /**
    `OnSuccessAsync(Func<TResult, Task<IFailableResult<...>>>)` on a task: the
    bind of the awaited result by the awaited callback.
   */
  function TaskOnSuccessAsyncBind<S, F, T>(asyncResult: Task<Result<S, F>>, onSuccessAsync: S -> Task<Result<T, F>>)
    : (o: Task<Result<T, F>>)
    ensures Await(o) == OnSuccessBind(Await(asyncResult), (s: S) => Await(onSuccessAsync(s)))
  {
    FoldAsyncAwaiting(asyncResult, onSuccessAsync, (e: F) => CreateFailureAsync<T, F>(e))
  }

  /**
    `OnSuccessAsync(Func<TResult, Task<TNewResult>>)` on a task: the map of the
    awaited result by the awaited callback.
   */
  function TaskOnSuccessAsyncMap<S, F, T>(asyncResult: Task<Result<S, F>>, onSuccessAsync: S -> Task<T>)
    : (o: Task<Result<T, F>>)
    ensures Await(o) == OnSuccess(Await(asyncResult), (s: S) => Await(onSuccessAsync(s)))
  {
    var handled := FoldAsyncAwaiting(
      asyncResult,
      s => FromResult(CreateSuccess<T, F>(Await(onSuccessAsync(s)))),
      (e: F) => CreateFailureAsync<T, F>(e));
    FromResult(Await(handled))
  }

  /** `OnFailure(Func<TFailure, TNewFailure>)`: the same failure map as the older package's. */
  function OnFailure<S, F, G>(r: Result<S, F>, onFailure: F -> G): (r': Result<S, G>)
    ensures r' == Legacy.OnFailure(r, onFailure)
  {
    r.Fold((s: S) => CreateSuccess<S, G>(s), f => CreateFailure<S, G>(onFailure(f)))
  }

  /** `OnFailureAsync(Func<TFailure, TNewFailure>)` on a task: the failure map of the awaited result. */
  function TaskOnFailure<S, F, G>(asyncResult: Task<Result<S, F>>, onFailure: F -> G): (o: Task<Result<S, G>>)
    ensures Await(o) == OnFailure(Await(asyncResult), onFailure)
  {
    FoldAsync(asyncResult, (s: S) => CreateSuccess<S, G>(s), f => CreateFailure<S, G>(onFailure(f)))
  }

  /**
    `OnFailureAsync(Func<TFailure, Task<TNewFailure>>)` on a task: the failure map
    of the awaited result by the awaited callback.
   */
  function TaskOnFailureAsync<S, F, G>(asyncResult: Task<Result<S, F>>, onFailureAsync: F -> Task<G>)
    : (o: Task<Result<S, G>>)
    ensures Await(o) == OnFailure(Await(asyncResult), (e: F) => Await(onFailureAsync(e)))
  {
    FoldAsyncAwaiting(
      asyncResult,
      (s: S) => CreateSuccessAsync<S, G>(s),
      f => FromResult(CreateFailure<S, G>(Await(onFailureAsync(f)))))
  }

  /** `GetResultOrThrowException`: the same extraction as the older package's. */
  function GetResultOrThrowException<S, F, X>(r: Result<S, F>, onFailure: F -> X): (c: Completion<S, X>)
    ensures c == Legacy.GetResultOrThrowException(r, onFailure)
  {
    r.Fold((s: S) => Value(s), f => Thrown(onFailure(f)))
  }

  /**
    `GetResultOrThrowExceptionAsync`: the awaited result's success payload, or
    the task faults with the exception `onFailure` builds.
   */
  function GetResultOrThrowExceptionAsync<S, F, X>(asyncResult: Task<Result<S, F>>, onFailure: F -> X)
    : (o: Task<Completion<S, X>>)
    ensures Await(o).Value? <==> Await(asyncResult).Success?
    ensures Await(o).Value? ==> Await(o).value == Await(asyncResult).result
    ensures Await(o).Thrown? ==> Await(o).exception == onFailure(Await(asyncResult).failure)
  {
    var result := Await(asyncResult);
    FromResult(GetResultOrThrowException(result, onFailure))
  }

  /**
    Both `HandleAsync` overloads behave as `Handle` does on the awaited result:
    the inactive handler has no influence and a missing active one raises.
   */
  lemma HandleAsyncIgnoresInactiveHandler<S, F, T>(
    asyncResult: Task<Result<S, F>>,
    onSuccess: Option<S -> T>, onFailure: Option<F -> T>,
    otherSuccess: Option<S -> T>, otherFailure: Option<F -> T>,
    onSuccessAsync: Option<S -> Task<T>>, onFailureAsync: Option<F -> Task<T>>,
    otherSuccessAsync: Option<S -> Task<T>>, otherFailureAsync: Option<F -> Task<T>>)
    ensures Await(asyncResult).Success? ==>
      HandleAsync(asyncResult, onSuccess, onFailure) == HandleAsync(asyncResult, onSuccess, otherFailure)
    ensures Await(asyncResult).Failure? ==>
      HandleAsync(asyncResult, onSuccess, onFailure) == HandleAsync(asyncResult, otherSuccess, onFailure)
    ensures Await(asyncResult).Success? ==>
      HandleAsyncAwaiting(asyncResult, onSuccessAsync, onFailureAsync)
      == HandleAsyncAwaiting(asyncResult, onSuccessAsync, otherFailureAsync)
    ensures Await(asyncResult).Failure? ==>
      HandleAsyncAwaiting(asyncResult, onSuccessAsync, onFailureAsync)
      == HandleAsyncAwaiting(asyncResult, otherSuccessAsync, onFailureAsync)
    ensures Await(asyncResult).Success? && onSuccess.None? ==>
      Await(HandleAsync(asyncResult, onSuccess, onFailure)) == NullHandler("onSuccess")
    ensures Await(asyncResult).Failure? && onFailure.None? ==>
      Await(HandleAsync(asyncResult, onSuccess, onFailure)) == NullHandler("onFailure")
    ensures Await(asyncResult).Success? && onSuccessAsync.None? ==>
      Await(HandleAsyncAwaiting(asyncResult, onSuccessAsync, onFailureAsync)) == NullHandler("onSuccess")
    ensures Await(asyncResult).Failure? && onFailureAsync.None? ==>
      Await(HandleAsyncAwaiting(asyncResult, onSuccessAsync, onFailureAsync)) == NullHandler("onFailure")
  {
    var result := Await(asyncResult);
    Results.HandleIgnoresInactiveHandler(result, onSuccess, onFailure, otherSuccess, otherFailure);
    Results.HandleIgnoresInactiveHandler(
      result, Awaited(onSuccessAsync), Awaited(onFailureAsync), Awaited(otherSuccessAsync), Awaited(otherFailureAsync));
  }

  /**
    The mixed chain of the unit tests: from `Create(1)`,
    `OnSuccess(+1).OnFailure(-3).OnSuccessAsync(+2).OnSuccessAsync(+1).OnFailureAsync(-3)`
    ends as a success 5, and from a failure 1 as a failure -5.
   */
  lemma MixedChainExample()
    ensures Await(TaskOnFailure(
              TaskOnSuccessBind(
                OnSuccessAsyncBind(
                  OnFailure(OnSuccessBind(CreateSuccess<int, int>(1), (x: int) => CreateSuccess<int, int>(x + 1)), (x: int) => x - 3),
                  (x: int) => FromResult(CreateSuccess<int, int>(x + 2))),
                (x: int) => CreateSuccess<int, int>(x + 1)),
              (x: int) => x - 3)) == Success(5)
    ensures Await(TaskOnFailure(
              TaskOnSuccessBind(
                OnSuccessAsyncBind(
                  OnFailure(OnSuccessBind(CreateFailure<int, int>(1), (x: int) => CreateSuccess<int, int>(x + 1)), (x: int) => x - 3),
                  (x: int) => FromResult(CreateSuccess<int, int>(x + 2))),
                (x: int) => CreateSuccess<int, int>(x + 1)),
              (x: int) => x - 3)) == Failure(-5)
  {
  }
}
