/**
  The failable result value: `IFailableResult<TResult, TFailure>` with its two
  implementations `SuccessResult` and `FailureResult`.

  Both packages (the older `FailableResult` and `FailableResult.NetCore`) define
  the same interface and the same two classes with the same behaviour, so one
  datatype models both. The C# classes are immutable (a get-only payload set
  once by the constructor); a Dafny datatype value is immutable by construction.
 */
module Results {
  import opened Tasks

  /** A handler that may be `null` in C#. */
  datatype Option<T> = None | Some(value: T)

  /**
    What a call of `Handle` ends with: the value the triggered handler returned,
    or an `ArgumentNullException` naming the missing handler's parameter.
   */
  datatype Handled<T> = Returned(value: T) | NullHandler(paramName: string)

  /**
    What `GetResultOrThrowException` ends with: the success payload, or the
    exception value the caller's mapping built from the failure payload.
   */
  datatype Completion<T, X> = Value(value: T) | Thrown(exception: X)

  /**
    `IFailableResult<TResult, TFailure>`: exactly one of a success carrying a
    `TResult` (the `Result` property of `SuccessResult`) or a failure carrying a
    `TFailure` (the `Failure` property of `FailureResult`).
   */
  datatype Result<S, F> = Success(result: S) | Failure(failure: F)
  {
    /**
      `Handle`: triggers the handler chosen by the variant, with that variant's
      payload, and returns what it returns. Only the triggered handler is checked
      for `null`; the other one is never looked at.
     */
    function Handle<T>(onSuccess: Option<S -> T>, onFailure: Option<F -> T>): (h: Handled<T>)
      ensures h.Returned? <==> (if Success? then onSuccess.Some? else onFailure.Some?)
      ensures Success? && onSuccess.Some? ==> h == Returned(onSuccess.value(result))
      ensures Failure? && onFailure.Some? ==> h == Returned(onFailure.value(failure))
      ensures h.NullHandler? ==> h.paramName == if Success? then "onSuccess" else "onFailure"
    {
      match this
      case Success(s) =>
        if onSuccess.None? then NullHandler("onSuccess") else Returned(onSuccess.value(s))
      case Failure(e) =>
        if onFailure.None? then NullHandler("onFailure") else Returned(onFailure.value(e))
    }

    /**
      `Handle` with both handlers supplied, which is how every extension method
      except `HandleAsync` calls it, given the non-null callbacks this model
      assumes: it can never raise, and yields the value of the triggered handler.
     */
    function Fold<T>(onSuccess: S -> T, onFailure: F -> T): (v: T)
      ensures Handle(Some(onSuccess), Some(onFailure)) == Returned(v)
    {
      var h := Handle(Some(onSuccess), Some(onFailure));
      h.value
    }
  }

  /** `SuccessResult<TResult, TFailure>.Create`: the only way to build a success. */
  function CreateSuccess<S, F>(result: S): (r: Result<S, F>)
    ensures r.Success? && r.result == result
    ensures r.Handle(Some((s: S) => s), None) == Returned(result)
  {
    Success(result)
  }

  /** `FailureResult<TResult, TFailure>.Create`: the only way to build a failure. */
  function CreateFailure<S, F>(failure: F): (r: Result<S, F>)
    ensures r.Failure? && r.failure == failure
    ensures r.Handle(None, Some((e: F) => e)) == Returned(failure)
  {
    Failure(failure)
  }

  /** `SuccessResult<TResult, TFailure>.CreateAsync`: an already-resolved success. */
  function CreateSuccessAsync<S, F>(result: S): (t: Task<Result<S, F>>)
    ensures Await(t) == CreateSuccess(result)
  {
    FromResult(CreateSuccess(result))
  }

  /** `FailureResult<TResult, TFailure>.CreateAsync`: an already-resolved failure. */
  function CreateFailureAsync<S, F>(failure: F): (t: Task<Result<S, F>>)
    ensures Await(t) == CreateFailure(failure)
  {
    FromResult(CreateFailure(failure))
  }

  /** A result is one variant or the other, never both and never neither. */
  lemma ExactlyOneVariant<S, F>(r: Result<S, F>)
    ensures r.Success? != r.Failure?
    ensures r.Success? ==> r == CreateSuccess(r.result)
    ensures r.Failure? ==> r == CreateFailure(r.failure)
  {
  }

  /**
    The handler that is not triggered has no influence on `Handle`: it may be
    replaced by any other handler, including `null`.
   */
  lemma HandleIgnoresInactiveHandler<S, F, T>(
    r: Result<S, F>,
    onSuccess: Option<S -> T>, onFailure: Option<F -> T>,
    otherSuccess: Option<S -> T>, otherFailure: Option<F -> T>)
    ensures r.Success? ==> r.Handle(onSuccess, onFailure) == r.Handle(onSuccess, otherFailure)
    ensures r.Failure? ==> r.Handle(onSuccess, onFailure) == r.Handle(otherSuccess, onFailure)
  {
  }

  /**
    A missing handler for the result's own variant always raises, whatever the
    other handler is; the raise is never a failure value.
   */
  lemma HandleRaisesOnMissingActiveHandler<S, F, T>(
    r: Result<S, F>, onSuccess: Option<S -> T>, onFailure: Option<F -> T>)
    ensures r.Success? && onSuccess.None? ==> r.Handle(onSuccess, onFailure) == NullHandler("onSuccess")
    ensures r.Failure? && onFailure.None? ==> r.Handle(onSuccess, onFailure) == NullHandler("onFailure")
  {
  }

  /** A created success hands its payload to `onSuccess`, and checks only `onSuccess`. */
  lemma SuccessCreateHandle<S, F, T>(s: S, onSuccess: S -> T, onFailure: Option<F -> T>)
    ensures CreateSuccess<S, F>(s).Handle(Some(onSuccess), onFailure) == Returned(onSuccess(s))
    ensures CreateSuccess<S, F>(s).Handle(None, onFailure) == NullHandler("onSuccess")
  {
  }

  /** A created failure hands its payload to `onFailure`, and checks only `onFailure`. */
  lemma FailureCreateHandle<S, F, T>(e: F, onSuccess: Option<S -> T>, onFailure: F -> T)
    ensures CreateFailure<S, F>(e).Handle(onSuccess, Some(onFailure)) == Returned(onFailure(e))
    ensures CreateFailure<S, F>(e).Handle(onSuccess, None) == NullHandler("onFailure")
  {
  }

  /** The values the unit tests expect of `Handle` on created results. */
  lemma HandleExamples()
    ensures CreateSuccess<int, int>(1).Handle(Some((x: int) => x + 1), None) == Returned(2)
    ensures CreateSuccess<int, int>(1).Handle(None, Some((x: int) => x + 2)).NullHandler?
    ensures CreateFailure<int, int>(1).Handle(None, Some((x: int) => x + 2)) == Returned(3)
    ensures CreateFailure<int, int>(1).Handle(Some((x: int) => x + 1), None).NullHandler?
    ensures CreateSuccess<string, bool>("success").Handle(Some((r: string) => r), Some((f: bool) => "")) == Returned("success")
    ensures CreateFailure<bool, string>("failure").Handle(Some((r: bool) => ""), Some((f: string) => f)) == Returned("failure")
  {
  }
}
