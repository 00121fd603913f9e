/**
  `FailableResultExtensions` of the older `FailableResult` package: the
  synchronous combinators, each a single call of `Handle` with two non-null
  handlers. It is the only place that defines the flattening `OnFailure`.

  C# resolves the overloads by the callback's type; Dafny has no overloading,
  so the flattening overloads are named `...Bind`.
 */
module FailableResultExtensions {
  import opened Results

  /** `OnSuccess(Func<TResult, TNewResult>)`: maps the success payload. */
  function OnSuccess<S, F, T>(r: Result<S, F>, onSuccess: S -> T): (r': Result<T, F>)
    ensures r'.Success? <==> r.Success?
    ensures r.Success? ==> r'.result == onSuccess(r.result)
    ensures r.Failure? ==> r'.failure == r.failure
  {
    r.Fold(s => CreateSuccess<T, F>(onSuccess(s)), f => CreateFailure<T, F>(f))
  }

  /**
    `OnSuccess(Func<TResult, IFailableResult<TNewResult, TFailure>>)`: a success
    is replaced by the result the callback builds; a failure is passed on with
    the same payload and the callback is never applied.
   */
  function OnSuccessBind<S, F, T>(r: Result<S, F>, onSuccess: S -> Result<T, F>): (r': Result<T, F>)
    ensures r.Success? ==> r' == onSuccess(r.result)
    ensures r.Failure? ==> r' == Failure(r.failure)
  {
    r.Fold(s => onSuccess(s), f => CreateFailure<T, F>(f))
  }

  /** `OnFailure(Func<TFailure, TNewFailure>)`: maps the failure payload. */
  function OnFailure<S, F, G>(r: Result<S, F>, onFailure: F -> G): (r': Result<S, G>)
    ensures r'.Failure? <==> r.Failure?
    ensures r.Failure? ==> r'.failure == onFailure(r.failure)
    ensures r.Success? ==> r'.result == r.result
  {
    r.Fold(s => CreateSuccess<S, G>(s), f => CreateFailure<S, G>(onFailure(f)))
  }

  /**
    `OnFailure(Func<TFailure, IFailableResult<TResult, TNewFailure>>)`: a failure
    is replaced by the result the callback builds; a success is passed on.
   */
  function OnFailureBind<S, F, G>(r: Result<S, F>, onFailure: F -> Result<S, G>): (r': Result<S, G>)
    ensures r.Failure? ==> r' == onFailure(r.failure)
    ensures r.Success? ==> r' == Success(r.result)
  {
    r.Fold(s => CreateSuccess<S, G>(s), f => onFailure(f))
  }

  /**
    `GetResultOrThrowException`: the success payload, or the exception that
    `onFailure` builds from the failure payload, thrown.
   */
  function GetResultOrThrowException<S, F, X>(r: Result<S, F>, onFailure: F -> X): (c: Completion<S, X>)
    ensures c.Value? <==> r.Success?
    ensures r.Success? ==> c.value == r.result
    ensures r.Failure? ==> c.exception == onFailure(r.failure)
  {
    r.Fold(s => Value(s), f => Thrown(onFailure(f)))
  }

  /** Functor identity: mapping the identity changes nothing. */
  lemma OnSuccessIdentity<S, F>(r: Result<S, F>)
    ensures OnSuccess(r, (s: S) => s) == r
  {
  }

  /** Functor composition: two maps in a row are one map of the composition. */
  lemma OnSuccessComposition<S, F, T, U>(r: Result<S, F>, f: S -> T, g: T -> U)
    ensures OnSuccess(OnSuccess(r, f), g) == OnSuccess(r, (s: S) => g(f(s)))
  {
  }

  /** A map is a bind whose callback always succeeds. */
  lemma OnSuccessIsBind<S, F, T>(r: Result<S, F>, f: S -> T)
    ensures OnSuccess(r, f) == OnSuccessBind(r, (s: S) => CreateSuccess<T, F>(f(s)))
  {
  }

  /** Monad left identity: binding a created success applies the callback. */
  lemma OnSuccessBindLeftIdentity<S, F, T>(s: S, f: S -> Result<T, F>)
    ensures OnSuccessBind(CreateSuccess<S, F>(s), f) == f(s)
  {
  }

  /** Monad right identity: binding `Create` changes nothing. */
  lemma OnSuccessBindRightIdentity<S, F>(r: Result<S, F>)
    ensures OnSuccessBind(r, (s: S) => CreateSuccess<S, F>(s)) == r
  {
  }

  /** Monad associativity: a chain of binds may be regrouped. */
  lemma OnSuccessBindAssociativity<S, F, T, U>(r: Result<S, F>, f: S -> Result<T, F>, g: T -> Result<U, F>)
    ensures OnSuccessBind(OnSuccessBind(r, f), g) == OnSuccessBind(r, (s: S) => OnSuccessBind(f(s), g))
  {
  }

  /** A failure short-circuits every `OnSuccess`: the payload is untouched. */
  lemma FailureShortCircuitsOnSuccess<S, F, T>(e: F, f: S -> T, b: S -> Result<T, F>)
    ensures OnSuccess(CreateFailure<S, F>(e), f) == CreateFailure(e)
    ensures OnSuccessBind(CreateFailure<S, F>(e), b) == CreateFailure(e)
  {
  }

  /** The failure-side identity and composition laws. */
  lemma OnFailureFunctorLaws<S, F, G, H>(r: Result<S, F>, f: F -> G, g: G -> H)
    ensures OnFailure(r, (e: F) => e) == r
    ensures OnFailure(OnFailure(r, f), g) == OnFailure(r, (e: F) => g(f(e)))
  {
  }

  /** The failure-side monad laws: left and right identity, associativity. */
  lemma OnFailureBindLaws<S, F, G, H>(e: F, r: Result<S, F>, f: F -> Result<S, G>, g: G -> Result<S, H>)
    ensures OnFailureBind(CreateFailure<S, F>(e), f) == f(e)
    ensures OnFailureBind(r, (x: F) => CreateFailure<S, F>(x)) == r
    ensures OnFailureBind(OnFailureBind(r, f), g) == OnFailureBind(r, (x: F) => OnFailureBind(f(x), g))
  {
  }

  /** Mapping the success side and the failure side commute. */
  lemma OnSuccessOnFailureCommute<S, F, T, G>(r: Result<S, F>, f: S -> T, g: F -> G)
    ensures OnFailure(OnSuccess(r, f), g) == OnSuccess(OnFailure(r, g), f)
  {
  }

  /**
    Extracting a result is a full inverse of creating it: a success gives its
    payload back and a failure always throws.
   */
  lemma GetResultOrThrowExceptionOfCreate<S, F, X>(s: S, e: F, onFailure: F -> X)
    ensures GetResultOrThrowException(CreateSuccess<S, F>(s), onFailure) == Value(s)
    ensures GetResultOrThrowException(CreateFailure<S, F>(e), onFailure) == Thrown(onFailure(e))
  {
  }

  /** The values the unit tests of the package expect. */
  lemma ExtensionExamples()
    ensures GetResultOrThrowException(OnSuccess(CreateSuccess<string, string>("result"), (r: string) => 2), (f: string) => "Exception") == Value(2)
    ensures GetResultOrThrowException(
              OnSuccess(OnSuccess(CreateSuccess<int, int>(1), (s: int) => s * 2), (s: int) => s + 5),
              (f: int) => "Exception") == Value(7)
    ensures GetResultOrThrowException(
              OnSuccessBind(CreateSuccess<int, int>(1), (s: int) => CreateSuccess<int, int>(s + 5)),
              (f: int) => "Exception") == Value(6)
    ensures OnSuccessBind(CreateFailure<int, int>(1), (s: int) => CreateSuccess<int, int>(s + 5)).Fold((s: int) => s, (f: int) => f) == 1
    ensures OnFailure(OnSuccess(CreateFailure<int, int>(2), (s: int) => s * 2), (f: int) => f * 3).Fold((s: int) => s, (f: int) => f) == 6
    ensures OnFailure(OnSuccess(CreateSuccess<int, int>(2), (s: int) => s * 2), (f: int) => f * 3).Fold((s: int) => s, (f: int) => f) == 4
    ensures OnFailureBind(OnSuccess(CreateFailure<int, int>(2), (s: int) => s * 2), (f: int) => CreateFailure<int, int>(f * 3)).Fold((s: int) => s, (f: int) => f) == 6
    ensures OnFailureBind(OnSuccess(CreateSuccess<int, int>(2), (s: int) => s * 2), (f: int) => CreateFailure<int, int>(f * 3)).Fold((s: int) => s, (f: int) => f) == 4
    ensures OnSuccess(CreateFailure<string, string>("failure"), (r: string) => 2).Fold((s: int) => "", (f: string) => f) == "failure"
    ensures GetResultOrThrowException(CreateSuccess<string, bool>("result"), (f: bool) => "Exception") == Value("result")
    ensures GetResultOrThrowException(CreateFailure<string, string>("failure"), (f: string) => "Exception").Thrown?
  {
  }
}
