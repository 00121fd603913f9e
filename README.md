# FailableResult in Dafny

A model of the FailableResult library: a result value that is exactly one of a
success (carrying a `TResult`) or a failure (carrying a `TFailure`), observed
only through `Handle`, and a family of extension methods built on `Handle` that
map, flatten, observe and extract results, synchronously and on `Task`s. The
library exists in two packages, the older `FailableResult` and
`FailableResult.NetCore`; both are modelled.

- `tasks.dfy` (module `Tasks`): a completed `Task<T>` as `Done(result)`, with
  `FromResult` and `Await`.
- `results.dfy` (module `Results`): `IFailableResult` and the `SuccessResult`
  and `FailureResult` classes of both packages, which behave identically, as
  the datatype `Result<S, F> = Success(result) | Failure(failure)`.
  `Handle` takes each handler as an `Option` (`None` is C#'s `null`) and ends
  as `Returned(value)` or `NullHandler(paramName)`, the `ArgumentNullException`
  naming the missing parameter. `Fold` is `Handle` with both handlers supplied,
  which is how every extension method except `HandleAsync` calls it, given the
  non-null callbacks assumed under "Left out". `HandleAsync` passes its
  caller's handlers, possibly null, straight to `Handle`. The factories are
  `CreateSuccess`, `CreateFailure` and their `...Async` forms.
- `failable_result_extensions.dfy` (module `FailableResultExtensions`): the
  older package's `OnSuccess` (map and flatten), `OnFailure` (map and flatten)
  and `GetResultOrThrowException`, with the functor and monad laws.
- `netcore_failable_result_extensions.dfy` (module
  `NetCoreFailableResultExtensions`): the NetCore `FailableResultExtensions`.
  This covers both `HandleAsync` overloads, all six `OnSuccessAsync` overloads,
  `OnFailure`, `OnFailureAsync` and `GetResultOrThrowException[Async]`.
- `netcore_ifailable_result_extensions.dfy` (module
  `NetCoreIFailableResultExtensions`): the NetCore `IFailableResultExtensions`,
  including the side-effecting `OnFailure(Action)`.
- `pipelines.dfy` (module `Pipelines`): chains of these calls. A chain run on a
  `Task` agrees with the same chain run synchronously. A failure passes every
  success-side step, and a success passes every failure-side step. Observing
  actions never change the result.

Dafny has no overloading, so the C# overloads get distinct names. A `Task`
prefix marks an overload whose receiver is a `Task<IFailableResult<...>>`. An
`Async` part marks one whose callback returns a `Task`. A `Bind` suffix marks a
flattening overload, whose callback returns a whole result. `Map` marks the
asynchronous overloads that are not flattening.

A thrown exception is modelled as a value. `GetResultOrThrowException` ends as
`Value(s)` or `Thrown(onFailure(e))`. `OnFailure(Action)` returns the result
together with the effects the action was asked to perform (`Effectful`).

`SuccessResult.CreateAsync` is called by
FailableResult.NetCore/FailableResultExtensions.cs:119 and by the older
package's tests. The NetCore `FailureResult.CreateAsync` is called by the same
file at lines 51, 59, 85 and 94. Neither is defined in the source shown:
neither package's `SuccessResult.cs` nor the NetCore `FailureResult.cs` defines
one. Both are modelled as the older `FailureResult.CreateAsync` is written
(FailableResult/FailureResult.cs:8-9), as an already-resolved task of `Create`.

## Model

| member | source | states |
|---|---|---|
| `Results.Result.Handle` | FailableResult.NetCore/IFailableResult.cs:13-17 | returns a value exactly when the handler of the result's own variant is supplied; that value is the handler applied to the payload; otherwise it raises naming `onSuccess` or `onFailure` |
| `Results.ExactlyOneVariant` | FailableResult.NetCore/IFailableResult.cs:5-11 | every result is exactly one of a success or a failure, and is what the matching factory builds from its payload |
| `Results.HandleIgnoresInactiveHandler` | FailableResult.NetCore/IFailableResult.cs:14-15 | the handler of the other variant has no influence on `Handle`; it may be replaced by any handler or by null |
| `Results.SuccessCreateHandle` | FailableResult.NetCore/SuccessResult.cs:7-24 | `Create(s).Handle(onSuccess, any)` returns `onSuccess(s)`; with a null `onSuccess` it raises for `onSuccess`, whatever `onFailure` is |
| `Results.FailureCreateHandle` | FailableResult.NetCore/FailureResult.cs:7-24 | `Create(e).Handle(any, onFailure)` returns `onFailure(e)`; with a null `onFailure` it raises for `onFailure`, whatever `onSuccess` is |
| `Results.CreateSuccess` | FailableResult/SuccessResult.cs:7-15 | builds a success whose `Result` is the argument; handling it with the identity returns the argument |
| `Results.CreateFailure` | FailableResult/FailureResult.cs:11-19 | builds a failure whose `Failure` is the argument; handling it with the identity returns the argument |
| `Results.CreateFailureAsync` | FailableResult/FailureResult.cs:8-9 | resolves to exactly `Create(failure)` |
| `Results.CreateSuccessAsync` | FailableResult.Tests/SuccessResultTests.cs:23-29 | resolves to exactly `Create(result)` |
| `Results.HandleRaisesOnMissingActiveHandler` | FailableResult/SuccessResult.cs:17-22 | a null handler for the result's own variant always raises, never yields a failure value, whatever the other handler is |
| `Results.HandleExamples` | FailableResult.NetCore.UnitTests/SuccessResultTests.cs:10-25 | `Create(1).Handle(x+1, null)` is 2 for a success; a failure 1 with `x+2` gives 3; a null active handler raises |
| `FailableResultExtensions.OnSuccess` | FailableResult/FailableResultExtensions.cs:9-15 | the result is a success exactly when the input is; a success's payload is mapped by `onSuccess`; a failure keeps its payload |
| `FailableResultExtensions.OnSuccessBind` | FailableResult/FailableResultExtensions.cs:17-23 | a success becomes the result `onSuccess` builds from its payload; a failure stays the same failure |
| `FailableResultExtensions.OnFailure` | FailableResult/FailableResultExtensions.cs:25-31 | the result is a failure exactly when the input is; a failure's payload is mapped by `onFailure`; a success keeps its payload |
| `FailableResultExtensions.OnFailureBind` | FailableResult/FailableResultExtensions.cs:33-39 | a failure becomes the result `onFailure` builds from its payload; a success stays the same success |
| `FailableResultExtensions.GetResultOrThrowException` | FailableResult/FailableResultExtensions.cs:41-47 | returns a value exactly for a success, and that value is its payload; a failure throws `onFailure(payload)` |
| `FailableResultExtensions.OnSuccessIdentity` | FailableResult/FailableResultExtensions.cs:9-15 | mapping the identity leaves every result unchanged |
| `FailableResultExtensions.OnSuccessComposition` | FailableResult.Tests/FailableResultExtensionsTests.cs:20-29 | two maps in a row equal one map by the composed function |
| `FailableResultExtensions.OnSuccessIsBind` | FailableResult/FailableResultExtensions.cs:9-23 | the map overload is the flattening overload with a callback that always succeeds |
| `FailableResultExtensions.OnSuccessBindLeftIdentity` | FailableResult/FailableResultExtensions.cs:17-22 | binding a created success is the callback applied to its payload |
| `FailableResultExtensions.OnSuccessBindRightIdentity` | FailableResult/FailableResultExtensions.cs:21-23 | binding `SuccessResult.Create` leaves every result unchanged |
| `FailableResultExtensions.OnSuccessBindAssociativity` | FailableResult/FailableResultExtensions.cs:17-23 | a chain of two binds equals one bind by the chained callback |
| `FailableResultExtensions.FailureShortCircuitsOnSuccess` | FailableResult.Tests/FailableResultExtensionsTests.cs:41-49 | both `OnSuccess` overloads return a failure unchanged, with the same payload |
| `FailableResultExtensions.OnFailureFunctorLaws` | FailableResult/FailableResultExtensions.cs:25-31 | the failure map by the identity changes nothing; two failure maps equal one by the composition |
| `FailableResultExtensions.OnFailureBindLaws` | FailableResult/FailableResultExtensions.cs:33-39 | the flattening `OnFailure` satisfies left identity, right identity and associativity |
| `FailableResultExtensions.OnSuccessOnFailureCommute` | FailableResult.Tests/FailableResultExtensionsTests.cs:51-71 | mapping the success side then the failure side equals the other order |
| `FailableResultExtensions.GetResultOrThrowExceptionOfCreate` | FailableResult.Tests/FailableResultExtensionsTests.cs:106-122 | extraction gives back a created success's payload and throws for a created failure |
| `FailableResultExtensions.ExtensionExamples` | FailableResult.Tests/FailableResultExtensionsTests.cs:9-104 | the package's test values: 2, 7, 6, 1, 6, 4, 6, 4, "failure", "result" and a throw |
| `NetCoreFailableResultExtensions.HandleAsync` | FailableResult.NetCore/FailableResultExtensions.cs:10-19 | the awaited outcome is `Handle` on the awaited result, and is a value exactly when the active handler is supplied |
| `NetCoreFailableResultExtensions.HandleAsyncAwaiting` | FailableResult.NetCore/FailableResultExtensions.cs:21-30 | the awaited outcome is `Handle` on the awaited result with handlers that await the tasks they return |
| `NetCoreFailableResultExtensions.HandleAsyncIgnoresInactiveHandler` | FailableResult.NetCore/FailableResultExtensions.cs:10-30 | in both `HandleAsync` overloads and for both variants, the inactive handler may be replaced by any handler or by null, and a null active handler raises naming `onSuccess` or `onFailure` |
| `NetCoreFailableResultExtensions.OnSuccessBind` | FailableResult.NetCore/FailableResultExtensions.cs:32-37 | equals the older package's flattening `OnSuccess` on every input |
| `NetCoreFailableResultExtensions.OnSuccess` | FailableResult.NetCore/FailableResultExtensions.cs:39-44 | equals the older package's map `OnSuccess` on every input |
| `NetCoreFailableResultExtensions.OnSuccessAsyncBind` | FailableResult.NetCore/FailableResultExtensions.cs:46-51 | a success yields the callback's own task; a failure yields a resolved failure with the same payload; awaited it is the synchronous bind |
| `NetCoreFailableResultExtensions.OnSuccessAsyncMap` | FailableResult.NetCore/FailableResultExtensions.cs:53-59 | awaited, it is the synchronous map by the awaited callback |
| `NetCoreFailableResultExtensions.TaskOnSuccessBind` | FailableResult.NetCore/FailableResultExtensions.cs:61-68 | awaited, it is the synchronous bind of the awaited result |
| `NetCoreFailableResultExtensions.TaskOnSuccessMap` | FailableResult.NetCore/FailableResultExtensions.cs:70-77 | awaited, it is the synchronous map of the awaited result |
| `NetCoreFailableResultExtensions.TaskOnSuccessAsyncBind` | FailableResult.NetCore/FailableResultExtensions.cs:79-86 | awaited, it is the synchronous bind of the awaited result by the awaited callback |
| `NetCoreFailableResultExtensions.TaskOnSuccessAsyncMap` | FailableResult.NetCore/FailableResultExtensions.cs:88-96 | awaited, it is the synchronous map of the awaited result by the awaited callback |
| `NetCoreFailableResultExtensions.OnFailure` | FailableResult.NetCore/FailableResultExtensions.cs:98-103 | equals the older package's failure map on every input |
| `NetCoreFailableResultExtensions.TaskOnFailure` | FailableResult.NetCore/FailableResultExtensions.cs:105-112 | awaited, it is the failure map of the awaited result |
| `NetCoreFailableResultExtensions.TaskOnFailureAsync` | FailableResult.NetCore/FailableResultExtensions.cs:114-121 | awaited, it is the failure map of the awaited result by the awaited callback |
| `NetCoreFailableResultExtensions.GetResultOrThrowException` | FailableResult.NetCore/FailableResultExtensions.cs:123-135 | equals the older package's extraction on every input |
| `NetCoreFailableResultExtensions.GetResultOrThrowExceptionAsync` | FailableResult.NetCore/FailableResultExtensions.cs:137-145 | the awaited outcome is a value exactly for a success, its payload; for a failure it throws `onFailure(payload)` |
| `NetCoreFailableResultExtensions.MixedChainExample` | FailableResult.NetCore.UnitTests/IFailableResultExtensionsTests.cs:39-67 | the mixed sync and async chain gives success 5 from success 1 and failure -5 from failure 1 |
| `NetCoreIFailableResultExtensions.OnSuccessBind` | FailableResult.NetCore/IFailableResultExtensions.cs:9-15 | a success becomes the callback's result; a failure stays the same failure |
| `NetCoreIFailableResultExtensions.OnSuccessAsyncBind` | FailableResult.NetCore/IFailableResultExtensions.cs:17-24 | a success yields the callback's own task; a failure yields an already-resolved failure with the same payload |
| `NetCoreIFailableResultExtensions.TaskOnSuccessAsyncBind` | FailableResult.NetCore/IFailableResultExtensions.cs:26-38 | awaited, it is the synchronous bind of the awaited result by the awaited callback |
| `NetCoreIFailableResultExtensions.TaskOnSuccessBind` | FailableResult.NetCore/IFailableResultExtensions.cs:40-50 | awaited, it is the synchronous bind of the awaited result |
| `NetCoreIFailableResultExtensions.OnFailure` | FailableResult.NetCore/IFailableResultExtensions.cs:52-58 | a failure `e` becomes a failure `onFailure(e)`; a success passes unchanged |
| `NetCoreIFailableResultExtensions.TaskOnFailure` | FailableResult.NetCore/IFailableResultExtensions.cs:60-69 | awaited, it is the failure map of the awaited result |
| `NetCoreIFailableResultExtensions.OnFailureAction` | FailableResult.NetCore/IFailableResultExtensions.cs:71-83 | returns its input unchanged; the action runs exactly once, with the payload, on a failure, and never on a success |
| `NetCoreIFailableResultExtensions.TaskOnFailureAction` | FailableResult.NetCore/IFailableResultExtensions.cs:85-92 | awaited, it is the input's result, and the action runs as `OnFailure(Action)` on the awaited result |
| `NetCoreIFailableResultExtensions.GetResultOrThrowException` | FailableResult.NetCore/IFailableResultExtensions.cs:94-106 | a success gives its payload; a failure throws `onFailure(payload)` |
| `NetCoreIFailableResultExtensions.GetResultOrThrowExceptionAsync` | FailableResult.NetCore/IFailableResultExtensions.cs:108-116 | the awaited result's payload, or a throw of `onFailure(payload)` for a failure |
| `NetCoreIFailableResultExtensions.AgreesWithFailableResultExtensions` | FailableResult.NetCore/IFailableResultExtensions.cs:9-116 | every overload that shares a signature with one in the NetCore `FailableResultExtensions` computes the same value |
| `NetCoreIFailableResultExtensions.OnFailureActionIsTransparent` | FailableResult.NetCore/IFailableResultExtensions.cs:71-83 | a later step sees the same result with or without the observing action; at most one effect is requested |
| `NetCoreIFailableResultExtensions.InterfaceExtensionExamples` | FailableResult.NetCore.UnitTests/IFailableResultExtensionsTests.cs:11-125 | the test values: 2 and 1 for the bind, 1 and 2 for the failure map, the callbacks 0 and 1, and 1 or a throw carrying 12345 |
| `Pipelines.StepSync` | FailableResult.NetCore/FailableResultExtensions.cs:32-103 | one chain step through the synchronous `OnSuccess`, `OnSuccess` bind or `OnFailure`, or through `OnFailure(Action)` (FailableResult.NetCore/IFailableResultExtensions.cs:71-83); the two async-callback success steps and the async failure step are given a reference meaning, the synchronous combinator with the callback's task awaited. A success-side step leaves a failure unchanged and a failure-side step leaves a success unchanged, with no effect; an observing step never changes the result |
| `Pipelines.StepAsync` | FailableResult.NetCore/FailableResultExtensions.cs:61-121 | each `Task`-receiver overload, awaited, gives the synchronous step's result and requests the same effects |
| `Pipelines.RunAsyncAgreesWithRunSync` | FailableResult.NetCore/FailableResultExtensions.cs:61-121 | a whole chain run on a task, awaited, equals the chain run synchronously on the awaited result, with the same effects in the same order |
| `Pipelines.ChainFromResolvedTask` | FailableResult.NetCore.UnitTests/IFailableResultExtensionsTests.cs:40-60 | a chain started from `Task.FromResult(r)` ends as the synchronous chain from `r` |
| `Pipelines.FailurePassesSuccessSteps` | FailableResult.NetCore/FailableResultExtensions.cs:32-59 | a failure passes any number of success-side steps with the same payload, applying no callback and requesting no effect |
| `Pipelines.SuccessPassesFailureSteps` | FailableResult.NetCore/IFailableResultExtensions.cs:52-92 | a success passes any number of failure-side steps unchanged, and no action runs |
| `Pipelines.ActionsDoNotAlterResult` | FailableResult.NetCore/IFailableResultExtensions.cs:71-92 | removing every observing step from a chain does not change its final result |

## Left out

- Null callbacks passed to the extension methods are not modelled: every callback is a total function. In C# a null callback raises when it is called. Some overloads pass it straight to `Handle`, which raises `ArgumentNullException`; the others wrap it in a lambda, which raises `NullReferenceException`.
- `configureAwait` and task scheduling are not modelled. They decide where a continuation resumes, never which value a task completes with. Every task is modelled as already completed.
- Faulted tasks are modelled only as the outcome a task completes with (`NullHandler` or `Thrown`). An exception raised by a caller's callback or action is not modelled, so the open question of whether it propagates does not arise in the model.
- Exception objects and messages are not modelled. An exception is the value `onFailure` builds, so the test's check that the message contains "12345" becomes a check that the thrown value is 12345. When `onFailure` returns null, `throw` raises a `NullReferenceException` instead; null exception values are not modelled.
- What a caller's `Action` does is not modelled: each invocation is recorded as the effect value the action maps its argument to.
- Results.Result.Handle: "exactly one handler is invoked" is stated as "the value is the triggered handler's and the other handler has no influence". Handlers are pure functions here, so an invocation is observable only through `OnFailure(Action)`, where it is recorded.
- The private constructors of the older package are not modelled: Dafny's `Success` and `Failure` constructors are public. `CreateSuccess` and `CreateFailure` stand for the factories, and every combinator builds results only through them.
- The C# `out` covariance of the interface and `[DebuggerStepThrough]` are not modelled; they carry no behaviour.
- The ambiguity between same-signature overloads of the two NetCore extension classes, which share a namespace, is a compile-time matter. The model keeps both and proves they compute the same value.
- A chain in `Pipelines` has one success type and one failure type, because a Dafny sequence holds one type. Chains that change the payload types are covered by the per-call contracts, not by the chain lemmas. The flattening `OnFailure` has no `Task` overload in the source, so it is not a chain step.
