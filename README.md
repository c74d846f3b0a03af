# ConsoleHostedService: binding loop and invocation pipeline

A Dafny model of `ConsoleHostedService`, the background service of the
service framework that discovers handler methods marked with
`[BackgroundRequest]`, registers one RabbitMQ consumer per method, and runs
every delivered message through a small pipeline: merge the shared state
into the per-call state, open a dependency-injection scope, resolve the
handler service, invoke the method (awaiting it when its return type is
awaitable) and classify how the call ended. A `CustomException` is logged as
a warning and the message counts as handled (`true`); any other exception is
logged as an error and the result is `false`; no exception leaves the
pipeline.

Files and modules:

- `Reflection.dfy` (module `Reflection`): the exceptions the pipeline can see,
  what a handler does when invoked (`Behaviour`), and what reflection and
  `await` turn that into (`InvokeFault`, `AwaitFault`, `ExceptionAfterInvoke`).
  `MethodInfo.Invoke` wraps whatever the target throws in a
  `TargetInvocationException`, and throws its own exception, unwrapped, when it
  refuses the call before the target runs; awaiting a faulted `Task` rethrows its first
  inner exception unwrapped. So a `CustomException` thrown by a synchronous
  handler is classified as an unknown error, and only one that faults an
  awaited `Task` is recoverable (`Hosting.CustomExceptionIsRecoverableOnlyWhenAwaited`).
- `Registry.dfy` (module `Registry`): method descriptors, the method filter,
  and the registrations startup makes, as functions with lemmas.
- `Classifier.dfy` (module `Classifier`): log entries and the two catch clauses.
- `Hosting.dfy` (module `Hosting`): the service and its collaborators as
  classes. `RabbitMqService` keeps the list of registrations, `Logger` the
  list of entries, `ServiceProvider` the numbers of scopes created and
  disposed and the handler invocations, `StateObject` a `TState` instance.
  `ConsoleHostedService.ExecuteAsync`, `ReceiveRequest` and `HandleRequest`
  are methods whose contracts tie the new state to the functions above.

Inputs that stand for code outside the model: the candidate types (what
`TypeHelper.GetAssignableTypes` returns), each type's methods in the order
reflection reports them, and per delivery a `CallEnvironment` saying whether
`MapEntity`, `CreateScope` or `GetRequiredService` throws and what the
handler method does.

Points where the code's behaviour is easy to misread:

- Two methods bound to the same queue and request type are both registered:
  startup makes no duplicate check, although a stricter startup would reject
  the second descriptor (`Registry.DuplicateBindingsAreRegistered`).
- Synchronous and asynchronous handlers are not treated alike: a
  `CustomException` is recoverable only when it faults an awaited `Task`, as
  described above.
- `MapEntity` is an extension method whose code is not part of this model. On
  success the model copies each property of the shared state into the
  per-call state property of the same name.

## Model

| member | source | states |
|---|---|---|
| `Reflection.InvokeFault` | Services/ConsoleHostedService.cs:73-80 | Invoking the method completes exactly when the target runs and returns; a throwing target gives a TargetInvocationException wrapping what it threw, a refused call Invoke's own exception unwrapped; neither is ever a CustomException |
| `Reflection.AwaitFault` | Services/ConsoleHostedService.cs:73-74 | Casting and awaiting the returned value completes exactly when it is a Task that ran to completion; a faulted Task rethrows its first inner exception |
| `Reflection.ExceptionAfterInvoke` | Services/ConsoleHostedService.cs:71-81 | The synchronous path completes exactly when the target runs and returns; the awaitable path exactly when it returns a completed Task; a CustomException leaves this step only from a faulted Task on the awaitable path |
| `Reflection.AwaitedTaskIsNotFaulted` | Services/ConsoleHostedService.cs:74-76 | After an await that returned normally the task is not faulted, so the re-throw at line 76 never runs |
| `Registry.SelectMethods` | Services/ConsoleHostedService.cs:51-52 | Every selected method is public, not static and carries BackgroundRequest, and no more methods are selected than the type has |
| `Registry.SelectMethodsMembership` | Services/ConsoleHostedService.cs:51-52 | A method is selected if and only if it is one of the type's methods, public, not static and carries BackgroundRequest |
| `Registry.SelectMethodsAppend` | Services/ConsoleHostedService.cs:51-52 | Selection keeps reflection's method order: it distributes over concatenation |
| `Registry.MethodRegistrations` | Services/ConsoleHostedService.cs:53-60 | One registration per selected method, in order; the k-th has the k-th method's attribute queue and request type and a callback capturing the type, the method and its isAwaitable flag |
| `Registry.MethodRegistrationsSnoc` | Services/ConsoleHostedService.cs:53-60 | Registering one more method appends exactly its registration |
| `Registry.AllRegistrationsAppend` | Services/ConsoleHostedService.cs:44-45 | The registrations for a list of types are those of each part, in type order |
| `Registry.AllRegistrationsSnoc` | Services/ConsoleHostedService.cs:45 | Processing one more type appends exactly that type's registrations |
| `Registry.TypeRegistrationOrigin` | Services/ConsoleHostedService.cs:49-61 | A registration is made for a type if and only if it is the registration of one of its public instance methods carrying BackgroundRequest |
| `Registry.RegistrationOrigin` | Services/ConsoleHostedService.cs:42-61 | Startup makes a registration if and only if it belongs to a public instance BackgroundRequest method of a candidate type: nothing else is registered and nothing is skipped |
| `Registry.DuplicateBindingsAreRegistered` | Services/ConsoleHostedService.cs:53-59 | Two selected methods with the same attribute both get registrations with the same queue and request type: there is no duplicate check |
| `Classifier.Classify` | Services/ConsoleHostedService.cs:85-94 | The result is true if and only if nothing was caught or a CustomException was; exactly one entry is logged when something was caught and none otherwise, carrying the caught exception |
| `Classifier.ClassifyCounts` | Services/ConsoleHostedService.cs:85-92 | A CustomException adds one warning and no error; another exception one error and no warning; completion neither |
| `Hosting.MapEntity` | Services/ConsoleHostedService.cs:67 | The per-call state keeps its property names and takes the shared value of every property the shared state also has; for two instances of the state type the copy equals the shared state |
| `Hosting.Caught` | Services/ConsoleHostedService.cs:65-83 | A failed merge is what reaches the catch clauses; otherwise a failed scope creation, then a failed resolution; the try block completes only if the handler was invoked and completed; once invoked, the invocation step decides what is caught |
| `Reflection.RejectionException` | Services/ConsoleHostedService.cs:73-80 | The exception Invoke throws for a refused call is neither a CustomException nor a TargetInvocationException |
| `Hosting.RejectedArgumentsAreUnknownErrors` | Services/ConsoleHostedService.cs:73-92 | When Invoke refuses the call, on either path, the result is false with one error entry carrying Invoke's own exception |
| `Hosting.CustomExceptionIsRecoverableOnlyWhenAwaited` | Services/ConsoleHostedService.cs:71-91 | A CustomException thrown by the handler gives false and one error entry on either path; one that faults the awaited Task gives true and one warning entry |
| `Hosting.Logger.LogWarning` | Services/ConsoleHostedService.cs:87 | Appends one warning entry with the exception |
| `Hosting.Logger.LogError` | Services/ConsoleHostedService.cs:91 | Appends one error entry with the exception |
| `Hosting.ServiceProvider.CreateScope` | Services/ConsoleHostedService.cs:68 | Counts one more scope created and changes nothing else |
| `Hosting.ServiceProvider.DisposeScope` | Services/ConsoleHostedService.cs:83 | Counts one more scope disposed and changes nothing else |
| `Hosting.ServiceProvider.Invoke` | Services/ConsoleHostedService.cs:73-80 | Records one run of the handler's body with the payload and changes no scope count |
| `Hosting.RabbitMqService.ReceiveRequest` | Services/ConsoleHostedService.cs:57-59 | Appends exactly one registration with the given queue, request type and callback |
| `Hosting.ConsoleHostedService.constructor` | Services/ConsoleHostedService.cs:31-40 | Keeps the broker, logger, service provider and shared state it is given |
| `Hosting.ConsoleHostedService.ExecuteAsync` | Services/ConsoleHostedService.cs:42-47 | Appends to the broker exactly the registrations of all candidate types, in type order then method order, and nothing else |
| `Hosting.ConsoleHostedService.ReceiveRequest` | Services/ConsoleHostedService.cs:49-61 | Appends to the broker exactly the registrations of the type's selected methods, in method order |
| `Hosting.ConsoleHostedService.RunHandler` | Services/ConsoleHostedService.cs:65-83 | Returns the exception that leaves the try block; creates a scope only if the merge succeeded and disposes every scope it creates; runs the handler's body at most once, with the payload, and only when Invoke accepts the arguments; the per-call state becomes the merge of the shared state as it is at call time |
| `Hosting.ConsoleHostedService.HandleRequest` | Services/ConsoleHostedService.cs:63-96 | Completion gives true and no log entry; a CustomException true, one warning and no error; any other exception false, one error and no warning; scopes created equal scopes disposed; no scope and no run of the handler's body when the merge fails; a scope but no run when Invoke refuses the call; always returns a bool |
| `Hosting.ConsoleHostedService.Deliver` | Services/ConsoleHostedService.cs:58-59 | Running a registered callback is HandleRequest with the type, method and isAwaitable flag captured at startup |
| `Hosting.SnapshotIsTakenAtCallTime` | Services/ConsoleHostedService.cs:58-67 | Two deliveries around an update of the shared state each see the shared state of their own call time, the second does not change the first's copy, and all their scopes are disposed |

## Left out

- The RabbitMQ transport, the deserialization of `data`, the delivery metadata (`ConsoleRequestMeta`, unused by the callback) and what the broker does with the returned bool: they belong to `RabbitMqService`, which is not part of this model.
- Reflection and dependency-injection mechanics (`GetMethods`, `GetCustomAttribute`, `GetMethod("GetAwaiter")`, `CreateScope`, `GetRequiredService`): replaced by method descriptors, a scope counter and per-call fault inputs. `Invoke`'s own checks are reduced to three outcomes: a wrong parameter count, an argument of the wrong type, and a generic method definition with open type parameters. Its other exceptions (a null or wrongly typed target, a caller without access, a by-ref or pointer parameter) are not modelled. A method is modelled with at most one BackgroundRequest attribute, the attribute's default when it does not allow multiple uses; `GetMethod`'s ambiguous-match exception for overloaded `GetAwaiter` methods is not modelled.
- The order of the candidate types is whatever the framework's `TypeHelper.GetAssignableTypes` returns, and the order of `GetMethods` is one .NET does not fix: both are taken as given by the input sequences.
- `MapEntity` internals: on success it is the by-name copy described above; on failure the per-call state is left unchanged, since a partial copy cannot be described without the extension's code.
- Exceptions thrown while disposing the scope are not modelled: the scope's dispose is assumed to succeed.
- Async scheduling, `ConfigureAwait`, concurrent deliveries and the unused `stoppingToken`: the model is sequential; isolation of concurrent deliveries is represented only by each delivery owning its own per-call state object.
- Log message texts, logging sinks, `IConfiguration`, and the unused `TContext` and `TStartup` type parameters.
- `Hosting.SnapshotIsTakenAtCallTime`: does not state how many scopes were created, only that all of them were disposed, to keep the proof small.
