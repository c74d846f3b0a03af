/** `ConsoleHostedService`: its startup binding loop (`ExecuteAsync`,
    `ReceiveRequest`) and its per-message pipeline (`HandleRequest`), over
    stand-ins for its collaborators: the broker (`RabbitMqService`), the
    logger, the dependency-injection provider and the state objects. Line
    numbers refer to Services/ConsoleHostedService.cs. */
module Hosting {
  import opened Reflection
  import opened Registry
  import opened Classifier

  /** A property value of a state object, or a message payload. */
  datatype Value = Null | Number(n: int) | Text(s: string)

  /** The properties of a `TState` instance, by name. */
  type State = map<string, Value>

  /** `target.MapEntity(source)` when it succeeds: every property of the
      target that the source also has takes the source's value. */
  function MapEntity(target: State, source: State): (merged: State)
    ensures merged.Keys == target.Keys
    ensures forall name :: name in target && name in source ==> merged[name] == source[name]
    // two instances of the same state type: the per-call copy equals the shared state
    ensures target.Keys == source.Keys ==> merged == source
  {
    map name | name in target :: if name in source then source[name] else target[name]
  }

  /** What the collaborators do during one delivery: whether `MapEntity`
      (line 67), `CreateScope` (line 68) or `GetRequiredService` (line 70)
      throws, and what the handler method does when invoked. */
  datatype CallEnvironment = CallEnvironment(
    mapFault: Option<Exception>,
    scopeFault: Option<Exception>,
    resolveFault: Option<Exception>,
    handler: Behaviour)

  /** One call of a handler method on a resolved service instance. */
  datatype Invocation = Invocation(serviceType: TypeId, handler: MethodInfo, data: Value)

  /** The `using` block is entered: the merge succeeded and a scope was created. */
  predicate OpensScope(env: CallEnvironment)
  {
    env.mapFault.None? && env.scopeFault.None?
  }

  /** The handler method is invoked: the scope is open and the service resolved. */
  predicate InvokesHandler(env: CallEnvironment)
  {
    OpensScope(env) && env.resolveFault.None?
  }

  /** The handler's body runs: it is invoked and `Invoke` accepts the arguments. */
  predicate RunsHandler(env: CallEnvironment)
  {
    InvokesHandler(env) && !env.handler.RejectsArguments?
  }

  /** The exception that reaches the catch clauses at lines 85 and 89, if any. */
  function Caught(isAwaitable: bool, env: CallEnvironment): (caught: Option<Exception>)
    // a failed merge is what is caught, before anything else is attempted
    ensures env.mapFault.Some? ==> caught == env.mapFault
    // then a failed scope creation, then a failed resolution
    ensures env.mapFault.None? && env.scopeFault.Some? ==> caught == env.scopeFault
    ensures OpensScope(env) && env.resolveFault.Some? ==> caught == env.resolveFault
    // the try block completes only if the handler was invoked and completed
    ensures caught.None? ==> InvokesHandler(env) && ExceptionAfterInvoke(isAwaitable, env.handler).None?
    ensures InvokesHandler(env) ==> caught == ExceptionAfterInvoke(isAwaitable, env.handler)
  {
    if env.mapFault.Some? then env.mapFault
    else if env.scopeFault.Some? then env.scopeFault
    else if env.resolveFault.Some? then env.resolveFault
    else ExceptionAfterInvoke(isAwaitable, env.handler)
  }

  /** A CustomException thrown by the handler itself is classified as unknown
      (error entry, false) because reflection wraps it; only one that faults
      the Task awaited on the awaitable path is recoverable (warning, true). */
  lemma CustomExceptionIsRecoverableOnlyWhenAwaited(env: CallEnvironment, e: Exception)
    requires InvokesHandler(env) && IsCustomException(e)
    ensures Classify(Caught(false, env.(handler := Throws(e)))) ==
              Outcome(false, [LogEntry(Error, TargetInvocationException(e))])
    ensures Classify(Caught(true, env.(handler := Throws(e)))) ==
              Outcome(false, [LogEntry(Error, TargetInvocationException(e))])
    ensures Classify(Caught(true, env.(handler := Returns(TaskValue(Faulted(e)))))) ==
              Outcome(true, [LogEntry(Warning, e)])
  {
  }

  /** When `Invoke` refuses the call its own exception, unwrapped, is
      classified as unknown on either path: false and one error entry. */
  lemma RejectedArgumentsAreUnknownErrors(env: CallEnvironment, isAwaitable: bool, rejection: ArgumentRejection)
    requires InvokesHandler(env)
    ensures Classify(Caught(isAwaitable, env.(handler := RejectsArguments(rejection)))) ==
              Outcome(false, [LogEntry(Error, RejectionException(rejection))])
  {
  }

  /** A `TState` instance. */
  class StateObject {
    var fields: State

    constructor (fields: State)
      ensures this.fields == fields
    {
      this.fields := fields;
    }
  }

  /** The `ILogger`, as the list of entries written to it. */
  class Logger {
    var entries: seq<LogEntry>

    constructor ()
      ensures entries == []
    {
      entries := [];
    }

    method LogWarning(e: Exception)
      modifies this
      ensures entries == old(entries) + [LogEntry(Warning, e)]
    {
      entries := entries + [LogEntry(Warning, e)];
    }

    method LogError(e: Exception)
      modifies this
      ensures entries == old(entries) + [LogEntry(Error, e)]
    {
      entries := entries + [LogEntry(Error, e)];
    }
  }

  /** The `IServiceProvider`: how many scopes it has created and disposed, and
      which handler methods were invoked on services resolved from them. */
  class ServiceProvider {
    var scopesCreated: nat
    var scopesDisposed: nat
    var invocations: seq<Invocation>

    constructor ()
      ensures scopesCreated == 0 && scopesDisposed == 0 && invocations == []
    {
      scopesCreated, scopesDisposed, invocations := 0, 0, [];
    }

    method CreateScope()
      modifies this
      ensures scopesCreated == old(scopesCreated) + 1
      ensures scopesDisposed == old(scopesDisposed) && invocations == old(invocations)
    {
      scopesCreated := scopesCreated + 1;
    }

    method DisposeScope()
      modifies this
      ensures scopesDisposed == old(scopesDisposed) + 1
      ensures scopesCreated == old(scopesCreated) && invocations == old(invocations)
    {
      scopesDisposed := scopesDisposed + 1;
    }

    /** `method.Invoke(service, new object[] { data })` on a resolved service. */
    method Invoke(serviceType: TypeId, handler: MethodInfo, data: Value)
      modifies this
      ensures invocations == old(invocations) + [Invocation(serviceType, handler, data)]
      ensures scopesCreated == old(scopesCreated) && scopesDisposed == old(scopesDisposed)
    {
      invocations := invocations + [Invocation(serviceType, handler, data)];
    }
  }

  /** The `RabbitMqService`, as the list of consumers registered with it. */
  class RabbitMqService {
    var registrations: seq<Registration>

    constructor ()
      ensures registrations == []
    {
      registrations := [];
    }

    method ReceiveRequest(queue: string, typeOfRequest: TypeId, callback: Callback)
      modifies this
      ensures registrations == old(registrations) + [Registration(queue, typeOfRequest, callback)]
    {
      registrations := registrations + [Registration(queue, typeOfRequest, callback)];
    }
  }

  class ConsoleHostedService {
    const rabbitMqService: RabbitMqService
    const logger: Logger
    const serviceProvider: ServiceProvider
    /** The shared state, set once here and mutated by others. */
    const state: StateObject

    constructor (rabbitMqService: RabbitMqService, logger: Logger,
                 serviceProvider: ServiceProvider, state: StateObject)
      ensures this.rabbitMqService == rabbitMqService && this.logger == logger
      ensures this.serviceProvider == serviceProvider && this.state == state
    {
      this.rabbitMqService := rabbitMqService;
      this.logger := logger;
      this.serviceProvider := serviceProvider;
      this.state := state;
    }

    /** Registers every candidate type's handler methods, in type order.
        `requestServicesTypes` is what `GetAssignableTypes` returns. */
    method ExecuteAsync(requestServicesTypes: seq<ServiceType>)
      modifies rabbitMqService
      ensures rabbitMqService.registrations ==
                old(rabbitMqService.registrations) + AllRegistrations(requestServicesTypes)
    {
      ghost var initial := rabbitMqService.registrations;
      var i := 0;
      while i < |requestServicesTypes|
        invariant 0 <= i <= |requestServicesTypes|
        invariant rabbitMqService.registrations == initial + AllRegistrations(requestServicesTypes[..i])
      {
        var requestServiceType := requestServicesTypes[i];
        ghost var done := requestServicesTypes[..i];
        ReceiveRequest(requestServiceType);
        assert requestServicesTypes[..i + 1] == done + [requestServiceType];
        AllRegistrationsSnoc(initial, done, requestServiceType);
        i := i + 1;
      }
      assert requestServicesTypes[..i] == requestServicesTypes;
    }

    /** Registers one consumer per public instance method of the type that
        carries BackgroundRequest, in method order. */
    method ReceiveRequest(requestServiceType: ServiceType)
      modifies rabbitMqService
      ensures rabbitMqService.registrations ==
                old(rabbitMqService.registrations) + TypeRegistrations(requestServiceType)
    {
      ghost var initial := rabbitMqService.registrations;
      var methods := SelectMethods(requestServiceType.methods);
      var i := 0;
      while i < |methods|
        invariant 0 <= i <= |methods|
        invariant rabbitMqService.registrations ==
                    initial + MethodRegistrations(requestServiceType.id, methods[..i])
      {
        var handler := methods[i];
        ghost var done := methods[..i];
        var queueAttr := handler.backgroundRequest.value;
        var isAwaitable := IsAwaitable(handler);
        rabbitMqService.ReceiveRequest(queueAttr.queue, queueAttr.typeOfRequest,
                                       Callback(requestServiceType.id, handler, isAwaitable));
        assert methods[..i + 1] == done + [handler];
        assert forall k :: 0 <= k < |done| ==> done[k].backgroundRequest.Some?;
        MethodRegistrationsSnoc(initial, requestServiceType.id, done, handler);
        i := i + 1;
      }
      assert methods[..i] == methods;
    }

    /** The try block of `HandleRequest` (lines 66-83): merges the shared
        state into `callState`, then invokes the handler inside a scope that
        is disposed however the block is left. Returns the exception that
        leaves the block, if any. */
    method RunHandler(requestServiceType: TypeId, handler: MethodInfo, data: Value,
                      callState: StateObject, isAwaitable: bool, env: CallEnvironment)
      returns (caught: Option<Exception>)
      modifies callState, serviceProvider
      ensures caught == Caught(isAwaitable, env)
      // a scope is created only when the merge succeeded, and every scope created is disposed
      ensures serviceProvider.scopesCreated == old(serviceProvider.scopesCreated) + (if OpensScope(env) then 1 else 0)
      ensures serviceProvider.scopesDisposed == old(serviceProvider.scopesDisposed) + (if OpensScope(env) then 1 else 0)
      // the handler's body runs at most once, with `data`
      ensures serviceProvider.invocations == old(serviceProvider.invocations) +
                (if RunsHandler(env) then [Invocation(requestServiceType, handler, data)] else [])
      // the per-call state is a copy of the shared state as it is at call time
      ensures callState.fields ==
                if env.mapFault.None? then MapEntity(old(callState.fields), old(state.fields))
                else old(callState.fields)
    {
      if env.mapFault.Some? {
        caught := env.mapFault;
        return;
      }
      callState.fields := MapEntity(callState.fields, state.fields);
      if env.scopeFault.Some? {
        caught := env.scopeFault;
        return;
      }
      serviceProvider.CreateScope();
      if env.resolveFault.Some? {
        caught := env.resolveFault;
      } else {
        if !env.handler.RejectsArguments? {
          serviceProvider.Invoke(requestServiceType, handler, data);
        }
        var invokeFault := InvokeFault(env.handler);
        if isAwaitable && invokeFault.None? {
          caught := AwaitFault(env.handler.value);
        } else {
          caught := invokeFault;
        }
      }
      // leaving the using block, normally or by an exception
      serviceProvider.DisposeScope();
    }

    /** Handles one delivered message: runs the try block, then the two catch
        clauses. No exception leaves it: the result is the only channel back
        to the broker. */
    method HandleRequest(requestServiceType: TypeId, handler: MethodInfo, data: Value,
                         callState: StateObject, isAwaitable: bool, env: CallEnvironment)
      returns (r: bool)
      modifies callState, logger, serviceProvider
      // the result and the entries appended are those of the classification
      ensures var o := Classify(Caught(isAwaitable, env));
              r == o.result && logger.entries == old(logger.entries) + o.entries
      // normal completion: true, nothing logged
      ensures Caught(isAwaitable, env).None? ==> r && logger.entries == old(logger.entries)
      // a CustomException: true, exactly one warning and no error appended
      ensures var caught := Caught(isAwaitable, env);
              caught.Some? && IsCustomException(caught.value) ==>
                r && CountLevel(logger.entries, Warning) == CountLevel(old(logger.entries), Warning) + 1
                  && CountLevel(logger.entries, Error) == CountLevel(old(logger.entries), Error)
      // any other exception: false, exactly one error and no warning appended
      ensures var caught := Caught(isAwaitable, env);
              caught.Some? && !IsCustomException(caught.value) ==>
                !r && CountLevel(logger.entries, Error) == CountLevel(old(logger.entries), Error) + 1
                   && CountLevel(logger.entries, Warning) == CountLevel(old(logger.entries), Warning)
      // every scope created is disposed; none is created if the merge fails
      ensures serviceProvider.scopesCreated == old(serviceProvider.scopesCreated) + (if OpensScope(env) then 1 else 0)
      ensures serviceProvider.scopesDisposed - old(serviceProvider.scopesDisposed) ==
              serviceProvider.scopesCreated - old(serviceProvider.scopesCreated)
      ensures serviceProvider.invocations == old(serviceProvider.invocations) +
                (if RunsHandler(env) then [Invocation(requestServiceType, handler, data)] else [])
      ensures callState.fields ==
                if env.mapFault.None? then MapEntity(old(callState.fields), old(state.fields))
                else old(callState.fields)
    {
      var caught := RunHandler(requestServiceType, handler, data, callState, isAwaitable, env);
      ghost var before := logger.entries;
      if caught.None? {
        r := true;
      } else if IsCustomException(caught.value) {
        logger.LogWarning(caught.value);
        r := true;
      } else {
        logger.LogError(caught.value);
        r := false;
      }
      ClassifyCounts(caught);
      CountLevelAppend(before, Classify(caught).entries, Warning);
      CountLevelAppend(before, Classify(caught).entries, Error);
    }

    /** The callback registered for `registration`, as the broker runs it on a
        delivery: `HandleRequest` with what the closure captured. */
    method Deliver(registration: Registration, data: Value, callState: StateObject, env: CallEnvironment)
      returns (r: bool)
      modifies callState, logger, serviceProvider
      ensures var o := Classify(Caught(registration.callback.isAwaitable, env));
              r == o.result && logger.entries == old(logger.entries) + o.entries
      ensures serviceProvider.scopesCreated == old(serviceProvider.scopesCreated) + (if OpensScope(env) then 1 else 0)
      ensures serviceProvider.scopesDisposed - old(serviceProvider.scopesDisposed) ==
              serviceProvider.scopesCreated - old(serviceProvider.scopesCreated)
      ensures serviceProvider.invocations == old(serviceProvider.invocations) +
                (if RunsHandler(env)
                 then [Invocation(registration.callback.serviceType, registration.callback.handler, data)]
                 else [])
      ensures callState.fields ==
                if env.mapFault.None? then MapEntity(old(callState.fields), old(state.fields))
                else old(callState.fields)
    {
      var callback := registration.callback;
      r := HandleRequest(callback.serviceType, callback.handler, data, callState, callback.isAwaitable, env);
    }
  }

  /** Two deliveries of the same registration with an update of the shared
      state between them (made by code outside the service): each per-call
      state is the shared state as it was when its own delivery ran, the
      second delivery does not change the first one's copy, and every scope
      the two deliveries created is disposed. `firstCall` and `secondCall`
      are the per-call states the broker passes in. */
  method SnapshotIsTakenAtCallTime(registration: Registration, before: State, after: State,
                                   firstCall: State, secondCall: State,
                                   firstData: Value, secondData: Value,
                                   firstEnv: CallEnvironment, secondEnv: CallEnvironment)
    returns (first: State, second: State, created: nat, disposed: nat)
    requires firstEnv.mapFault.None? && secondEnv.mapFault.None?
    requires firstCall.Keys == before.Keys && secondCall.Keys == after.Keys
    ensures first == before && second == after
    ensures created == disposed
  {
    var shared := new StateObject(before);
    var provider := new ServiceProvider();
    var broker := new RabbitMqService();
    var logger := new Logger();
    var host := new ConsoleHostedService(broker, logger, provider, shared);
    var firstState := new StateObject(firstCall);
    var _ := host.Deliver(registration, firstData, firstState, firstEnv);
    shared.fields := after;
    var secondState := new StateObject(secondCall);
    var _ := host.Deliver(registration, secondData, secondState, secondEnv);
    first, second := firstState.fields, secondState.fields;
    created, disposed := provider.scopesCreated, provider.scopesDisposed;
  }
}
