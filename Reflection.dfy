/** Abstract stand-ins for the .NET facts the hosted service relies on:
    the exceptions that can reach its catch clauses, what a handler method
    does when it is invoked through reflection, and what awaiting the value
    it returns does. Reflection itself (`GetMethods`, `GetCustomAttribute`,
    `MethodInfo.Invoke`) is replaced by these descriptors. */
module Reflection {

  datatype Option<+T> = None | Some(value: T)

  /** The name of a .NET type (`requestServiceType`, `TypeOfRequest`). */
  type TypeId = string

  /** The exceptions the pipeline can observe. */
  datatype Exception =
    | CustomException(typeName: string, message: string)  // Framework.Exceptions.CustomException or a type derived from it
    | TargetInvocationException(inner: Exception)         // reflection's wrapper around what an invoked method threw
    | InvalidCastException                                // the `(Task)` cast of a returned value that is not a Task
    | NullReferenceException                              // awaiting a null Task
    | TaskCanceledException                               // awaiting a canceled Task
    | TargetParameterCountException                       // `Invoke` given a number of arguments the method does not take
    | ArgumentException                                   // `Invoke` given an argument the parameter type does not accept
    | InvalidOperationException                           // `Invoke` on a generic method definition with open type parameters
    | OtherException(typeName: string, message: string)   // any other exception type

  /** `catch (CustomException cex)` matches CustomException and its subclasses only:
      a TargetInvocationException wrapping one does not match. */
  predicate IsCustomException(e: Exception)
  {
    e.CustomException?
  }

  /** How a Task settles. A faulted Task carries an AggregateException;
      `first` is the first of its inner exceptions, the one `await` rethrows. */
  datatype Settlement = RanToCompletion | Faulted(first: Exception) | Canceled

  /** The value a handler method returns, as far as the pipeline can tell. */
  datatype ReturnedValue =
    | NotATask                   // void, a plain value, or an awaitable that is not a Task (a ValueTask, say)
    | NullTask                   // a Task-typed method that returned null
    | TaskValue(settles: Settlement)

  /** Why `Invoke` refuses the call before the target runs: the method does
      not take exactly one parameter, the payload does not fit it, or the
      method is a generic method definition (`ContainsGenericParameters`). */
  datatype ArgumentRejection = ParameterCountMismatch | ArgumentTypeMismatch | OpenGenericMethod

  /** What one invocation of the handler method does: `Invoke` refuses the
      arguments and the target never runs, or the target runs and throws
      before returning, or it runs and returns a value. */
  datatype Behaviour =
    | RejectsArguments(rejection: ArgumentRejection)
    | Throws(thrown: Exception)
    | Returns(value: ReturnedValue)

  /** The exception `Invoke` itself throws for a refused call. */
  function RejectionException(rejection: ArgumentRejection): (e: Exception)
    ensures !IsCustomException(e) && !e.TargetInvocationException?
  {
    match rejection
    case ParameterCountMismatch => TargetParameterCountException
    case ArgumentTypeMismatch => ArgumentException
    case OpenGenericMethod => InvalidOperationException
  }

  /** What `method.Invoke(service, new object[] { data })` throws: reflection
      wraps every exception of the target in a TargetInvocationException; a
      refused call is reported unwrapped, by `Invoke` itself. */
  function InvokeFault(b: Behaviour): (r: Option<Exception>)
    ensures r.None? <==> b.Returns?
    ensures b.Throws? ==> r == Some(TargetInvocationException(b.thrown))
    ensures b.RejectsArguments? ==> r == Some(RejectionException(b.rejection))
    ensures r.Some? ==> !IsCustomException(r.value)
  {
    match b
    case RejectsArguments(rejection) => Some(RejectionException(rejection))
    case Throws(e) => Some(TargetInvocationException(e))
    case Returns(_) => None
  }

  /** What `(Task)value` followed by `await task.ConfigureAwait(true)` throws.
      Awaiting a faulted task rethrows its first inner exception unwrapped. */
  function AwaitFault(v: ReturnedValue): (r: Option<Exception>)
    ensures r.None? <==> v == TaskValue(RanToCompletion)
    ensures v.TaskValue? && v.settles.Faulted? ==> r == Some(v.settles.first)
  {
    match v
    case NotATask => Some(InvalidCastException)
    case NullTask => Some(NullReferenceException)
    case TaskValue(RanToCompletion) => None
    case TaskValue(Faulted(e)) => Some(e)
    case TaskValue(Canceled) => Some(TaskCanceledException)
  }

  /** The exception (if any) that leaves the invocation step of the pipeline,
      on the awaitable path (`isAwaitable`) or the synchronous path. */
  function ExceptionAfterInvoke(isAwaitable: bool, b: Behaviour): (r: Option<Exception>)
    // the synchronous path completes exactly when the target runs and returns, whatever it returns
    ensures !isAwaitable ==> (r.None? <==> b.Returns?)
    // the awaitable path completes exactly when the target returns a Task that runs to completion
    ensures isAwaitable ==> (r.None? <==> b == Returns(TaskValue(RanToCompletion)))
    // a CustomException reaches the catch clauses only from a faulted task on the awaitable path
    ensures r.Some? && IsCustomException(r.value) ==>
              isAwaitable && b == Returns(TaskValue(Faulted(r.value)))
  {
    var invokeFault := InvokeFault(b);
    if invokeFault.Some? then invokeFault
    else if isAwaitable then AwaitFault(b.value)
    else None
  }

  /** After an `await` that returned normally the task is never faulted, so
      the `task.Status == TaskStatus.Faulted` re-throw that follows it can
      never fire. */
  lemma AwaitedTaskIsNotFaulted(v: ReturnedValue)
    requires AwaitFault(v).None?
    ensures v.TaskValue? && !v.settles.Faulted?
  {
  }
}
