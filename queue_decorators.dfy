/**
 * `djutils.queue.decorators.queue_command`: turns a function into one whose
 * calls are queued as commands and run later by a consumer.
 */
module QueueDecorators {
  import opened Wrappers
  import opened Errors
  import opened Pickle
  import opened Commands
  import opened MessageStore
  import CommandRegistry
  import QueueInvoker

  /**
   * Decorating `func` creates the generated command class, which subclasses
   * `QueueCommand` and is therefore registered by the metaclass.
   */
  method Decorate(registry: CommandRegistry.CommandRegistry, func: FunctionRef) returns (k: CommandClass)
    modifies registry
    ensures k == GeneratedClass(func)
    ensures registry.registry == Registered(old(registry.registry), k) && registry.Contains(k)
  {
    k := QueueInvoker.DefineCommandClass(registry, func.moduleName, func.moduleName + "." + func.name, FunctionBacked(func));
  }

  /**
   * `inner_run(*args, **kwargs)`: enqueues one command of the generated class whose
   * data is `(args, kwargs)` and returns nothing; `func` does not run (the log is
   * outside the frame).
   */
  method InnerRun(invoker: QueueInvoker.Invoker, k: CommandClass, args: seq<Value>, kwargs: seq<(string, Value)>)
    modifies invoker.queue.table
    ensures invoker.queue.Contents() == old(invoker.queue.Contents()) + [MessageFor(k, WrapperData(args, kwargs))]
    ensures forall n :: n != invoker.queue.name ==>
      Pending(invoker.queue.table.rows, n) == Pending(old(invoker.queue.table.rows), n)
  {
    var command := new QueueCommand(k, WrapperData(args, kwargs));
    invoker.Enqueue(command);
  }

  /**
   * A decorated call followed, on an empty queue, by one consumer cycle: the
   * dequeue returns the message the call produced and the function is called
   * with the call's own arguments.
   */
  method CallThenDequeue(invoker: QueueInvoker.Invoker, func: FunctionRef, args: seq<Value>, kwargs: seq<(string, Value)>)
    returns (r: Result<Option<string>, Raised>)
    requires ':' !in func.moduleName && ':' !in func.name
    requires ClassString(GeneratedClass(func)) in invoker.registry.registry
    requires invoker.registry.registry[ClassString(GeneratedClass(func))] == GeneratedClass(func)
    requires invoker.queue.Contents() == []
    modifies invoker, invoker.queue.table
    ensures r == Ok(Some(MessageFor(GeneratedClass(func), WrapperData(args, kwargs))))
    ensures invoker.log == old(invoker.log) + [Called(Call(func, args, kwargs))]
    ensures invoker.queue.Contents() == []
  {
    var k := GeneratedClass(func);
    InnerRun(invoker, k, args, kwargs);
    GeneratedRoundTrip(invoker.registry.registry, func, args, kwargs);
    r := invoker.Dequeue();
  }
}
