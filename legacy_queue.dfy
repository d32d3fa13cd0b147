/**
 * `djutils.queue`: the first command queue. Its `Invoker` keeps a registry of
 * command classes, a FIFO backend, and a bounded history of the messages it
 * executed, which `undo` consumes newest first.
 */
module LegacyQueue {
  import opened Wrappers
  import opened Errors
  import opened Text
  import opened Pickle
  import opened Commands
  import opened MessageStore
  import QueueBackends

  /** `Invoker.stack_size`: the number of executed messages remembered. */
  const StackSize: nat := 10

  /** The last `StackSize` messages of `s` (all of them when there are fewer). */
  function History(s: seq<string>): (r: seq<string>)
    ensures |r| == if |s| <= StackSize then |s| else StackSize
    ensures r == s[|s| - |r|..]
  {
    if |s| > StackSize then s[|s| - StackSize..] else s
  }

  /** One dequeue's update of the history: append, then cut back to the newest `StackSize`. */
  function Push(stack: seq<string>, msg: string): (r: seq<string>)
    ensures 1 <= |r| <= StackSize && r[|r| - 1] == msg
    ensures |r| - 1 <= |stack| && r[..|r| - 1] == stack[|stack| + 1 - |r|..]
  {
    var s := stack + [msg];
    var r := History(s);
    assert r[..|r| - 1] == s[|s| - |r|..|s| - 1] == stack[|stack| + 1 - |r|..];
    r
  }

  /** The history after executing `msgs` in order. */
  function PushAll(stack: seq<string>, msgs: seq<string>): (r: seq<string>)
    ensures msgs == [] ==> r == stack
    ensures msgs != [] ==> 1 <= |r| <= StackSize && r[|r| - 1] == msgs[|msgs| - 1]
    decreases |msgs|
  {
    if msgs == [] then stack else PushAll(Push(stack, msgs[0]), msgs[1..])
  }

  /** The newest `n` elements of a sequence whose newest `m >= n` elements are known. */
  lemma HistoryOfHistory(s: seq<string>, t: seq<string>)
    ensures History(History(s) + t) == History(s + t)
  {
    var h := History(s);
    assert s == s[..|s| - |h|] + h;
    assert s + t == s[..|s| - |h|] + (h + t);
  }

  /**
   * After executing `msgs` from a history of at most `StackSize` messages, the
   * history holds the newest `min(n, StackSize)` messages of all those
   * executed, in execution order, newest last.
   */
  lemma {:induction false} PushAllIsHistory(stack: seq<string>, msgs: seq<string>)
    requires |stack| <= StackSize
    ensures PushAll(stack, msgs) == History(stack + msgs)
    decreases |msgs|
  {
    if msgs == [] {
      assert stack + msgs == stack;
    } else {
      var pushed := Push(stack, msgs[0]);
      assert pushed == History(stack + [msgs[0]]);
      assert PushAll(stack, msgs) == PushAll(pushed, msgs[1..]);
      PushAllIsHistory(pushed, msgs[1..]);
      HistoryOfHistory(stack + [msgs[0]], msgs[1..]);
      AppendFirst(stack, msgs);
    }
  }

  lemma AppendFirst(a: seq<string>, b: seq<string>)
    requires b != []
    ensures a + [b[0]] + b[1..] == a + b
  {
    assert b == [b[0]] + b[1..];
  }

  /**
   * The message pushed last is the one popped first, and popping it leaves what
   * was there before, less the oldest message if the history was full.
   */
  lemma PushThenPop(stack: seq<string>, msg: string)
    requires |stack| <= StackSize
    ensures |Push(stack, msg)| >= 1
    ensures Push(stack, msg)[|Push(stack, msg)| - 1] == msg
    ensures Push(stack, msg)[..|Push(stack, msg)| - 1] == if |stack| == StackSize then stack[1..] else stack
  {
    var s := stack + [msg];
    if |stack| == StackSize {
      assert Push(stack, msg) == s[1..];
      assert s[1..][..StackSize - 1] == stack[1..];
    } else {
      assert Push(stack, msg) == s;
      assert s[..|s| - 1] == stack;
    }
  }

  /**
   * The message of the queue's next read that `dequeue` acts on: the empty
   * string is falsy and acts like an empty queue.
   */
  predicate Actionable(read: Option<string>)
  {
    read.Some? && read.value != ""
  }

  class Invoker {
    /** `Invoker._registry`, a class attribute: one invoker stands for the shared dictionary. */
    var registry: Registry
    /** `Invoker._stack`, the executed messages, newest last. */
    var stack: seq<string>
    /** What the executed and undone commands did, in order. */
    var log: seq<Event>
    const queue: QueueBackends.DatabaseQueue
    const queueName: string

    /** The history never grows past `StackSize` and every class is filed under its class string. */
    ghost predicate Valid()
      reads this
    {
      |stack| <= StackSize && KeyedByClassString(registry)
    }

    /** `Invoker(queue_class, queue_name)`: a queue of that name over the message table; `registry` is what was registered so far. */
    constructor (registry: Registry, table: MessageTable, queueName: string)
      requires KeyedByClassString(registry)
      ensures Valid()
      ensures this.registry == registry && stack == [] && log == []
      ensures queue.name == queueName && queue.table == table && this.queueName == queueName
    {
      this.registry := registry;
      stack := [];
      log := [];
      queue := new QueueBackends.DatabaseQueue(queueName, table);
      this.queueName := queueName;
    }

    /** `register(cls)`: `cls` is filed under its class string, silently replacing any class there. */
    method Register(k: CommandClass)
      modifies this
      ensures registry == Registered(old(registry), k)
      ensures stack == old(stack) && log == old(log)
      ensures old(Valid()) ==> Valid()
    {
      registry := Registered(registry, k);
    }

    /** `unregister(cls)`: `del` of the class string, a KeyError when it is not registered. */
    method Unregister(k: CommandClass) returns (r: Outcome<Raised>)
      modifies this
      ensures ClassString(k) in old(registry) ==> r == Pass && registry == old(registry) - {ClassString(k)}
      ensures ClassString(k) !in old(registry) ==> r == Fail(KeyError(ClassString(k))) && registry == old(registry)
      ensures stack == old(stack) && log == old(log)
      ensures old(Valid()) ==> Valid()
    {
      if ClassString(k) in registry {
        registry := registry - {ClassString(k)};
        r := Pass;
      } else {
        r := Fail(KeyError(ClassString(k)));
      }
    }

    /** `cls in invoker`. */
    function Contains(k: CommandClass): bool
      reads this
    {
      ClassString(k) in registry
    }

    /**
     * The metaclass: defining a subclass of `QueueCommand` registers it, so
     * afterwards it is in the invoker and filed under its own class string.
     */
    method DefineCommandClass(moduleName: string, name: string, behaviour: Behaviour) returns (k: CommandClass)
      modifies this
      ensures k == CommandClass(moduleName, name, behaviour)
      ensures registry == Registered(old(registry), k) && Contains(k) && registry[ClassString(k)] == k
      ensures stack == old(stack) && log == old(log)
      ensures old(Valid()) ==> Valid()
    {
      k := CommandClass(moduleName, name, behaviour);
      Register(k);
    }

    /** `flush()`: the queue's pending messages are dropped. */
    method Flush()
      modifies queue.table
      ensures queue.Contents() == []
      ensures forall n :: n != queue.name ==> Pending(queue.table.rows, n) == Pending(old(queue.table.rows), n)
    {
      queue.Flush();
    }

    /** `write(msg)`: a raw message onto the queue. */
    method Write(msg: string)
      modifies queue.table
      ensures queue.Contents() == old(queue.Contents()) + [msg]
      ensures forall n :: n != queue.name ==> Pending(queue.table.rows, n) == Pending(old(queue.table.rows), n)
    {
      queue.Write(msg);
    }

    /** `get_message_for_command(command)`: the message whose first colon ends the class string. */
    function GetMessageForCommand(command: QueueCommand): (m: string)
      reads command
      ensures WellNamed(command.kind) ==> SplitOnce(m, ':') == Some((ClassString(command.kind), Dumps(command.GetData())))
    {
      MessageFor(command.kind, command.GetData())
    }

    /**
     * `enqueue(command)`: exactly one message, the command's, is written;
     * nothing is executed and the history is untouched (neither is in the frame).
     */
    method Enqueue(command: QueueCommand)
      modifies queue.table
      ensures queue.Contents() == old(queue.Contents()) + [MessageFor(command.kind, command.data)]
      ensures forall n :: n != queue.name ==> Pending(queue.table.rows, n) == Pending(old(queue.table.rows), n)
    {
      var msg := GetMessageForCommand(command);
      Write(msg);
    }

    /** `read()`: the oldest message, or `None`. */
    method Read() returns (r: Option<string>)
      modifies queue.table
      ensures old(queue.Contents()) == [] ==> r == None && queue.table.rows == old(queue.table.rows)
      ensures old(queue.Contents()) != [] ==> r == Some(old(queue.Contents())[0]) && queue.Contents() == old(queue.Contents())[1..]
      ensures forall n :: n != queue.name ==> Pending(queue.table.rows, n) == Pending(old(queue.table.rows), n)
    {
      r := queue.Read();
    }

    /** `load(msg)`: the command a message stands for; an unknown class string raises QueueException. */
    function Load(msg: string): (r: Result<Command, Raised>)
      reads this
      ensures ':' !in msg ==> r.Err? && r.error.ValueError?
      ensures r.Err? && r.error.QueueException? <==> ParseMessage(registry, msg).Err? && ParseMessage(registry, msg).error.UnknownClass?
      ensures r.Ok? <==> ParseMessage(registry, msg).Ok?
      ensures r.Ok? ==> r == Ok(ParseMessage(registry, msg).value)
    {
      match ParseMessage(registry, msg)
      case Ok(c) => Ok(c)
      case Err(e) => Err(LoadFailure(e, "Invoker registry"))
    }

    /**
     * `dequeue()`: reads one message. `False` when there is none or it is empty.
     * Otherwise the message is gone from the queue even when loading or executing
     * it raises; only a command that executed is logged and pushed onto the history.
     */
    method Dequeue() returns (r: Result<bool, Raised>)
      modifies this, queue.table
      ensures registry == old(registry)
      ensures old(queue.Contents()) == [] ==> queue.table.rows == old(queue.table.rows)
      ensures old(queue.Contents()) != [] ==> queue.Contents() == old(queue.Contents())[1..]
      ensures forall n :: n != queue.name ==> Pending(queue.table.rows, n) == Pending(old(queue.table.rows), n)
      ensures var read := if old(queue.Contents()) == [] then None else Some(old(queue.Contents())[0]);
        if !Actionable(read) then r == Ok(false) && stack == old(stack) && log == old(log)
        else if Load(read.value).Err? then r == Err(Load(read.value).error) && stack == old(stack) && log == old(log)
        else if ExecuteCommand(Load(read.value).value).Err? then
          r == Err(ExecuteCommand(Load(read.value).value).error) && stack == old(stack) && log == old(log)
        else
          r == Ok(true) && stack == Push(old(stack), read.value) && log == old(log) + [ExecuteCommand(Load(read.value).value).value]
      ensures old(Valid()) ==> Valid()
    {
      var msg := Read();
      if !Actionable(msg) {
        return Ok(false);
      }
      var loaded := Load(msg.value);
      if loaded.Err? {
        return Err(loaded.error);
      }
      var done := ExecuteCommand(loaded.value);
      if done.Err? {
        return Err(done.error);
      }
      log := log + [done.value];
      stack := Push(stack, msg.value);
      r := Ok(true);
    }

    /**
     * `undo()`: pops the newest history message and undoes its command; an empty
     * history raises QueueException. The message is popped before it is loaded,
     * so it is gone even when loading or undoing raises.
     */
    method Undo() returns (r: Outcome<Raised>)
      modifies this
      ensures registry == old(registry)
      ensures old(stack) == [] ==> r == Fail(QueueException("No command found")) && stack == [] && log == old(log)
      ensures old(stack) != [] ==>
        var last := old(stack)[|old(stack)| - 1];
        stack == old(stack)[..|old(stack)| - 1] &&
        if Load(last).Err? then r == Fail(Load(last).error) && log == old(log)
        else if UndoCommand(Load(last).value).Err? then r == Fail(UndoCommand(Load(last).value).error) && log == old(log)
        else r == Pass && log == old(log) + [UndoCommand(Load(last).value).value]
      ensures old(Valid()) ==> Valid()
    {
      if stack == [] {
        return Fail(QueueException("No command found"));
      }
      var last := stack[|stack| - 1];
      stack := stack[..|stack| - 1];
      var loaded := Load(last);
      if loaded.Err? {
        return Fail(loaded.error);
      }
      var done := UndoCommand(loaded.value);
      if done.Err? {
        return Fail(done.error);
      }
      log := log + [done.value];
      r := Pass;
    }

    /**
     * `queue_command` applied to `func`: builds the generated class, which the
     * metaclass registers. (The decorator also builds its own invoker over the
     * same shared registry; this invoker stands for it.)
     */
    method Decorate(func: FunctionRef) returns (k: CommandClass)
      modifies this
      ensures k == GeneratedClass(func)
      ensures registry == Registered(old(registry), k) && Contains(k)
      ensures stack == old(stack) && log == old(log)
      ensures old(Valid()) ==> Valid()
    {
      k := DefineCommandClass(func.moduleName, func.moduleName + "." + func.name, FunctionBacked(func));
    }

    /**
     * The decorated function, called: enqueues one command of the generated class
     * carrying `(args, kwargs)`, returns nothing, and does not run `func`.
     */
    method InnerRun(k: CommandClass, args: seq<Value>, kwargs: seq<(string, Value)>)
      modifies queue.table
      ensures queue.Contents() == old(queue.Contents()) + [MessageFor(k, WrapperData(args, kwargs))]
      ensures forall n :: n != queue.name ==> Pending(queue.table.rows, n) == Pending(old(queue.table.rows), n)
    {
      var command := new QueueCommand(k, WrapperData(args, kwargs));
      Enqueue(command);
    }
  }

  /** `cls in invoker` holds exactly when a message for `cls` loads again, whatever its data. */
  lemma ContainsIffLoads(inv: Invoker, k: CommandClass, data: Value)
    requires WellNamed(k)
    ensures inv.Contains(k) <==> inv.Load(MessageFor(k, data)).Ok?
  {
    ParseMessageFor(inv.registry, k, data);
  }

  /** The stack's invariant is kept by every history update. */
  lemma PushKeepsBound(stack: seq<string>, msg: string)
    ensures |Push(stack, msg)| <= StackSize
    ensures |stack| < StackSize ==> |Push(stack, msg)| == |stack| + 1
  {
  }
}
