/**
 * What the two command queues share: command classes and their class strings,
 * the `'<class string>:<pickled data>'` message format and its parser, the
 * command object with its data, and what executing or undoing a command does.
 */
module Commands {
  import opened Wrappers
  import opened Errors
  import opened Text
  import opened Pickle

  /** A Python function, known by its `__module__` and `__name__`. */
  datatype FunctionRef = FunctionRef(moduleName: string, name: string)

  /** What the `execute` and `undo` methods of a command class do. */
  datatype Behaviour =
    | Abstract                            // `QueueCommand` itself: both raise NotImplementedError
    | UserDefined(undoable: bool)         // a subclass overriding `execute`, and `undo` when `undoable`
    | FunctionBacked(func: FunctionRef)   // a class generated by `queue_command` around `func`

  /** A command class, known by its `__module__` and `__name__`. */
  datatype CommandClass = CommandClass(moduleName: string, name: string, behaviour: Behaviour)

  /** A module and class name made of Python identifiers and dots hold no colon. */
  predicate WellNamed(k: CommandClass)
  {
    ':' !in k.moduleName && ':' !in k.name
  }

  /** `str(cls)` of a new-style class: `<class 'module.Name'>`. */
  function ClassString(k: CommandClass): (s: string)
    ensures WellNamed(k) ==> ':' !in s
  {
    "<class '" + k.moduleName + "." + k.name + "'>"
  }

  /** The registries are dictionaries from class strings to classes. */
  type Registry = map<string, CommandClass>

  /** Every class is filed under its own class string, as `register` files it. */
  predicate KeyedByClassString(reg: Registry)
  {
    forall key :: key in reg ==> ClassString(reg[key]) == key
  }

  /** `register(cls)`: files `cls` under its class string, replacing whatever was there. */
  function Registered(reg: Registry, k: CommandClass): (r: Registry)
    ensures ClassString(k) in r && r[ClassString(k)] == k
    ensures forall key :: key != ClassString(k) ==> (key in r <==> key in reg)
    ensures forall key :: key in reg && key != ClassString(k) ==> r[key] == reg[key]
    ensures KeyedByClassString(reg) ==> KeyedByClassString(r)
  {
    reg[ClassString(k) := k]
  }

  /** A command object's class and data, as the message carries them. */
  datatype Command = Command(kind: CommandClass, data: Value)

  /** `message_template % {'CLASS': str(type(command)), 'DATA': pickle.dumps(data)}`. */
  function MessageFor(kind: CommandClass, data: Value): (m: string)
    ensures WellNamed(kind) ==> SplitOnce(m, ':') == Some((ClassString(kind), Dumps(data)))
  {
    var m := ClassString(kind) + ":" + Dumps(data);
    assert WellNamed(kind) ==> SplitOnce(m, ':') == Some((ClassString(kind), Dumps(data))) by {
      if WellNamed(kind) {
        SplitOnceAtFirst(ClassString(kind), ':', Dumps(data));
      }
    }
    m
  }

  /** Why a message could not be turned back into a command. */
  datatype LoadError =
    | NoSeparator            // `klass_str, data = msg.split(':', 1)` found one piece only
    | UnknownClass(klass: string)
    | BadPayload             // `pickle.loads` refused the data

  /**
   * Split at the first `:`, look the class string up, unpickle the rest: the
   * parsing half of `load` / `get_command_for_message`.
   */
  function ParseMessage(reg: Registry, msg: string): (r: Result<Command, LoadError>)
    ensures r == Err(NoSeparator) <==> ':' !in msg
    ensures r.Err? && r.error.UnknownClass? ==> ':' !in r.error.klass && r.error.klass !in reg
    ensures r.Ok? ==> r.value.kind in reg.Values
  {
    match SplitOnce(msg, ':')
    case None => Err(NoSeparator)
    case Some((klass, data)) =>
      if klass !in reg then Err(UnknownClass(klass))
      else
        match Loads(data)
        case None => Err(BadPayload)
        case Some(v) => Ok(Command(reg[klass], v))
  }

  /**
   * Round trip: parsing the message built for a command gives back the class
   * registered under its class string, with equal data, whatever colons the
   * pickled data holds; an unregistered class string is the only error.
   */
  lemma ParseMessageFor(reg: Registry, k: CommandClass, data: Value)
    requires WellNamed(k)
    ensures ClassString(k) in reg ==> ParseMessage(reg, MessageFor(k, data)) == Ok(Command(reg[ClassString(k)], data))
    ensures ClassString(k) !in reg ==> ParseMessage(reg, MessageFor(k, data)) == Err(UnknownClass(ClassString(k)))
    ensures KeyedByClassString(reg) && ClassString(k) in reg ==> ClassString(reg[ClassString(k)]) == ClassString(k)
  {
    LoadsDumps(data);
  }

  /** A registered class comes back as itself. */
  lemma ParseMessageOfRegistered(reg: Registry, k: CommandClass, data: Value)
    requires WellNamed(k) && ClassString(k) in reg && reg[ClassString(k)] == k
    ensures ParseMessage(reg, MessageFor(k, data)) == Ok(Command(k, data))
  {
    ParseMessageFor(reg, k, data);
  }

  /** The exception a parse failure raises, given the text naming the registry. */
  function LoadFailure(e: LoadError, registryName: string): (r: Raised)
    ensures e.UnknownClass? <==> r.QueueException?
  {
    match e
    case NoSeparator => ValueError("need more than 1 value to unpack")
    case UnknownClass(klass) => QueueException(klass + " not found in " + registryName)
    case BadPayload => UnpicklingError
  }

  /** A call of a user function with positional and keyword arguments. */
  datatype Call = Call(func: FunctionRef, args: seq<Value>, kwargs: seq<(string, Value)>)

  /** What executing or undoing a command did. */
  datatype Event =
    | Executed(cmd: Command)   // a user-defined `execute` ran on this command
    | Called(call: Call)       // a generated command called its function
    | Undone(cmd: Command)     // a user-defined `undo` ran on this command

  /** The data of a command generated by `queue_command`: `(args, kwargs)`. */
  function WrapperData(args: seq<Value>, kwargs: seq<(string, Value)>): Value
  {
    VTuple([VTuple(args), VDict(kwargs)])
  }

  /** `*x`: the positional arguments an iterable spreads into; a dict spreads its keys. */
  function Spread(v: Value): (r: Option<seq<Value>>)
    ensures r.Some? <==> (v.VTuple? || v.VStr? || v.VDict?)
    ensures v.VTuple? ==> r == Some(v.items)
    ensures r.Some? ==> |r.value| == (match v case VStr(s) => |s| case VDict(es) => |es| case _ => |v.items|)
  {
    match v
    case VTuple(items) => Some(items)
    case VStr(s) => Some(seq(|s|, i requires 0 <= i < |s| => VStr([s[i]])))
    case VDict(entries) => Some(seq(|entries|, i requires 0 <= i < |entries| => VStr(entries[i].0)))
    case _ => None
  }

  /**
   * The generated `execute`: `args, kwargs = self.data` then `func(*args, **kwargs)`.
   * Unpacking needs an iterable of exactly two items (ValueError otherwise, TypeError
   * when it is not iterable); the first must spread and the second be a mapping.
   */
  function UnpackCall(func: FunctionRef, data: Value): (r: Result<Call, Raised>)
    ensures r.Ok? <==> data.VTuple? && |data.items| == 2 && Spread(data.items[0]).Some? && data.items[1].VDict?
    ensures r.Ok? ==> r.value.func == func && r.value.kwargs == data.items[1].entries
    ensures (data.VNone? || data.VInt?) ==> r.Err? && r.error.TypeError?
  {
    match data
    case VNone => Err(TypeError("object is not iterable"))
    case VInt(_) => Err(TypeError("object is not iterable"))
    case VStr(s) =>
      if |s| != 2 then Err(ValueError("wrong number of values to unpack"))
      else Err(TypeError("argument after ** must be a mapping"))
    case VDict(entries) =>
      if |entries| != 2 then Err(ValueError("wrong number of values to unpack"))
      else Err(TypeError("argument after ** must be a mapping"))
    case VTuple(items) =>
      if |items| != 2 then Err(ValueError("wrong number of values to unpack"))
      else if !items[1].VDict? then Err(TypeError("argument after ** must be a mapping"))
      else
        match Spread(items[0])
        case None => Err(TypeError("argument after * must be a sequence"))
        case Some(args) => Ok(Call(func, args, items[1].entries))
  }

  /** The generated `execute` calls the function with exactly the arguments the wrapper packed. */
  lemma UnpackWrapperData(func: FunctionRef, args: seq<Value>, kwargs: seq<(string, Value)>)
    ensures UnpackCall(func, WrapperData(args, kwargs)) == Ok(Call(func, args, kwargs))
  {
  }

  /** `command.execute()`. */
  function ExecuteCommand(c: Command): (r: Result<Event, Raised>)
    ensures c.kind.behaviour.Abstract? ==> r == Err(NotImplementedError)
    ensures c.kind.behaviour.UserDefined? ==> r == Ok(Executed(c))
    ensures c.kind.behaviour.FunctionBacked? ==>
      (r.Ok? <==> UnpackCall(c.kind.behaviour.func, c.data).Ok?) &&
      (r.Ok? ==> r.value == Called(UnpackCall(c.kind.behaviour.func, c.data).value))
  {
    match c.kind.behaviour
    case Abstract => Err(NotImplementedError)
    case UserDefined(_) => Ok(Executed(c))
    case FunctionBacked(func) =>
      match UnpackCall(func, c.data)
      case Ok(call) => Ok(Called(call))
      case Err(e) => Err(e)
  }

  /** `command.undo()`: only a user-defined class that overrides `undo` succeeds. */
  function UndoCommand(c: Command): (r: Result<Event, Raised>)
    ensures r.Ok? <==> c.kind.behaviour == UserDefined(true)
    ensures r.Ok? ==> r.value == Undone(c)
    ensures r.Err? ==> r.error == NotImplementedError
  {
    if c.kind.behaviour == UserDefined(true) then Ok(Undone(c)) else Err(NotImplementedError)
  }

  /**
   * The class `queue_command` builds around `func`: named `'<module>.<name>'` and
   * placed in `func`'s module, so its class string repeats the module.
   */
  function GeneratedClass(func: FunctionRef): (k: CommandClass)
    ensures k.moduleName == func.moduleName && k.behaviour == FunctionBacked(func)
    ensures ClassString(k) == "<class '" + func.moduleName + "." + func.moduleName + "." + func.name + "'>"
    ensures ':' !in func.moduleName && ':' !in func.name ==> WellNamed(k)
  {
    CommandClass(func.moduleName, func.moduleName + "." + func.name, FunctionBacked(func))
  }

  /**
   * End to end: the message a generated command is enqueued as, once read back
   * through a registry holding the generated class, calls the function with the
   * arguments it was given.
   */
  lemma GeneratedRoundTrip(reg: Registry, func: FunctionRef, args: seq<Value>, kwargs: seq<(string, Value)>)
    requires ':' !in func.moduleName && ':' !in func.name
    requires ClassString(GeneratedClass(func)) in reg && reg[ClassString(GeneratedClass(func))] == GeneratedClass(func)
    ensures ParseMessage(reg, MessageFor(GeneratedClass(func), WrapperData(args, kwargs)))
         == Ok(Command(GeneratedClass(func), WrapperData(args, kwargs)))
    ensures ExecuteCommand(Command(GeneratedClass(func), WrapperData(args, kwargs))) == Ok(Called(Call(func, args, kwargs)))
  {
    ParseMessageOfRegistered(reg, GeneratedClass(func), WrapperData(args, kwargs));
    UnpackWrapperData(func, args, kwargs);
  }

  /** The Django settings the queue modules read. */
  datatype Settings = Settings(queueName: Option<string>, databaseName: string)

  /** `settings.QUEUE_NAME` when it is set, otherwise `'queue-'` and the base name of the database file. */
  function QueueNameFor(s: Settings): (r: string)
    ensures s.queueName.Some? ==> r == s.queueName.value
    ensures s.queueName.None? ==>
      |r| >= 6 && r[..6] == "queue-" && '/' !in r[6..] && |r| - 6 <= |s.databaseName| && r[6..] == s.databaseName[|s.databaseName| - |r[6..]|..]
    ensures s.queueName.None? ==> r == "queue-" + Basename(s.databaseName)
  {
    match s.queueName
    case Some(name) => name
    case None =>
      var b := Basename(s.databaseName);
      assert ("queue-" + b)[6..] == b;
      "queue-" + b
  }

  /** A command object: its class is fixed, its data is set by the constructor and by `set_data`. */
  class QueueCommand {
    const kind: CommandClass
    var data: Value

    /** `QueueCommand(data)`: the constructor stores `data` through `set_data`. */
    constructor (kind: CommandClass, data: Value)
      ensures this.kind == kind && this.data == data
    {
      this.kind := kind;
      this.data := data;
    }

    /** `get_data()`. */
    function GetData(): Value
      reads this
    {
      data
    }

    /** `set_data(d)`: what `get_data` returns from now on. */
    method SetData(d: Value)
      modifies this
      ensures data == d && GetData() == d
    {
      data := d;
    }
  }
}
