/**
 * `djutils.queue.registry`: the registry of command classes used by the newer
 * queue package, which also builds and parses messages.
 */
module CommandRegistry {
  import opened Wrappers
  import opened Errors
  import opened Text
  import opened Pickle
  import opened Commands

  class CommandRegistry {
    /** `CommandRegistry._registry`, a class attribute shared by every registry object. */
    var registry: Registry

    /** `registry = CommandRegistry()`, the module's one registry, before any class is defined. */
    constructor ()
      ensures registry == map[]
    {
      registry := map[];
    }

    /** `register(cls)`: files `cls` under its class string, overwriting any earlier class there. */
    method Register(k: CommandClass)
      modifies this
      ensures registry == Registered(old(registry), k)
      ensures Contains(k) && registry[ClassString(k)] == k
    {
      registry := Registered(registry, k);
    }

    /** `unregister(cls)`: removes that class string only; a missing one raises KeyError. */
    method Unregister(k: CommandClass) returns (r: Outcome<Raised>)
      modifies this
      ensures ClassString(k) in old(registry) ==> r == Pass && registry == old(registry) - {ClassString(k)}
      ensures ClassString(k) !in old(registry) ==> r == Fail(KeyError(ClassString(k))) && registry == old(registry)
      ensures !Contains(k)
    {
      if ClassString(k) in registry {
        registry := registry - {ClassString(k)};
        r := Pass;
      } else {
        r := Fail(KeyError(ClassString(k)));
      }
    }

    /** `cls in registry`. */
    function Contains(k: CommandClass): bool
      reads this
    {
      ClassString(k) in registry
    }

    /** `get_message_for_command(command)`: class string, `:`, pickled data, split back apart at that first colon. */
    function GetMessageForCommand(command: QueueCommand): (m: string)
      reads command
      ensures WellNamed(command.kind) ==> SplitOnce(m, ':') == Some((ClassString(command.kind), Dumps(command.GetData())))
    {
      MessageFor(command.kind, command.GetData())
    }

    /**
     * `get_command_for_message(msg)` as the module evidently intends it: an
     * unregistered class string raises QueueException.
     */
    function GetCommandForMessage(msg: string): (r: Result<Command, Raised>)
      reads this
      ensures ':' !in msg ==> r.Err? && r.error.ValueError?
      ensures r.Err? && r.error.QueueException? <==> ParseMessage(registry, msg).Err? && ParseMessage(registry, msg).error.UnknownClass?
      ensures r.Ok? <==> ParseMessage(registry, msg).Ok?
      ensures r.Ok? ==> r == Ok(ParseMessage(registry, msg).value)
    {
      match ParseMessage(registry, msg)
      case Ok(c) => Ok(c)
      case Err(e) => Err(LoadFailure(e, "CommandRegistry"))
    }

    /**
     * `get_command_for_message(msg)` as written: the module raises `QueueException`
     * without importing it, so evaluating that name raises NameError instead.
     */
    function GetCommandForMessageAsWritten(msg: string): (r: Result<Command, Raised>)
      reads this
      ensures r.Err? ==> !r.error.QueueException?
      ensures r.Ok? <==> ParseMessage(registry, msg).Ok?
    {
      match ParseMessage(registry, msg)
      case Ok(c) => Ok(c)
      case Err(UnknownClass(_)) => Err(NameError("QueueException"))
      case Err(e) => Err(LoadFailure(e, "CommandRegistry"))
    }
  }

  /**
   * The two readings agree except on an unregistered class string, where the
   * code as written raises NameError where QueueException is meant.
   */
  lemma AsWrittenDiffersOnUnknownClass(reg: CommandRegistry, msg: string)
    ensures ParseMessage(reg.registry, msg).Err? && ParseMessage(reg.registry, msg).error.UnknownClass? ==>
      reg.GetCommandForMessageAsWritten(msg) == Err(NameError("QueueException")) &&
      reg.GetCommandForMessage(msg).Err? && reg.GetCommandForMessage(msg).error.QueueException?
    ensures !(ParseMessage(reg.registry, msg).Err? && ParseMessage(reg.registry, msg).error.UnknownClass?) ==>
      reg.GetCommandForMessageAsWritten(msg) == reg.GetCommandForMessage(msg)
  {
  }

  /** `cls in registry` holds exactly when a message for `cls` loads again, whatever its data. */
  lemma ContainsIffLoads(reg: CommandRegistry, k: CommandClass, data: Value)
    requires WellNamed(k)
    ensures reg.Contains(k) <==> reg.GetCommandForMessage(MessageFor(k, data)).Ok?
  {
    ParseMessageFor(reg.registry, k, data);
  }

  /** A class `app.Gone` that is never registered. */
  const Gone := CommandClass("app", "Gone", UserDefined(false))

  /** A concrete input: the message for a `Gone` command, read through an empty registry. */
  lemma UnknownClassExample(reg: CommandRegistry)
    requires reg.registry == map[]
    ensures reg.GetCommandForMessageAsWritten(MessageFor(Gone, VNone)) == Err(NameError("QueueException"))
    ensures reg.GetCommandForMessage(MessageFor(Gone, VNone)) == Err(LoadFailure(UnknownClass(ClassString(Gone)), "CommandRegistry"))
  {
    assert WellNamed(Gone);
    ParseMessageFor(reg.registry, Gone, VNone);
  }
}
