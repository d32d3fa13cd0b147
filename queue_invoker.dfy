/**
 * `djutils.queue.queue`: the newer invoker. It writes command messages built by
 * the module registry onto a backend queue, and `dequeue` executes what it
 * reads and hands back the message. It keeps no history.
 */
module QueueInvoker {
  import opened Wrappers
  import opened Errors
  import opened Pickle
  import opened Commands
  import opened MessageStore
  import DatabaseBackend
  import CommandRegistry

  /**
   * The module's setup: `queue_name = get_queue_name()` and
   * `queue = Queue(queue_name, QUEUE_CONNECTION)`, over the message table.
   */
  method MakeQueue(settings: Settings, connection: Option<string>, table: MessageTable)
    returns (q: DatabaseBackend.DatabaseQueue)
    ensures q.name == QueueNameFor(settings) && q.connection == connection && q.table == table
  {
    q := new DatabaseBackend.DatabaseQueue(QueueNameFor(settings), connection, table);
  }

  /**
   * `QueueCommandMetaClass.__init__`: every subclass of `QueueCommand`, and
   * `QueueCommand` itself, is registered in the module registry when defined.
   */
  method DefineCommandClass(registry: CommandRegistry.CommandRegistry, moduleName: string, name: string, behaviour: Behaviour)
    returns (k: CommandClass)
    modifies registry
    ensures k == CommandClass(moduleName, name, behaviour)
    ensures registry.registry == Registered(old(registry.registry), k) && registry.Contains(k)
  {
    k := CommandClass(moduleName, name, behaviour);
    registry.Register(k);
  }

  class Invoker {
    const queue: DatabaseBackend.DatabaseQueue
    /** The module-level `registry` the invoker builds and parses messages with. */
    const registry: CommandRegistry.CommandRegistry
    /** What the executed commands did, in order. */
    var log: seq<Event>

    /** `Invoker(queue)`. */
    constructor (queue: DatabaseBackend.DatabaseQueue, registry: CommandRegistry.CommandRegistry)
      ensures this.queue == queue && this.registry == registry && log == []
    {
      this.queue := queue;
      this.registry := registry;
      log := [];
    }

    /** `write(msg)`. */
    method Write(msg: string)
      modifies queue.table
      ensures queue.Contents() == old(queue.Contents()) + [msg]
      ensures forall n :: n != queue.name ==> Pending(queue.table.rows, n) == Pending(old(queue.table.rows), n)
    {
      queue.Write(msg);
    }

    /** `enqueue(command)`: writes exactly `registry.get_message_for_command(command)` and executes nothing. */
    method Enqueue(command: QueueCommand)
      modifies queue.table
      ensures queue.Contents() == old(queue.Contents()) + [registry.GetMessageForCommand(command)]
      ensures forall n :: n != queue.name ==> Pending(queue.table.rows, n) == Pending(old(queue.table.rows), n)
    {
      Write(registry.GetMessageForCommand(command));
    }

    /** `read()`: the oldest message, or `None`. */
    method Read() returns (r: Option<string>)
      modifies queue.table
      ensures old(queue.Contents()) == [] ==> r == None && queue.table.rows == old(queue.table.rows)
      ensures old(queue.Contents()) != [] ==> r == Some(old(queue.Contents())[0]) && queue.Contents() == old(queue.Contents())[1..]
      ensures forall n :: n != queue.name ==> Pending(queue.table.rows, n) == Pending(old(queue.table.rows), n)
    {
      r := queue.Read();
    }

    /**
     * `dequeue()`: `None` when the read gives nothing or the empty string;
     * otherwise the rebuilt command is executed and the very message read is
     * returned. A message that fails to load or execute is gone all the same.
     */
    method Dequeue() returns (r: Result<Option<string>, Raised>)
      modifies this, queue.table
      ensures old(queue.Contents()) == [] ==> queue.table.rows == old(queue.table.rows)
      ensures old(queue.Contents()) != [] ==> queue.Contents() == old(queue.Contents())[1..]
      ensures forall n :: n != queue.name ==> Pending(queue.table.rows, n) == Pending(old(queue.table.rows), n)
      ensures var read := if old(queue.Contents()) == [] then None else Some(old(queue.Contents())[0]);
        var loaded := registry.GetCommandForMessage(read.GetOr(""));
        if read.None? || read.value == "" then r == Ok(None) && log == old(log)
        else if loaded.Err? then r == Err(loaded.error) && log == old(log)
        else if ExecuteCommand(loaded.value).Err? then r == Err(ExecuteCommand(loaded.value).error) && log == old(log)
        else r == Ok(Some(read.value)) && log == old(log) + [ExecuteCommand(loaded.value).value]
    {
      var msg := Read();
      if msg.None? || msg.value == "" {
        return Ok(None);
      }
      var loaded := registry.GetCommandForMessage(msg.value);
      if loaded.Err? {
        return Err(loaded.error);
      }
      var done := ExecuteCommand(loaded.value);
      if done.Err? {
        return Err(done.error);
      }
      log := log + [done.value];
      r := Ok(msg);
    }

    /** `flush()`: delegates to the queue, which is then empty. */
    method Flush()
      modifies queue.table
      ensures queue.Contents() == []
      ensures forall n :: n != queue.name ==> Pending(queue.table.rows, n) == Pending(old(queue.table.rows), n)
    {
      queue.Flush();
    }
  }
}
