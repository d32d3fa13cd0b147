/**
 * `djutils.queue.backends.database.DatabaseQueue`, the newer copy of the
 * database backend: the same FIFO over the `QueueMessage` table, built on a base
 * class that also keeps the connection setting it was constructed with.
 */
module DatabaseBackend {
  import opened Wrappers
  import opened MessageStore

  class DatabaseQueue {
    const name: string
    /** `QUEUE_CONNECTION`; the database backend stores it and never uses it. */
    const connection: Option<string>
    const table: MessageTable

    constructor (name: string, connection: Option<string>, table: MessageTable)
      ensures this.name == name && this.connection == connection && this.table == table
    {
      this.name := name;
      this.connection := connection;
      this.table := table;
    }

    /** The messages of this queue, oldest first. */
    function Contents(): seq<string>
      reads table
    {
      Pending(table.rows, name)
    }

    /** `write(data)`: inserts one row, so `data` becomes the newest message of this queue only. */
    method Write(data: string)
      modifies table
      ensures table.rows == old(table.rows) + [Row(name, data)]
      ensures Contents() == old(Contents()) + [data]
      ensures forall n :: n != name ==> Pending(table.rows, n) == Pending(old(table.rows), n)
    {
      table.rows := table.rows + [Row(name, data)];
      PendingAppend(old(table.rows), Row(name, data), name);
      forall n | n != name
        ensures Pending(table.rows, n) == Pending(old(table.rows), n)
      {
        PendingAppend(old(table.rows), Row(name, data), n);
      }
    }

    /**
     * `read()`: the oldest message of this queue, whose row is deleted; `None`,
     * with the table unchanged, when the queue is empty.
     */
    method Read() returns (r: Option<string>)
      modifies table
      ensures old(Contents()) == [] ==> r == None && table.rows == old(table.rows)
      ensures old(Contents()) != [] ==> r == Some(old(Contents())[0]) && Contents() == old(Contents())[1..]
      ensures forall n :: n != name ==> Pending(table.rows, n) == Pending(old(table.rows), n)
    {
      var rows := table.rows;
      var i := 0;
      while i < |rows| && rows[i].queue != name
        invariant 0 <= i <= |rows|
        invariant forall k :: 0 <= k < i ==> rows[k].queue != name
      {
        i := i + 1;
      }
      if i == |rows| {
        PendingNone(rows, name);
        r := None;
      } else {
        forall n | n != name
          ensures Pending(rows[..i] + rows[i + 1..], n) == Pending(rows, n)
        {
          DeleteOldest(rows, name, i, n);
        }
        DeleteOldest(rows, name, i, name);
        r := Some(rows[i].message);
        table.rows := rows[..i] + rows[i + 1..];
      }
    }

    /** `flush()`: deletes every row of this queue and no other. */
    method Flush()
      modifies table
      ensures table.rows == DeleteQueue(old(table.rows), name)
      ensures Contents() == []
      ensures forall n :: n != name ==> Pending(table.rows, n) == Pending(old(table.rows), n)
    {
      table.rows := DeleteQueue(table.rows, name);
      DeleteQueuePending(old(table.rows), name, name);
      forall n | n != name
        ensures Pending(table.rows, n) == Pending(old(table.rows), n)
      {
        DeleteQueuePending(old(table.rows), name, n);
      }
    }

    /** `len(queue)`: the `count()` of this queue's rows. */
    method Length() returns (n: nat)
      ensures n == |Contents()|
    {
      var rows := table.rows;
      n := 0;
      var i := 0;
      while i < |rows|
        invariant 0 <= i <= |rows|
        invariant n == |Pending(rows[..i], name)|
      {
        assert rows[..i + 1] == rows[..i] + [rows[i]];
        PendingAppend(rows[..i], rows[i], name);
        if rows[i].queue == name {
          n := n + 1;
        }
        i := i + 1;
      }
      assert rows[..i] == rows;
    }
  }
}
