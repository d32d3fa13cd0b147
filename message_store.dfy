/**
 * The `QueueMessage` table that both database queue backends store their
 * messages in. A row carries the queue name and the message text; the table
 * is kept in `created` order, which is the order rows were inserted (rows
 * created in the same instant keep their insertion order).
 */
module MessageStore {

  datatype Row = Row(queue: string, message: string)

  /** The messages pending on queue `name`, oldest first: the queryset `filter(queue=name)` ordered by `created`. */
  function Pending(rows: seq<Row>, name: string): (r: seq<string>)
    ensures |r| <= |rows|
  {
    if rows == [] then []
    else if rows[0].queue == name then [rows[0].message] + Pending(rows[1..], name)
    else Pending(rows[1..], name)
  }

  /** A message is pending on `name` exactly when some row of `name` carries it. */
  lemma {:induction false} PendingMembers(rows: seq<Row>, name: string, m: string)
    ensures m in Pending(rows, name) <==> Row(name, m) in rows
  {
    if rows != [] {
      PendingMembers(rows[1..], name, m);
      assert rows == [rows[0]] + rows[1..];
    }
  }

  /** Inserting a row affects only the queue it is written to, and lands at the end of it. */
  lemma {:induction false} PendingAppend(rows: seq<Row>, row: Row, name: string)
    ensures Pending(rows + [row], name) == Pending(rows, name) + (if row.queue == name then [row.message] else [])
  {
    if rows == [] {
      assert [row][1..] == [];
    } else {
      assert (rows + [row])[1..] == rows[1..] + [row];
      PendingAppend(rows[1..], row, name);
    }
  }

  /** The rows of other queues are ignored: pending messages of a prefix and a suffix add up. */
  lemma {:induction false} PendingConcat(a: seq<Row>, b: seq<Row>, name: string)
    ensures Pending(a + b, name) == Pending(a, name) + Pending(b, name)
  {
    if a == [] {
      assert a + b == b;
    } else {
      assert (a + b)[1..] == a[1..] + b;
      PendingConcat(a[1..], b, name);
    }
  }

  /** A prefix holding no row of `name` contributes nothing. */
  lemma {:induction false} PendingNone(rows: seq<Row>, name: string)
    requires forall k :: 0 <= k < |rows| ==> rows[k].queue != name
    ensures Pending(rows, name) == []
  {
    if rows != [] {
      PendingNone(rows[1..], name);
    }
  }

  /**
   * Deleting the first row of `name` (the one at index `i`) removes the oldest message
   * of `name` and leaves every other queue as it was.
   */
  lemma DeleteOldest(rows: seq<Row>, name: string, i: nat, other: string)
    requires i < |rows| && rows[i].queue == name
    requires forall k :: 0 <= k < i ==> rows[k].queue != name
    ensures Pending(rows, name) != [] && Pending(rows, name)[0] == rows[i].message
    ensures Pending(rows[..i] + rows[i + 1..], name) == Pending(rows, name)[1..]
    ensures other != name ==> Pending(rows[..i] + rows[i + 1..], other) == Pending(rows, other)
  {
    assert rows == rows[..i] + ([rows[i]] + rows[i + 1..]);
    PendingConcat(rows[..i], [rows[i]] + rows[i + 1..], name);
    PendingConcat(rows[..i], [rows[i]] + rows[i + 1..], other);
    PendingConcat(rows[..i], rows[i + 1..], name);
    PendingConcat(rows[..i], rows[i + 1..], other);
    PendingNone(rows[..i], name);
    assert ([rows[i]] + rows[i + 1..])[1..] == rows[i + 1..];
  }

  /** The table without the rows of `name`: `filter(queue=name).delete()`. */
  function DeleteQueue(rows: seq<Row>, name: string): (r: seq<Row>)
    ensures |r| <= |rows|
    ensures forall k :: 0 <= k < |r| ==> r[k].queue != name
  {
    if rows == [] then []
    else if rows[0].queue == name then DeleteQueue(rows[1..], name)
    else [rows[0]] + DeleteQueue(rows[1..], name)
  }

  /** Deleting one queue's rows empties that queue and no other. */
  lemma {:induction false} DeleteQueuePending(rows: seq<Row>, name: string, other: string)
    ensures Pending(DeleteQueue(rows, name), name) == []
    ensures other != name ==> Pending(DeleteQueue(rows, name), other) == Pending(rows, other)
  {
    PendingNone(DeleteQueue(rows, name), name);
    if rows != [] {
      DeleteQueuePending(rows[1..], name, other);
      if rows[0].queue != name {
        assert ([rows[0]] + DeleteQueue(rows[1..], name))[1..] == DeleteQueue(rows[1..], name);
      }
    }
  }

  /** The table itself, shared by every queue object that stores into it. */
  class MessageTable {
    var rows: seq<Row>

    constructor ()
      ensures rows == []
    {
      rows := [];
    }
  }
}
