/** The connection pool of django_snowflake_cs (django_snowflake_cs/pool.py):
    a bounded FIFO queue of idle driver connections. `get` reuses the
    oldest idle connection or creates one, `put` queues a connection or
    closes it when the queue is full, `close` drains the queue, and the two
    context managers `connection()` and `cursor()` lease a connection around
    a block.

    The queue is modelled sequentially. What the driver does is input: each
    connection and cursor carries whether closing it raises, and each block
    whether it raises. */
module Pool {

  /** A driver cursor. */
  class Cursor {
    var closed: bool
    /** Whether the driver raises when this cursor is closed. */
    const closeFails: bool

    constructor (closeFails: bool)
      ensures !closed && this.closeFails == closeFails
    {
      closed := false;
      this.closeFails := closeFails;
    }

    /** `cursor.close()`: raises when the driver fails, and closes
        otherwise. */
    method Close() returns (raised: bool)
      modifies this
      ensures raised == closeFails
      ensures closed == (old(closed) || !closeFails)
    {
      raised := closeFails;
      if !closeFails {
        closed := true;
      }
    }
  }

  /** A driver connection and the pool it was last handed out by. */
  class Connection {
    var closed: bool
    /** Whether the driver raises when this connection is closed. */
    const closeFails: bool
    /** `conn._pool`. */
    var pool: SnowflakeConnectionPool?

    constructor (closeFails: bool)
      ensures !closed && this.closeFails == closeFails && pool == null
    {
      closed := false;
      this.closeFails := closeFails;
      pool := null;
    }

    /** `conn.close()`: raises when the driver fails, and closes otherwise. */
    method Close() returns (raised: bool)
      modifies this
      ensures raised == closeFails
      ensures closed == (old(closed) || !closeFails)
      ensures pool == old(pool)
    {
      raised := closeFails;
      if !closeFails {
        closed := true;
      }
    }

    /** `conn.cursor()`: a new open cursor. */
    method NewCursor(cursorCloseFails: bool) returns (c: Cursor)
      ensures fresh(c) && !c.closed && c.closeFails == cursorCloseFails
    {
      c := new Cursor(cursorCloseFails);
    }
  }

  /** The idle queue after `put(item)`: the item is appended unless the
      queue is full. A `maxsize` of zero or less means no bound, as for
      gevent's `Queue`. */
  ghost function AfterPut(idle: seq<Connection>, item: Connection, maxsize: int): seq<Connection>
  {
    if maxsize > 0 && |idle| >= maxsize then idle else idle + [item]
  }

  /** The idle queue after putting `items` in order. */
  ghost function AfterPuts(idle: seq<Connection>, items: seq<Connection>, maxsize: int): seq<Connection>
    decreases |items|
  {
    if items == [] then idle
    else AfterPut(AfterPuts(idle, items[..|items| - 1], maxsize), items[|items| - 1], maxsize)
  }

  /** The items that find the queue full when put in order, and are closed. */
  ghost function Surplus(idle: seq<Connection>, items: seq<Connection>, maxsize: int): seq<Connection>
    decreases |items|
  {
    if items == [] then []
    else
      var before := AfterPuts(idle, items[..|items| - 1], maxsize);
      Surplus(idle, items[..|items| - 1], maxsize) +
        (if maxsize > 0 && |before| >= maxsize then [items[|items| - 1]] else [])
  }

  /** Putting connections into an empty pool of `maxsize` keeps the first
      `maxsize` of them, in order, and closes every later one: the idle
      queue never grows past `maxsize`. */
  lemma {:induction false} PutsIntoEmpty(items: seq<Connection>, maxsize: int)
    requires maxsize > 0
    ensures |items| <= maxsize ==> AfterPuts([], items, maxsize) == items && Surplus([], items, maxsize) == []
    ensures |items| > maxsize ==>
      AfterPuts([], items, maxsize) == items[..maxsize] && Surplus([], items, maxsize) == items[maxsize..]
    decreases |items|
  {
    if items != [] {
      var init := items[..|items| - 1];
      var last := items[|items| - 1];
      PutsIntoEmpty(init, maxsize);
      if |items| <= maxsize {
        assert init + [last] == items;
      } else if |init| == maxsize {
        assert init == items[..maxsize];
        assert items[maxsize..] == [last];
      } else {
        assert items == init + [last];
        assert init[..maxsize] == items[..maxsize];
        assert items[maxsize..] == init[maxsize..] + [last];
      }
    }
  }

  /** An unbounded pool keeps every connection put into it. */
  lemma {:induction false} PutsUnbounded(idle: seq<Connection>, items: seq<Connection>, maxsize: int)
    requires maxsize <= 0
    ensures AfterPuts(idle, items, maxsize) == idle + items && Surplus(idle, items, maxsize) == []
    decreases |items|
  {
    if items != [] {
      var init := items[..|items| - 1];
      PutsUnbounded(idle, init, maxsize);
      assert idle + init + [items[|items| - 1]] == idle + items;
    }
  }

  /** The number of queue entries whose close raises. */
  function FailingCloses(cs: seq<Connection>): nat
    decreases |cs|
  {
    if cs == [] then 0 else (if cs[0].closeFails then 1 else 0) + FailingCloses(cs[1..])
  }

  lemma FailingClosesSnoc(cs: seq<Connection>, c: Connection)
    ensures FailingCloses(cs + [c]) == FailingCloses(cs) + (if c.closeFails then 1 else 0)
    decreases |cs|
  {
    if cs == [] {
      assert [c][1..] == [];
    } else {
      assert (cs + [c])[1..] == cs[1..] + [c];
      FailingClosesSnoc(cs[1..], c);
    }
  }

  /** `SnowflakeConnectionPool` (pool.py:5-70). */
  class SnowflakeConnectionPool {
    const maxsize: int
    /** The idle connections, oldest first (`self.pool`). */
    var idle: seq<Connection>

    /** The queue never holds more than `maxsize` connections. */
    ghost predicate Valid()
      reads this
    {
      maxsize > 0 ==> |idle| <= maxsize
    }

    /** `queue.Full` would be raised by `put_nowait`. */
    predicate Full()
      reads this
    {
      maxsize > 0 && |idle| >= maxsize
    }

    /** `__init__` (pool.py:6-9): an empty queue of `maxsize`. */
    constructor (maxsize: int)
      ensures this.maxsize == maxsize && idle == [] && Valid()
    {
      this.maxsize := maxsize;
      idle := [];
    }

    /** `get` (pool.py:37-48): the oldest idle connection, or a new one
        (whose close behaves as `closeFails` says) when none is idle; either
        way tagged with this pool. */
    method Get(closeFails: bool) returns (conn: Connection, created: bool)
      requires Valid()
      modifies this, if idle != [] then {idle[0]} else {}
      ensures Valid()
      ensures created <==> old(idle) == []
      ensures !created ==> conn == old(idle)[0] && idle == old(idle)[1..] && conn.closed == old(conn.closed)
      ensures created ==> fresh(conn) && idle == [] && !conn.closed && conn.closeFails == closeFails
      ensures conn.pool == this
    {
      if idle != [] {
        conn := idle[0];
        idle := idle[1..];
        created := false;
      } else {
        conn := new Connection(closeFails);
        created := true;
      }
      conn.pool := this;
    }

    /** `put` (pool.py:50-54): the connection is queued, or closed when the
        queue is full; a failing close propagates. */
    method Put(item: Connection) returns (raised: bool)
      requires Valid()
      modifies this, item
      ensures Valid()
      ensures idle == AfterPut(old(idle), item, maxsize)
      ensures old(Full()) ==> raised == item.closeFails && item.closed == (old(item.closed) || !item.closeFails)
      ensures !old(Full()) ==> !raised && item.closed == old(item.closed)
      ensures item.pool == old(item.pool)
    {
      if Full() {
        raised := item.Close();
      } else {
        idle := idle + [item];
        raised := false;
      }
    }

    /** `close` (pool.py:61-70): every idle connection is taken off the
        queue and closed; a close that raises is counted and the drain goes
        on. */
    method Close() returns (failures: nat)
      modifies this, set c | c in idle
      ensures idle == []
      ensures failures == FailingCloses(old(idle))
      ensures forall c :: c in old(idle) ==> c.closed == (old(c.closed) || !c.closeFails) && c.pool == old(c.pool)
    {
      failures := 0;
      ghost var drained: seq<Connection> := [];
      while idle != []
        invariant old(idle) == drained + idle
        invariant failures == FailingCloses(drained)
        invariant forall c :: c in old(idle) ==>
          c.closed == (old(c.closed) || (c in drained && !c.closeFails)) && c.pool == old(c.pool)
        decreases |idle|
      {
        var conn := idle[0];
        idle := idle[1..];
        FailingClosesSnoc(drained, conn);
        drained := drained + [conn];
        var raised := conn.Close();
        if raised {
          failures := failures + 1;
        }
      }
      assert old(idle) == drained + [];
      assert old(idle) == drained;
      assert failures == FailingCloses(drained);
    }

    /** `connection()` (pool.py:11-22) around a block that raises when
        `blockRaises`: the connection of `get`; if the block raised it is
        closed (a failing close is ignored) and the exception does not
        propagate; either way it is put back, so a connection closed here
        re-enters the queue. The queue is never full at that point, since
        the lease took a connection off it or found it empty. */
    method ConnectionScope(closeFails: bool, blockRaises: bool) returns (conn: Connection, propagates: bool)
      requires Valid()
      modifies this, if idle != [] then {idle[0]} else {}
      ensures Valid()
      ensures old(idle) != [] ==> conn == old(idle)[0] && idle == old(idle)[1..] + [conn]
      ensures old(idle) == [] ==> fresh(conn) && conn.closeFails == closeFails && idle == [conn]
      ensures conn.pool == this
      ensures conn.closed == ((old(idle) != [] && old(idle[0].closed)) || (blockRaises && !conn.closeFails))
      ensures !propagates
    {
      ghost var wasIdle := old(idle) != [] && old(idle[0].closed);
      var created;
      conn, created := Get(closeFails);
      assert conn.closed == wasIdle;
      if blockRaises {
        var raised := conn.Close();
      }
      var raised := Put(conn);
      propagates := false;
    }

    /** `cursor()` (pool.py:25-35) around a block that raises when
        `blockRaises`: within `connection()`, a cursor is opened and a second
        one is handed to the block; if the block raised only the first is
        closed (a failing close is ignored). The exception stops there, so
        the connection is not closed, and it is put back. */
    method CursorScope(closeFails: bool, cursorCloseFails: bool, blockRaises: bool)
      returns (conn: Connection, first: Cursor, yielded: Cursor, propagates: bool)
      requires Valid()
      modifies this, if idle != [] then {idle[0]} else {}
      ensures Valid()
      ensures old(idle) != [] ==> conn == old(idle)[0] && idle == old(idle)[1..] + [conn] && conn.closed == old(idle[0].closed)
      ensures old(idle) == [] ==> fresh(conn) && idle == [conn] && !conn.closed
      ensures conn.pool == this
      ensures fresh(first) && fresh(yielded) && first != yielded
      ensures first.closed == (blockRaises && !cursorCloseFails)
      ensures !yielded.closed
      ensures !propagates
    {
      var created;
      conn, created := Get(closeFails);
      first := conn.NewCursor(cursorCloseFails);
      yielded := conn.NewCursor(cursorCloseFails);
      if blockRaises {
        var raised := first.Close();
      }
      // the block's exception was handled above: connection() sees none
      var raised := Put(conn);
      propagates := false;
    }
  }
}
