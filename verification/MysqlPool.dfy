/** The pool of MySQL connections. Every method runs under the pool lock. */
module MysqlPool {
  import opened Base
  import opened PoolSpec

  class Pool {
    var mysqlpool: seq<Conn>  // std::queue, front first
    var connect_count: nat
    const MAX_CONNECT: nat
    ghost var book: PoolSpec.Pool

    ghost predicate Valid()
      reads this
    {
      && mysqlpool == book.idle && connect_count == |book.idle| + |book.held|
      && MysqlInv(book, MAX_CONNECT)
    }

    constructor SetParameter(max_connect: nat)
      ensures Valid() && book == EMPTY && MAX_CONNECT == max_connect
    {
      mysqlpool, connect_count, MAX_CONNECT := [], 0, max_connect;
      book := EMPTY;
    }

    /** connected is the outcome of mysql_init and mysql_real_connect. */
    method CreateOneConnect(connected: Option<Conn>) returns (conn: Option<Conn>)
      modifies this`connect_count
      ensures conn == connected
      ensures connect_count == old(connect_count) + Indicator(connected.Some?)
    {
      conn := connected;
      if conn.Some? {
        connect_count := connect_count + 1;
      }
    }

    /** dead are the connections that do not answer mysql_ping during the call. */
    method GetOneConnect(dead: set<Conn>, connected: Option<Conn>) returns (conn: Option<Conn>)
      requires Valid() && Allowed(book, Get(dead, connected))
      modifies this
      ensures Valid()
      ensures Given(book, conn) == MysqlGet(old(book), MAX_CONNECT, dead, connected)
    {
      ghost var given := MysqlGet(book, MAX_CONNECT, dead, connected);
      MysqlGetKeeps(book, MAX_CONNECT, dead, connected);
      LiveIsSuffix(mysqlpool, dead);
      conn := None;
      if mysqlpool != [] {
        while mysqlpool != [] && mysqlpool[0] in dead
          invariant book == old(book) && Live(mysqlpool, dead) == Live(book.idle, dead)
          invariant |mysqlpool| <= |book.idle| && connect_count == |mysqlpool| + |book.held|
          decreases |mysqlpool|
        {
          mysqlpool := mysqlpool[1..];
          connect_count := connect_count - 1;
        }
        if mysqlpool != [] {
          conn := Some(mysqlpool[0]);
          mysqlpool := mysqlpool[1..];
        } else {
          if connect_count < MAX_CONNECT {
            conn := CreateOneConnect(connected);
          }
        }
      } else {
        if connect_count < MAX_CONNECT {
          conn := CreateOneConnect(connected);
        }
      }
      book := given.pool;
    }

    method Close(conn: Option<Conn>)
      requires Valid() && Allowed(book, Back(conn))
      modifies this
      ensures Valid() && book == PoolSpec.Close(old(book), conn)
    {
      CloseKeeps(book, MAX_CONNECT, conn);
      if conn.Some? {
        mysqlpool := mysqlpool + [conn.value];
      }
      book := PoolSpec.Close(book, conn);
    }

    /** The destructor closes what is idle; what is handed out stays counted. */
    method Destroy()
      requires Valid()
      modifies this
      ensures Valid() && mysqlpool == [] && connect_count == |old(book).held| && book.held == old(book).held
      ensures book.closed == old(book).closed + |old(mysqlpool)|
    {
      while |mysqlpool| != 0
        invariant Valid() && book.held == old(book).held
        invariant book.closed + |mysqlpool| == old(book).closed + |old(mysqlpool)|
        decreases |mysqlpool|
      {
        mysqlpool := mysqlpool[1..];
        connect_count := connect_count - 1;
        book := book.(idle := book.idle[1..], closed := book.closed + 1);
      }
    }
  }
}
