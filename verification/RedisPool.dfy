/** The pool of Redis connections. Every method runs under the pool lock. */
module RedisPool {
  import opened Base
  import opened PoolSpec

  /** unsigned int wraps around. */
  const UINT := 0x1_0000_0000

  class Pool {
    var redispool: seq<Conn>  // std::queue, front first
    var connect_count: nat    // compared with the cap, but never incremented
    const MAX_CONNECT: nat
    ghost var book: PoolSpec.Pool

    ghost predicate Valid()
      reads this
    {
      redispool == book.idle && connect_count == 0 && RedisInv(book)
    }

    constructor SetParameter(max_connect: nat)
      ensures Valid() && book == EMPTY && MAX_CONNECT == max_connect
    {
      redispool, connect_count, MAX_CONNECT := [], 0, max_connect;
      book := EMPTY;
    }

    /** connected is the outcome of redisConnect; a context with an error counts as none. */
    method GetOneConnect(connected: Option<Conn>) returns (conn: Option<Conn>)
      requires Valid() && Allowed(book, Get({}, connected))
      modifies this
      ensures Valid()
      ensures Given(book, conn) == RedisGet(old(book), MAX_CONNECT, connected)
    {
      ghost var given := RedisGet(book, MAX_CONNECT, connected);
      RedisGetKeeps(book, MAX_CONNECT, {}, connected);
      conn := None;
      if redispool != [] {
        conn := Some(redispool[0]);
        redispool := redispool[1..];
      } else {
        if connect_count < MAX_CONNECT {
          conn := connected;
        }
      }
      book := given.pool;
    }

    method Close(conn: Option<Conn>)
      requires Valid() && Allowed(book, Back(conn))
      modifies this
      ensures Valid() && book == PoolSpec.Close(old(book), conn)
    {
      RedisCloseKeeps(book, conn);
      if conn.Some? {
        redispool := redispool + [conn.value];
      }
      book := PoolSpec.Close(book, conn);
    }

    /** The destructor frees what is idle, and takes each off a counter that is 0: it ends
        below zero, wrapped around. */
    method Destroy()
      requires Valid() && |redispool| < UINT
      modifies this
      ensures redispool == [] && connect_count == (UINT - |old(redispool)|) % UINT
    {
      while |redispool| != 0
        invariant |redispool| <= |old(redispool)|
        invariant connect_count == (UINT - (|old(redispool)| - |redispool|)) % UINT
        decreases |redispool|
      {
        redispool := redispool[1..];
        connect_count := (connect_count + UINT - 1) % UINT;
      }
    }
  }
}
