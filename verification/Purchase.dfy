/** The purchase protocol as a state machine: what one request does to Redis, to
    MySQL and to the counters of the server process, one command at a time.

    Every Redis command, every SQL statement and every lock operation of a request is
    a separate step, so the runs of the machine are all interleavings of all requests.
    The outcome of a command is part of the step: a command that is not answered with
    success has changed nothing. */
module Purchase {
  import opened Base

  type Id = nat
  type User(==,!new)
  type Key(==,!new)

  /** Units on sale, and the number of rounds a request makes in Redis. */
  const STOCK := 50
  const RETRYCOUNT := 20

  /** What the client will be told; "0" and "1" on the wire. */
  datatype Answer = Unset | Zero | One

  /** Where a request stands: the next command it issues. */
  datatype Pc =
    | CheckInfo     // HGET usr_info, or SELECT usr_key
    | CheckGot      // HGET order_info, or SELECT ... FOR UPDATE on order_info
    | Watch         // WATCH total_count
    | Get           // GET total_count
    | Multi         // MULTI
    | Decr          // DECR total_count (queued)
    | Hmset         // HMSET order_info (queued)
    | Exec          // EXEC
    | Unwatch       // UNWATCH after a failed round
    | SoldOut       // UNWATCH after reading no stock
    | RefundLock    // pthread_rwlock_wrlock, to refund
    | RefundSet     // SET total_count, if there is something to refund
    | RefundZero    // *failedCount_ = 0
    | RefundUnlock  // pthread_rwlock_unlock
    | Begin         // mysql_autocommit(OFF)
    | Select        // SELECT g_totalcount ... FOR UPDATE
    | Update        // UPDATE goods_info
    | Insert        // INSERT INTO order_info
    | Decide        // mysql_commit or mysql_rollback
    | CountSale     // ++*successNum_
    | FailLock      // pthread_rwlock_wrlock, after a rollback
    | FailInc       // ++*failedCount_
    | FailUnlock    // pthread_rwlock_unlock
    | Restore       // mysql_autocommit(ON)
    | Done          // the answer is final

  /** The outcome of a command: success, an error reply, no reply at all, or a MySQL
      error that also rolled back the whole transaction (a deadlock victim). */
  datatype Reply = Ok | Error | Null | Abort

  datatype Worker = Worker(
    usr: User, key: Key,
    redis: bool,               // false: no Redis connection, everything in MySQL
    pc: Pc,
    round: nat,                // WATCH rounds begun
    txns: nat,                 // purchase transactions begun in MySQL
    watchOk: bool,             // WATCH of this round was answered OK
    watched: nat,              // version of total_count at that WATCH
    read: int,                 // total_count as read in this round
    queued: bool,              // every command after MULTI was queued
    total: int,                // g_totalcount as read, less the unit being sold
    isSuc: bool,
    pendingStock: Option<int>, // uncommitted UPDATE
    pendingOrder: bool,        // uncommitted INSERT
    answer: Answer)

  /** History of a run; the program does not keep it. */
  datatype Ledger = Ledger(
    execs: nat,          // successful EXECs
    redisSales: nat,     // orders committed after an EXEC
    fallbackSales: nat,  // orders committed without one
    redisFails: nat,     // failures counted after an EXEC
    fallbackFails: nat,  // failures counted without one
    overwritten: int,    // units a refund wrote over
    dropped: nat,        // EXECs whose SELECT gave nothing: never counted as failures
    sold: map<User, Id>)  // which request sold to which user

  /** total_count with a count of its writes, and the hash order_info. */
  datatype Redis = Redis(count: int, version: nat, orderInfo: map<User, Key>)

  /** The committed stock and order table, and the holder of the goods_info row lock. */
  datatype Sql = Sql(stock: int, orders: map<User, Key>, goodsLock: Option<Id>)

  /** The counters of the server process and the lock around *failedCount_. */
  datatype Process = Process(failed: int, success: int, rwlock: Option<Id>)

  /** What all requests share. usr_info is the same in Redis and in MySQL. */
  datatype Shared = Shared(
    registered: map<User, Key>, redis: Redis, sql: Sql, proc: Process, ledger: Ledger)

  datatype State = State(g: Shared, workers: map<Id, Worker>)

  /** A run is a sequence of arrivals of requests and commands of requests. */
  datatype Event =
    | Arrive(w: Id, usr: User, key: Key, redis: bool)
    | Act(w: Id, reply: Reply)

  // ---------------------------------------------------------------- initial state

  const EMPTY_LEDGER := Ledger(0, 0, 0, 0, 0, 0, 0, map[])

  /** What the preparation of the sale leaves behind: full stock, no orders. */
  function Initial(registered: map<User, Key>): State {
    State(Shared(registered, Redis(STOCK, 0, map[]), Sql(STOCK, map[], None), Process(0, 0, None),
                 EMPTY_LEDGER), map[])
  }

  function Fresh(usr: User, key: Key, redis: bool): Worker {
    Worker(usr, key, redis, CheckInfo, 0, 0, false, 0, 0, false, 0, true, None, false, Unset)
  }

  // ---------------------------------------------------------------- commands

  /** The effect of a command: the request's own record and what is shared. */
  datatype Effect = Effect(x: Worker, g: Shared)

  function Finish(x: Worker): Worker {
    x.(pc := Done, answer := Zero)
  }

  function Checks(g: Shared, x: Worker, r: Reply): Worker
    requires x.pc.CheckInfo? || x.pc.CheckGot?
  {
    if x.pc == CheckInfo then
      if r == Ok && x.usr in g.registered && g.registered[x.usr] == x.key
      then x.(pc := CheckGot) else Finish(x)
    else
      if r == Ok && x.usr in (if x.redis then g.redis.orderInfo else g.sql.orders)
      then Finish(x) else x.(pc := if x.redis then Watch else Begin)
  }

  /** An error reply to GET is read by atoi, which makes it 0. */
  function WatchAndGet(g: Shared, x: Worker, r: Reply): Worker
    requires x.pc.Watch? || x.pc.Get?
  {
    if x.pc == Watch then
      x.(pc := Get, round := x.round + 1, watchOk := r == Ok, watched := g.redis.version)
    else if !x.watchOk || r == Null then
      Finish(x)
    else
      var read := if r == Ok then g.redis.count else 0;
      x.(pc := if read > 0 then Multi else SoldOut, read := read)
  }

  /** MULTI and the two queued commands change only the connection; UNWATCH ends a
      failed round. */
  function Queueing(x: Worker, r: Reply): Worker
    requires x.pc.Multi? || x.pc.Decr? || x.pc.Hmset? || x.pc.Unwatch?
  {
    match x.pc
    case Multi => x.(pc := if r == Ok then Decr else Unwatch, queued := true)
    case Decr => x.(pc := Hmset, queued := x.queued && r == Ok)
    case Hmset => x.(pc := Exec, queued := x.queued && r == Ok)
    case Unwatch => if x.round < RETRYCOUNT then x.(pc := Watch) else Finish(x)
  }

  function Execute(g: Shared, x: Worker, r: Reply): Effect {
    if r == Ok then
      Effect(x.(pc := Begin),
             g.(redis := Redis(g.redis.count - 1, g.redis.version + 1, g.redis.orderInfo[x.usr := x.key]),
                ledger := g.ledger.(execs := g.ledger.execs + 1)))
    else
      Effect(x.(pc := Unwatch), g)
  }

  /** A request that read no stock puts the counted failures back on sale: SET writes
      over whatever total_count holds by then. */
  function Refund(g: Shared, w: Id, x: Worker, r: Reply): Effect
    requires x.pc.SoldOut? || x.pc.RefundLock? || x.pc.RefundSet? || x.pc.RefundZero? || x.pc.RefundUnlock?
  {
    match x.pc
    case SoldOut => Effect(x.(pc := RefundLock), g)
    case RefundLock => Effect(x.(pc := RefundSet), g.(proc := g.proc.(rwlock := Some(w))))
    case RefundSet =>
      if g.proc.failed > 0 && r == Ok then
        Effect(x.(pc := RefundZero),
               g.(redis := g.redis.(count := g.proc.failed, version := g.redis.version + 1),
                  ledger := g.ledger.(overwritten := g.ledger.overwritten + g.redis.count)))
      else
        Effect(x.(pc := RefundUnlock), g)
    case RefundZero => Effect(x.(pc := RefundUnlock), g.(proc := g.proc.(failed := 0)))
    case RefundUnlock => Effect(Finish(x), g.(proc := g.proc.(rwlock := None)))
  }

  /** The row lock is released when w's transaction ends. */
  function Release(q: Sql, w: Id): Sql {
    if q.goodsLock == Some(w) then q.(goodsLock := None) else q
  }

  /** The answer is "0" before the purchase has changed anything: the SELECT failed or
      found no stock. A unit taken in Redis is not counted as failed. */
  function GiveUp(g: Shared, x: Worker): Effect {
    Effect(x.(pc := Restore, answer := Zero),
           g.(ledger := g.ledger.(dropped := g.ledger.dropped + Indicator(x.redis))))
  }

  function Selected(g: Shared, w: Id, x: Worker, r: Reply): Effect {
    if r != Ok then
      GiveUp(g, x.(isSuc := false))
    else
      var locked := g.(sql := g.sql.(goodsLock := Some(w)));
      if g.sql.stock > 0 then Effect(x.(pc := Update, total := g.sql.stock - 1), locked)
      else GiveUp(locked, x)
  }

  /** UPDATE and INSERT run whatever the outcome of the statement before. */
  function Write(g: Shared, w: Id, x: Worker, r: Reply): Effect
    requires x.pc.Update? || x.pc.Insert?
  {
    var next := if x.pc == Update then Insert else Decide;
    match r
    case Ok =>
      Effect(if x.pc == Update then x.(pc := next, pendingStock := Some(x.total))
             else x.(pc := next, pendingOrder := true), g)
    case Abort =>
      Effect(x.(pc := next, isSuc := false, pendingStock := None, pendingOrder := false),
             g.(sql := Release(g.sql, w)))
    case _ => Effect(x.(pc := next, isSuc := false), g)
  }

  /** The committed tables once w's uncommitted writes are made permanent. */
  function Committed(q: Sql, w: Id, x: Worker): Sql {
    Release(q.(stock := if x.pendingStock.Some? then x.pendingStock.value else q.stock,
               orders := if x.pendingOrder then q.orders[x.usr := x.key] else q.orders), w)
  }

  function RecordSale(l: Ledger, w: Id, x: Worker): Ledger {
    if x.redis then l.(redisSales := l.redisSales + 1, sold := l.sold[x.usr := w])
    else l.(fallbackSales := l.fallbackSales + 1, sold := l.sold[x.usr := w])
  }

  function RecordFailure(l: Ledger, x: Worker): Ledger {
    if x.redis then l.(redisFails := l.redisFails + 1)
    else l.(fallbackFails := l.fallbackFails + 1)
  }

  /** Commit, or roll back. */
  function Decided(g: Shared, w: Id, x: Worker): Effect {
    var y := x.(pendingStock := None, pendingOrder := false);
    if x.isSuc then
      Effect(y.(pc := CountSale, answer := One),
             g.(sql := Committed(g.sql, w, x), ledger := RecordSale(g.ledger, w, x)))
    else
      Effect(y.(pc := FailLock), g.(sql := Release(g.sql, w)))
  }

  /** Count the failure under the lock. */
  function Fail(g: Shared, w: Id, x: Worker): Effect
    requires x.pc.FailLock? || x.pc.FailInc? || x.pc.FailUnlock?
  {
    match x.pc
    case FailLock => Effect(x.(pc := FailInc), g.(proc := g.proc.(rwlock := Some(w))))
    case FailInc =>
      Effect(x.(pc := FailUnlock),
             g.(proc := g.proc.(failed := g.proc.failed + 1), ledger := RecordFailure(g.ledger, x)))
    case FailUnlock => Effect(x.(pc := Restore, answer := Zero), g.(proc := g.proc.(rwlock := None)))
  }

  /** Turning autocommit back on commits whatever the transaction still holds. */
  function Restored(g: Shared, w: Id, x: Worker): Effect {
    Effect(x.(pc := Done, pendingStock := None, pendingOrder := false),
           g.(sql := Committed(g.sql, w, x)))
  }

  /** Which outcomes the next command of w can have, as far as the shared state decides:
      locks make a command wait; EXEC and INSERT are refused by the server when the
      watch or the primary key is broken. */
  predicate Possible(g: Shared, x: Worker, r: Reply) {
    match x.pc
    case Done => false
    case Exec => r == Ok ==> x.queued && x.watchOk && x.watched == g.redis.version
    case RefundLock => g.proc.rwlock == None
    case FailLock => g.proc.rwlock == None
    case Select => r == Ok ==> g.sql.goodsLock == None
    case Insert => r == Ok ==> x.usr !in g.sql.orders
    case _ => true
  }

  /** The next command of a request, answered with r. */
  function Issue(g: Shared, w: Id, x: Worker, r: Reply): Effect
    requires Possible(g, x, r)
  {
    match x.pc
    case CheckInfo => Effect(Checks(g, x, r), g)
    case CheckGot => Effect(Checks(g, x, r), g)
    case Watch => Effect(WatchAndGet(g, x, r), g)
    case Get => Effect(WatchAndGet(g, x, r), g)
    case Multi => Effect(Queueing(x, r), g)
    case Decr => Effect(Queueing(x, r), g)
    case Hmset => Effect(Queueing(x, r), g)
    case Exec => Execute(g, x, r)
    case Unwatch => Effect(Queueing(x, r), g)
    case SoldOut => Refund(g, w, x, r)
    case RefundLock => Refund(g, w, x, r)
    case RefundSet => Refund(g, w, x, r)
    case RefundZero => Refund(g, w, x, r)
    case RefundUnlock => Refund(g, w, x, r)
    case Begin => Effect(x.(pc := Select, txns := x.txns + 1, isSuc := true, total := 0), g)
    case Select => Selected(g, w, x, r)
    case Update => Write(g, w, x, r)
    case Insert => Write(g, w, x, r)
    case Decide => Decided(g, w, x)
    case CountSale => Effect(x.(pc := Restore), g.(proc := g.proc.(success := g.proc.success + 1)))
    case FailLock => Fail(g, w, x)
    case FailInc => Fail(g, w, x)
    case FailUnlock => Fail(g, w, x)
    case Restore => Restored(g, w, x)
  }

  // ---------------------------------------------------------------- steps

  /** No other request has an uncommitted order row for this user: such a row makes
      INSERT, and a locking read of the row, wait. */
  predicate NoPendingOrder(s: State, w: Id, usr: User) {
    forall v | v in s.workers && v != w :: !(s.workers[v].pendingOrder && s.workers[v].usr == usr)
  }

  predicate ReadsOrderRow(x: Worker, r: Reply) {
    r == Ok && (x.pc.Insert? || (x.pc.CheckGot? && !x.redis))
  }

  predicate CanAct(s: State, w: Id, r: Reply) {
    w in s.workers && Possible(s.g, s.workers[w], r) &&
    (ReadsOrderRow(s.workers[w], r) ==> NoPendingOrder(s, w, s.workers[w].usr))
  }

  predicate Enabled(s: State, e: Event) {
    match e
    case Arrive(w, _, _, _) => w !in s.workers
    case Act(w, r) => CanAct(s, w, r)
  }

  function Command(s: State, w: Id, r: Reply): State
    requires CanAct(s, w, r)
  {
    var e := Issue(s.g, w, s.workers[w], r);
    State(e.g, s.workers[w := e.x])
  }

  function Apply(s: State, e: Event): State
    requires Enabled(s, e)
  {
    match e
    case Arrive(w, usr, key, redis) => s.(workers := s.workers[w := Fresh(usr, key, redis)])
    case Act(w, r) => Command(s, w, r)
  }

  // ---------------------------------------------------------------- runs

  predicate Legal(s: State, es: seq<Event>)
    decreases |es|, 0
  {
    es == [] ||
    (Legal(s, es[..|es| - 1]) && Enabled(After(s, es[..|es| - 1]), es[|es| - 1]))
  }

  /** The state that a run of events leads to. */
  function After(s: State, es: seq<Event>): State
    requires Legal(s, es)
    decreases |es|, 1
  {
    if es == [] then s else Apply(After(s, es[..|es| - 1]), es[|es| - 1])
  }

  ghost predicate Reachable(s: State) {
    exists registered, es :: Legal(Initial(registered), es) && After(Initial(registered), es) == s
  }
}
