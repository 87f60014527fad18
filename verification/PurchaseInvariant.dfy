/** What every step of the purchase protocol keeps. */
module PurchaseInvariant {
  import opened Base
  import opened Purchase

  // ---------------------------------------------------------------- vocabulary

  predicate Entitled(g: Shared, x: Worker) {
    x.usr in g.registered && g.registered[x.usr] == x.key
  }

  predicate Checking(pc: Pc) {
    pc.CheckInfo? || pc.CheckGot?
  }

  predicate Optimistic(pc: Pc) {
    pc.Multi? || pc.Decr? || pc.Hmset? || pc.Exec?
  }

  predicate InRedis(pc: Pc) {
    || pc.Watch? || pc.Get? || Optimistic(pc) || pc.Unwatch?
    || pc.SoldOut? || pc.RefundLock? || pc.RefundSet? || pc.RefundZero? || pc.RefundUnlock?
  }

  predicate Writing(pc: Pc) {
    pc.Update? || pc.Insert? || pc.Decide?
  }

  predicate InSql(pc: Pc) {
    || pc.Begin? || pc.Select? || Writing(pc) || pc.CountSale?
    || pc.FailLock? || pc.FailInc? || pc.FailUnlock? || pc.Restore?
  }

  predicate InLock(pc: Pc) {
    pc.RefundSet? || pc.RefundZero? || pc.RefundUnlock? || pc.FailInc? || pc.FailUnlock?
  }

  /** A unit was taken from total_count for x and its fate is still open: not yet an
      order, not yet counted as a failure, not dropped. */
  predicate InFlight(x: Worker) {
    x.redis && (x.pc.Begin? || x.pc.Select? || Writing(x.pc) || x.pc.FailLock? || x.pc.FailInc?)
  }

  predicate Won(x: Worker) {
    x.answer == One
  }

  /** A won request that *successNum_ already counts. */
  predicate Counted(x: Worker) {
    x.answer == One && x.pc != CountSale
  }

  /** Between the SET that refunds and the zeroing of *failedCount_. */
  predicate Refunding(x: Worker) {
    x.pc.RefundZero?
  }

  function UnitsInFlight(s: State): nat {
    CountIf(s.workers, InFlight)
  }

  /** Failures that are still to be put back on sale: while a refund is visible in
      total_count already, *failedCount_ stands for nothing. */
  function Refundable(s: State): int {
    if CountIf(s.workers, Refunding) > 0 then 0 else s.g.proc.failed
  }

  /** Request i is the one that sold to user u. */
  predicate SoldTo(g: Shared, u: User, i: Id) {
    u in g.ledger.sold && g.ledger.sold[u] == i
  }

  // ---------------------------------------------------------------- the invariant

  /** The optimistic transaction: while the watched version is current, so is the value read. */
  predicate WatchInv(g: Shared, x: Worker) {
    && (x.pc.Get? || Optimistic(x.pc) ==> x.watched <= g.redis.version)
    && (Optimistic(x.pc) ==>
          x.watchOk && x.read > 0 && (x.watched == g.redis.version ==> x.read == g.redis.count))
    && (x.redis && InSql(x.pc) ==> x.usr in g.redis.orderInfo)
  }

  /** The pessimistic transaction: while it can still commit, its request holds the row
      lock and its copy of the stock is the committed stock less one. */
  predicate RowInv(q: Sql, i: Id, x: Worker) {
    && (!Writing(x.pc) ==> x.pendingStock == None && !x.pendingOrder)
    && (x.pc.Select? ==> x.isSuc)
    && (x.pc.Update? ==> x.isSuc && x.pendingStock == None && !x.pendingOrder)
    && (x.pc.Insert? ==> !x.pendingOrder)
    && (Writing(x.pc) && x.isSuc ==> q.goodsLock == Some(i) && x.total == q.stock - 1 >= 0)
    && ((x.pc.Insert? || x.pc.Decide?) && x.isSuc ==> x.pendingStock == Some(x.total))
    && (x.pc.Decide? && x.isSuc ==> x.pendingOrder && x.usr !in q.orders)
    && (q.goodsLock == Some(i) ==> Writing(x.pc) || x.pc.Restore?)
  }

  /** Progress of one request: its rounds, its one transaction, its one answer. */
  predicate LifeInv(g: Shared, i: Id, x: Worker) {
    && (x.pc.CheckInfo? || (x.pc.Done? && !Won(x)) || Entitled(g, x))
    && (InRedis(x.pc) ==> x.redis)
    && x.round <= RETRYCOUNT
    && (Checking(x.pc) ==> x.round == 0)
    && (x.pc.Watch? ==> x.round < RETRYCOUNT)
    && x.txns <= 1
    && (Checking(x.pc) || InRedis(x.pc) || x.pc.Begin? ==> x.txns == 0)
    && (InLock(x.pc) <==> g.proc.rwlock == Some(i))
    && (Won(x) <==> SoldTo(g, x.usr, i))
    && (x.answer == Unset <==> !(x.pc.CountSale? || x.pc.Restore? || x.pc.Done?))
    && (x.pc.CountSale? ==> Won(x))
  }

  predicate WorkerInv(g: Shared, i: Id, x: Worker) {
    WatchInv(g, x) && RowInv(g.sql, i, x) && LifeInv(g, i, x)
  }

  predicate StoresInv(g: Shared) {
    && g.redis.count >= 0 && g.proc.failed >= 0 && g.sql.stock >= 0 && g.ledger.overwritten >= 0
    && g.sql.orders.Keys == g.ledger.sold.Keys
    && (forall u | u in g.sql.orders :: u in g.registered && g.sql.orders[u] == g.registered[u])
    && (forall u | u in g.redis.orderInfo ::
          u in g.registered && g.redis.orderInfo[u] == g.registered[u])
  }

  /** The locks are held, and the orders were placed, by requests that exist. */
  predicate OwnersInv(s: State) {
    && (s.g.sql.goodsLock.Some? ==> s.g.sql.goodsLock.value in s.workers)
    && (s.g.proc.rwlock.Some? ==> s.g.proc.rwlock.value in s.workers)
    && (forall u | u in s.g.ledger.sold ::
          var i := s.g.ledger.sold[u];
          i in s.workers && s.workers[i].usr == u && Won(s.workers[i]) &&
          (s.workers[i].redis ==> u in s.g.redis.orderInfo))
  }

  /** The books balance. Units: what is on sale, to be refunded, in flight, sold through
      Redis, overwritten or dropped is the initial stock, plus one for each failure that
      was counted without a unit behind it. */
  predicate BooksInv(s: State) {
    var l := s.g.ledger;
    && s.g.redis.count + Refundable(s) + UnitsInFlight(s) + l.redisSales + l.overwritten + l.dropped
       == STOCK + l.fallbackFails
    && l.execs == UnitsInFlight(s) + l.redisSales + l.redisFails + l.dropped
    && |s.g.sql.orders| == l.redisSales + l.fallbackSales
    && s.g.sql.stock + |s.g.sql.orders| == STOCK
    && |s.g.sql.orders| == CountIf(s.workers, Won)
    && s.g.proc.success == CountIf(s.workers, Counted)
    && CountIf(s.workers, Refunding) <= 1
  }

  ghost predicate Inv(s: State) {
    StoresInv(s.g) && OwnersInv(s) && BooksInv(s) &&
    forall i | i in s.workers :: WorkerInv(s.g, i, s.workers[i])
  }

  lemma InitialInv(registered: map<User, Key>)
    ensures Inv(Initial(registered))
  {
  }

  // ---------------------------------------------------------------- one step

  /** What one request may do to the shared state that the other requests rely on. */
  ghost predicate Frame(g: Shared, h: Shared, w: Id) {
    && h.registered == g.registered
    && (h.redis.version > g.redis.version || (h.redis.version == g.redis.version && h.redis.count == g.redis.count))
    && g.redis.orderInfo.Keys <= h.redis.orderInfo.Keys
    && ((h.sql.stock == g.sql.stock && h.sql.orders == g.sql.orders) || g.sql.goodsLock == Some(w))
    && (forall v | v != w :: g.sql.goodsLock == Some(v) <==> h.sql.goodsLock == Some(v))
    && (forall v | v != w :: g.proc.rwlock == Some(v) <==> h.proc.rwlock == Some(v))
    && (forall u, v | v != w :: SoldTo(g, u, v) <==> SoldTo(h, u, v))
  }

  lemma FrameKeepsOthers(g: Shared, h: Shared, w: Id, v: Id, x: Worker)
    requires Frame(g, h, w) && v != w && WorkerInv(g, v, x)
    ensures WorkerInv(h, v, x)
  {
  }

  /** A command keeps what its own request, the stores and the other requests need. */
  ghost predicate Keeps(g: Shared, w: Id, e: Effect) {
    Frame(g, e.g, w) && WorkerInv(e.g, w, e.x) && StoresInv(e.g)
  }

  lemma CheckInfoKeeps(g: Shared, w: Id, x: Worker, r: Reply)
    requires WorkerInv(g, w, x) && x.pc.CheckInfo?
    ensures WorkerInv(g, w, Checks(g, x, r))
  {
  }

  lemma CheckGotKeeps(g: Shared, w: Id, x: Worker, r: Reply)
    requires WorkerInv(g, w, x) && x.pc.CheckGot?
    ensures WorkerInv(g, w, Checks(g, x, r))
  {
  }

  lemma WatchAndGetKeep(g: Shared, w: Id, x: Worker, r: Reply)
    requires WorkerInv(g, w, x) && (x.pc.Watch? || x.pc.Get?)
    ensures WorkerInv(g, w, WatchAndGet(g, x, r))
  {
  }

  lemma QueueingKeeps(g: Shared, w: Id, x: Worker, r: Reply)
    requires WorkerInv(g, w, x)
    requires x.pc.Multi? || x.pc.Decr? || x.pc.Hmset? || x.pc.Unwatch?
    ensures WorkerInv(g, w, Queueing(x, r))
  {
  }

  lemma ExecuteKeeps(g: Shared, w: Id, x: Worker, r: Reply)
    requires StoresInv(g) && WorkerInv(g, w, x) && x.pc.Exec? && Possible(g, x, r)
    ensures Keeps(g, w, Execute(g, x, r))
  {
  }

  lemma RefundLockKeeps(g: Shared, w: Id, x: Worker, r: Reply)
    requires StoresInv(g) && WorkerInv(g, w, x) && Possible(g, x, r)
    requires x.pc.SoldOut? || x.pc.RefundLock? || x.pc.RefundUnlock?
    ensures Keeps(g, w, Refund(g, w, x, r))
  {
  }

  lemma RefundSetKeeps(g: Shared, w: Id, x: Worker, r: Reply)
    requires StoresInv(g) && WorkerInv(g, w, x) && Possible(g, x, r)
    requires x.pc.RefundSet? || x.pc.RefundZero?
    ensures Keeps(g, w, Refund(g, w, x, r))
  {
  }

  lemma SelectedKeeps(g: Shared, w: Id, x: Worker, r: Reply)
    requires StoresInv(g) && WorkerInv(g, w, x) && x.pc.Select? && Possible(g, x, r)
    ensures Keeps(g, w, Selected(g, w, x, r))
  {
  }

  lemma UpdateKeeps(g: Shared, w: Id, x: Worker, r: Reply)
    requires StoresInv(g) && WorkerInv(g, w, x) && x.pc.Update?
    ensures Keeps(g, w, Write(g, w, x, r))
  {
  }

  lemma InsertKeeps(g: Shared, w: Id, x: Worker, r: Reply)
    requires StoresInv(g) && WorkerInv(g, w, x) && x.pc.Insert? && Possible(g, x, r)
    ensures Keeps(g, w, Write(g, w, x, r))
  {
  }

  lemma WriteKeeps(g: Shared, w: Id, x: Worker, r: Reply)
    requires StoresInv(g) && WorkerInv(g, w, x) && (x.pc.Update? || x.pc.Insert?) && Possible(g, x, r)
    ensures Keeps(g, w, Write(g, w, x, r))
  {
    hide StoresInv, WorkerInv, Keeps, Write;
    if x.pc.Update? { UpdateKeeps(g, w, x, r); } else { InsertKeeps(g, w, x, r); }
  }

  lemma DecidedKeeps(g: Shared, w: Id, x: Worker)
    requires StoresInv(g) && WorkerInv(g, w, x) && x.pc.Decide?
    ensures Keeps(g, w, Decided(g, w, x))
  {
  }

  lemma FailLockKeeps(g: Shared, w: Id, x: Worker)
    requires StoresInv(g) && WorkerInv(g, w, x) && x.pc.FailLock? && Possible(g, x, Ok)
    ensures Keeps(g, w, Fail(g, w, x))
  {
  }

  lemma FailIncKeeps(g: Shared, w: Id, x: Worker)
    requires StoresInv(g) && WorkerInv(g, w, x) && (x.pc.FailInc? || x.pc.FailUnlock?)
    ensures Keeps(g, w, Fail(g, w, x))
  {
  }

  lemma FailKeeps(g: Shared, w: Id, x: Worker)
    requires StoresInv(g) && WorkerInv(g, w, x) && Possible(g, x, Ok)
    requires x.pc.FailLock? || x.pc.FailInc? || x.pc.FailUnlock?
    ensures Keeps(g, w, Fail(g, w, x))
  {
    hide StoresInv, WorkerInv, Keeps, Fail;
    if x.pc.FailLock? { FailLockKeeps(g, w, x); } else { FailIncKeeps(g, w, x); }
  }

  lemma RestoredKeeps(g: Shared, w: Id, x: Worker)
    requires StoresInv(g) && WorkerInv(g, w, x) && x.pc.Restore?
    ensures Keeps(g, w, Restored(g, w, x))
  {
  }

  lemma BeginKeeps(g: Shared, w: Id, x: Worker)
    requires WorkerInv(g, w, x) && x.pc.Begin?
    ensures WorkerInv(g, w, x.(pc := Select, txns := x.txns + 1, isSuc := true, total := 0))
  {
  }

  lemma CountSaleKeeps(g: Shared, w: Id, x: Worker)
    requires StoresInv(g) && WorkerInv(g, w, x) && x.pc.CountSale?
    ensures Keeps(g, w, Effect(x.(pc := Restore), g.(proc := g.proc.(success := g.proc.success + 1))))
  {
  }

  /** The commands that change nothing but the request's own record. */
  predicate Private(pc: Pc) {
    || Checking(pc) || pc.Watch? || pc.Get? || pc.Multi? || pc.Decr? || pc.Hmset? || pc.Unwatch?
    || pc.Begin?
  }

  lemma PrivateKeeps(g: Shared, w: Id, x: Worker, r: Reply)
    requires WorkerInv(g, w, x) && Private(x.pc) && Possible(g, x, r)
    ensures Issue(g, w, x, r).g == g && WorkerInv(g, w, Issue(g, w, x, r).x)
  {
    if x.pc.CheckInfo? { CheckInfoKeeps(g, w, x, r); }
    else if x.pc.CheckGot? { CheckGotKeeps(g, w, x, r); }
    else if x.pc.Watch? || x.pc.Get? { WatchAndGetKeep(g, w, x, r); }
    else if x.pc.Begin? { BeginKeeps(g, w, x); }
    else { QueueingKeeps(g, w, x, r); }
  }

  lemma TransactionKeeps(g: Shared, w: Id, x: Worker, r: Reply)
    requires StoresInv(g) && WorkerInv(g, w, x) && Possible(g, x, r)
    requires x.pc.Exec? || x.pc.Select? || Writing(x.pc) || x.pc.CountSale? || x.pc.Restore?
    ensures Keeps(g, w, Issue(g, w, x, r))
  {
    match x.pc
    case Exec => ExecuteKeeps(g, w, x, r);
    case Select => SelectedKeeps(g, w, x, r);
    case Update => WriteKeeps(g, w, x, r);
    case Insert => WriteKeeps(g, w, x, r);
    case Decide => DecidedKeeps(g, w, x);
    case CountSale => CountSaleKeeps(g, w, x);
    case Restore => RestoredKeeps(g, w, x);
  }

  lemma IssueKeeps(g: Shared, w: Id, x: Worker, r: Reply)
    requires StoresInv(g) && WorkerInv(g, w, x) && Possible(g, x, r)
    ensures Keeps(g, w, Issue(g, w, x, r))
  {
    if Private(x.pc) { PrivateKeeps(g, w, x, r); }
    else if x.pc.FailLock? || x.pc.FailInc? || x.pc.FailUnlock? { FailKeeps(g, w, x); }
    else if x.pc.RefundSet? || x.pc.RefundZero? { RefundSetKeeps(g, w, x, r); }
    else if x.pc.SoldOut? || x.pc.RefundLock? || x.pc.RefundUnlock? { RefundLockKeeps(g, w, x, r); }
    else { TransactionKeeps(g, w, x, r); }
  }

  // ---------------------------------------------------------------- one command in the books

  /** Locks and orders of a command are its own, and a winner stays one. */
  predicate OwnDeeds(g: Shared, w: Id, x: Worker, e: Effect) {
    && e.x.usr == x.usr && e.x.key == x.key && e.x.redis == x.redis
    && (Won(x) ==> Won(e.x))
    && (e.g.sql.goodsLock == g.sql.goodsLock || e.g.sql.goodsLock == None || e.g.sql.goodsLock == Some(w))
    && (e.g.proc.rwlock == g.proc.rwlock || e.g.proc.rwlock == None || e.g.proc.rwlock == Some(w))
    && (e.g.ledger.sold == g.ledger.sold ||
        (e.g.ledger.sold == g.ledger.sold[x.usr := w] && Won(e.x) &&
         (x.redis ==> x.usr in e.g.redis.orderInfo)))
  }

  /** The units x accounts for, beside those of the other requests in flight. */
  function Units(g: Shared, x: Worker): int {
    g.redis.count + (if Refunding(x) then 0 else g.proc.failed) + Indicator(InFlight(x))
    + g.ledger.redisSales + g.ledger.overwritten + g.ledger.dropped - g.ledger.fallbackFails
  }

  /** Taken in Redis, less what became of it. */
  function OpenExecs(g: Shared, x: Worker): int {
    g.ledger.execs - Indicator(InFlight(x))
    - g.ledger.redisSales - g.ledger.redisFails - g.ledger.dropped
  }

  /** What a command adds to one side of an account it adds to the other. */
  predicate Balanced(g: Shared, x: Worker, e: Effect) {
    && Units(e.g, e.x) == Units(g, x)
    && (!InLock(x.pc) ==> e.g.proc.failed == g.proc.failed && !Refunding(e.x))
    && OpenExecs(e.g, e.x) == OpenExecs(g, x)
    && |e.g.sql.orders| - e.g.ledger.redisSales - e.g.ledger.fallbackSales
       == |g.sql.orders| - g.ledger.redisSales - g.ledger.fallbackSales
    && e.g.sql.stock + |e.g.sql.orders| == g.sql.stock + |g.sql.orders|
    && |e.g.sql.orders| - Indicator(Won(e.x)) == |g.sql.orders| - Indicator(Won(x))
    && e.g.proc.success - Indicator(Counted(e.x)) == g.proc.success - Indicator(Counted(x))
  }

  predicate Accounts(g: Shared, w: Id, x: Worker, e: Effect) {
    OwnDeeds(g, w, x, e) && Balanced(g, x, e)
  }

  /** A command without shared effect leaves the books alone if it neither starts nor
      ends a reservation and is not an answer "1". */
  predicate Silent(x: Worker, y: Worker) {
    && y.usr == x.usr && y.key == x.key && y.redis == x.redis
    && InFlight(y) == InFlight(x) && !Won(x) && !Won(y) && !Refunding(x) && !Refunding(y)
  }

  lemma ChecksSilent(g: Shared, w: Id, x: Worker, r: Reply)
    requires LifeInv(g, w, x) && Checking(x.pc)
    ensures Silent(x, Checks(g, x, r))
  {
  }

  lemma WatchAndGetSilent(g: Shared, w: Id, x: Worker, r: Reply)
    requires LifeInv(g, w, x) && (x.pc.Watch? || x.pc.Get?)
    ensures Silent(x, WatchAndGet(g, x, r))
  {
  }

  lemma QueueingSilent(g: Shared, w: Id, x: Worker, r: Reply)
    requires LifeInv(g, w, x) && (x.pc.Multi? || x.pc.Decr? || x.pc.Hmset? || x.pc.Unwatch?)
    ensures Silent(x, Queueing(x, r))
  {
  }

  lemma PrivateAccounts(g: Shared, w: Id, x: Worker, r: Reply)
    requires WorkerInv(g, w, x) && Private(x.pc) && Possible(g, x, r)
    ensures Accounts(g, w, x, Issue(g, w, x, r))
  {
    if Checking(x.pc) { ChecksSilent(g, w, x, r); }
    else if x.pc.Watch? || x.pc.Get? { WatchAndGetSilent(g, w, x, r); }
    else if x.pc.Begin? { }
    else { QueueingSilent(g, w, x, r); }
  }

  lemma ExecuteAccounts(g: Shared, w: Id, x: Worker, r: Reply)
    requires WorkerInv(g, w, x) && x.pc.Exec? && Possible(g, x, r)
    ensures Accounts(g, w, x, Execute(g, x, r))
  {
  }

  lemma RefundSetAccounts(g: Shared, w: Id, x: Worker, r: Reply)
    requires WorkerInv(g, w, x) && (x.pc.RefundSet? || x.pc.RefundZero?)
    ensures Accounts(g, w, x, Refund(g, w, x, r))
  {
  }

  lemma RefundLockAccounts(g: Shared, w: Id, x: Worker, r: Reply)
    requires WorkerInv(g, w, x) && (x.pc.SoldOut? || x.pc.RefundLock? || x.pc.RefundUnlock?)
    ensures Accounts(g, w, x, Refund(g, w, x, r))
  {
  }

  lemma RefundAccounts(g: Shared, w: Id, x: Worker, r: Reply)
    requires WorkerInv(g, w, x) && Possible(g, x, r)
    requires x.pc.SoldOut? || x.pc.RefundLock? || x.pc.RefundSet? || x.pc.RefundZero? || x.pc.RefundUnlock?
    ensures Accounts(g, w, x, Refund(g, w, x, r))
  {
    hide WorkerInv, Possible, Accounts, Refund;
    if x.pc.RefundSet? || x.pc.RefundZero? { RefundSetAccounts(g, w, x, r); }
    else { RefundLockAccounts(g, w, x, r); }
  }

  lemma SelectedAccounts(g: Shared, w: Id, x: Worker, r: Reply)
    requires WorkerInv(g, w, x) && x.pc.Select? && Possible(g, x, r)
    ensures Accounts(g, w, x, Selected(g, w, x, r))
  {
  }

  lemma WriteAccounts(g: Shared, w: Id, x: Worker, r: Reply)
    requires WorkerInv(g, w, x) && (x.pc.Update? || x.pc.Insert?) && Possible(g, x, r)
    ensures Accounts(g, w, x, Write(g, w, x, r))
  {
    assert !Won(x);
    hide WorkerInv, Possible;
  }

  lemma DecidedAccounts(g: Shared, w: Id, x: Worker)
    requires WorkerInv(g, w, x) && x.pc.Decide?
    ensures Accounts(g, w, x, Decided(g, w, x))
  {
    if x.isSuc {
      assert g.sql.orders[x.usr := x.key].Keys == g.sql.orders.Keys + {x.usr};
    }
  }

  lemma FailAccounts(g: Shared, w: Id, x: Worker)
    requires WorkerInv(g, w, x) && Possible(g, x, Ok)
    requires x.pc.FailLock? || x.pc.FailInc? || x.pc.FailUnlock?
    ensures Accounts(g, w, x, Fail(g, w, x))
  {
  }

  lemma RestoredAccounts(g: Shared, w: Id, x: Worker)
    requires WorkerInv(g, w, x) && x.pc.Restore?
    ensures Accounts(g, w, x, Restored(g, w, x))
  {
  }

  lemma IssueAccounts(g: Shared, w: Id, x: Worker, r: Reply)
    requires WorkerInv(g, w, x) && Possible(g, x, r)
    ensures Accounts(g, w, x, Issue(g, w, x, r))
  {
    if Private(x.pc) { PrivateAccounts(g, w, x, r); }
    else if x.pc.Exec? { ExecuteAccounts(g, w, x, r); }
    else if InRedis(x.pc) { RefundAccounts(g, w, x, r); }
    else if x.pc.Select? { SelectedAccounts(g, w, x, r); }
    else if x.pc.Decide? { DecidedAccounts(g, w, x); }
    else if Writing(x.pc) { WriteAccounts(g, w, x, r); }
    else if x.pc.Restore? { RestoredAccounts(g, w, x); }
    else if !x.pc.CountSale? { FailAccounts(g, w, x); }
  }

  // ---------------------------------------------------------------- every step

  lemma CommandKeepsOwners(s: State, w: Id, r: Reply)
    requires OwnersInv(s) && CanAct(s, w, r)
    requires Frame(s.g, Command(s, w, r).g, w)
    requires OwnDeeds(s.g, w, s.workers[w], Issue(s.g, w, s.workers[w], r))
    ensures OwnersInv(Command(s, w, r))
  {
  }

  /** At most one request refunds at a time, and it holds the lock. */
  lemma RefundingIsLocked(s: State, w: Id)
    requires forall i | i in s.workers :: WorkerInv(s.g, i, s.workers[i])
    requires w in s.workers && InLock(s.workers[w].pc)
    ensures CountIf(s.workers, Refunding) == Indicator(Refunding(s.workers[w]))
  {
    var only := if Refunding(s.workers[w]) then {w} else {};
    forall i ensures i in Keys(s.workers, Refunding) <==> i in only {
      if i in s.workers { assert WorkerInv(s.g, i, s.workers[i]); }
      assert WorkerInv(s.g, w, s.workers[w]);
    }
    assert Keys(s.workers, Refunding) == only;
  }

  lemma CommandKeepsBooks(s: State, w: Id, r: Reply)
    requires BooksInv(s) && CanAct(s, w, r)
    requires Balanced(s.g, s.workers[w], Issue(s.g, w, s.workers[w], r))
    requires InLock(s.workers[w].pc) ==> CountIf(s.workers, Refunding) == Indicator(Refunding(s.workers[w]))
    ensures BooksInv(Command(s, w, r))
  {
    var y := Issue(s.g, w, s.workers[w], r).x;
    CountIfUpdate(s.workers, w, y, InFlight);
    CountIfUpdate(s.workers, w, y, Won);
    CountIfUpdate(s.workers, w, y, Counted);
    CountIfUpdate(s.workers, w, y, Refunding);
  }

  lemma CommandKeepsInv(s: State, w: Id, r: Reply)
    requires Inv(s) && CanAct(s, w, r)
    ensures Inv(Command(s, w, r))
  {
    hide WorkerInv, StoresInv, OwnersInv, BooksInv, Issue, Frame;
    var x := s.workers[w];
    var t := Command(s, w, r);
    assert WorkerInv(s.g, w, x);
    IssueKeeps(s.g, w, x, r);
    IssueAccounts(s.g, w, x, r);
    CommandKeepsOwners(s, w, r);
    if InLock(x.pc) { RefundingIsLocked(s, w); }
    CommandKeepsBooks(s, w, r);
    forall i | i in t.workers ensures WorkerInv(t.g, i, t.workers[i]) {
      if i != w { FrameKeepsOthers(s.g, t.g, w, i, s.workers[i]); }
    }
  }

  lemma ArriveKeepsBooks(s: State, w: Id, x: Worker)
    requires BooksInv(s) && w !in s.workers
    requires !InFlight(x) && !Won(x) && !Refunding(x)
    ensures BooksInv(s.(workers := s.workers[w := x]))
  {
    CountIfUpdate(s.workers, w, x, InFlight);
    CountIfUpdate(s.workers, w, x, Won);
    CountIfUpdate(s.workers, w, x, Counted);
    CountIfUpdate(s.workers, w, x, Refunding);
  }

  lemma ArriveKeepsOwners(s: State, w: Id, x: Worker)
    requires OwnersInv(s) && w !in s.workers
    ensures OwnersInv(s.(workers := s.workers[w := x]))
  {
  }

  lemma FreshInv(s: State, w: Id, usr: User, key: Key, redis: bool)
    requires OwnersInv(s) && w !in s.workers
    ensures WorkerInv(s.g, w, Fresh(usr, key, redis))
  {
  }

  lemma ArriveKeepsInv(s: State, w: Id, usr: User, key: Key, redis: bool)
    requires Inv(s) && w !in s.workers
    ensures Inv(Apply(s, Arrive(w, usr, key, redis)))
  {
    var t := Apply(s, Arrive(w, usr, key, redis));
    ArriveKeepsBooks(s, w, Fresh(usr, key, redis));
    ArriveKeepsOwners(s, w, Fresh(usr, key, redis));
    FreshInv(s, w, usr, key, redis);
    forall i | i in t.workers ensures WorkerInv(t.g, i, t.workers[i]) {
      assert i != w ==> t.workers[i] == s.workers[i];
    }
  }

  /** Every event keeps the invariant. */
  lemma StepKeepsInv(s: State, e: Event)
    requires Inv(s) && Enabled(s, e)
    ensures Inv(Apply(s, e))
  {
    match e
    case Arrive(w, usr, key, redis) => ArriveKeepsInv(s, w, usr, key, redis);
    case Act(w, r) => CommandKeepsInv(s, w, r);
  }

  /** So it holds at the end of every run. */
  lemma {:induction false} RunKeepsInv(registered: map<User, Key>, es: seq<Event>)
    requires Legal(Initial(registered), es)
    ensures Inv(After(Initial(registered), es))
    ensures After(Initial(registered), es).g.registered == registered
    decreases |es|
  {
    if es == [] {
      InitialInv(registered);
    } else {
      var n := |es| - 1;
      RunKeepsInv(registered, es[..n]);
      var s := After(Initial(registered), es[..n]);
      StepKeepsInv(s, es[n]);
      if es[n].Act? {
        assert WorkerInv(s.g, es[n].w, s.workers[es[n].w]);
        IssueKeeps(s.g, es[n].w, s.workers[es[n].w], es[n].reply);
      }
    }
  }

  lemma ReachableInv(s: State)
    requires Reachable(s)
    ensures Inv(s)
  {
    var registered, es :| Legal(Initial(registered), es) && After(Initial(registered), es) == s;
    RunKeepsInv(registered, es);
  }
}
