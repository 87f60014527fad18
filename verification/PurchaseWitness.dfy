/** Runs that show what the purchase protocol does not guarantee, although Redis answers
    every command. */
module PurchaseWitness {
  import opened Base
  import opened Purchase
  import opened PurchaseInvariant
  import opened PurchaseTheorems
  import opened PurchaseLife

  // ---------------------------------------------------------------- runs that Redis serves

  /** A command to Redis is answered with success. */
  predicate Answers(x: Worker, r: Reply) {
    x.redis && (Checking(x.pc) || (InRedis(x.pc) && !InLock(x.pc)) || x.pc.RefundSet?) ==> r == Ok
  }

  predicate ServedRun(s: State, es: seq<Event>)
    requires Legal(s, es)
    decreases |es|
  {
    es == [] ||
    (ServedRun(s, es[..|es| - 1]) &&
     var e := es[|es| - 1];
     e.Act? ==> Answers(After(s, es[..|es| - 1]).workers[e.w], e.reply))
  }

  /** Reachable without any failure of Redis. */
  ghost predicate Served(s: State) {
    exists registered, es ::
      Legal(Initial(registered), es) && ServedRun(Initial(registered), es) && After(Initial(registered), es) == s
  }

  lemma ServedReachable(s: State)
    requires Served(s)
    ensures Reachable(s)
  {
  }

  lemma ServedStart(registered: map<User, Key>)
    ensures Served(Initial(registered))
  {
    assert Legal(Initial(registered), []) && ServedRun(Initial(registered), []);
    assert After(Initial(registered), []) == Initial(registered);
  }

  lemma ServedStep(s: State, e: Event)
    requires Served(s) && Enabled(s, e) && (e.Act? ==> Answers(s.workers[e.w], e.reply))
    ensures Served(Apply(s, e))
  {
    var registered, es :|
      Legal(Initial(registered), es) && ServedRun(Initial(registered), es) && After(Initial(registered), es) == s;
    RunSnoc(Initial(registered), es, e);
    assert (es + [e])[..|es|] == es;
    assert ServedRun(Initial(registered), es + [e]);
  }

  // ---------------------------------------------------------------- one request at a time

  predicate NonePending(workers: map<Id, Worker>) {
    forall i | i in workers :: !workers[i].pendingOrder
  }

  /** No lock is held, and no order is uncommitted. */
  ghost predicate Ready(s: State) {
    Served(s) && NonePending(s.workers) && s.g.sql.goodsLock == None && s.g.proc.rwlock == None
  }

  /** Request w runs while the others stand still. */
  function Beside(rest: map<Id, Worker>, w: Id, e: Effect): State {
    State(e.g, rest[w := e.x])
  }

  ghost predicate Runs(rest: map<Id, Worker>, w: Id, e: Effect) {
    w !in rest && NonePending(rest) && Served(Beside(rest, w, e))
  }

  lemma Enter(s: State, w: Id, usr: User, key: Key, redis: bool) returns (e: Effect)
    requires Ready(s) && w !in s.workers
    ensures Runs(s.workers, w, e) && e == Effect(Fresh(usr, key, redis), s.g)
  {
    e := Effect(Fresh(usr, key, redis), s.g);
    ServedStep(s, Arrive(w, usr, key, redis));
  }

  /** The next command of w, answered with r. */
  lemma Go(rest: map<Id, Worker>, w: Id, e: Effect, r: Reply) returns (f: Effect)
    requires Runs(rest, w, e) && Possible(e.g, e.x, r) && Answers(e.x, r)
    ensures f == Issue(e.g, w, e.x, r) && Runs(rest, w, f)
  {
    f := Issue(e.g, w, e.x, r);
    hide Issue, Served, Possible;
    assert rest[w := e.x][w := f.x] == rest[w := f.x];
    ServedStep(Beside(rest, w, e), Act(w, r));
  }

  lemma Succeed(rest: map<Id, Worker>, w: Id, e: Effect) returns (f: Effect)
    requires Runs(rest, w, e) && Possible(e.g, e.x, Ok)
    ensures f == Issue(e.g, w, e.x, Ok) && Runs(rest, w, f)
  {
    hide Issue, Runs, Possible;
    f := Go(rest, w, e, Ok);
  }

  lemma NothingPending(rest: map<Id, Worker>, w: Id, e: Effect)
    requires Runs(rest, w, e) && !Writing(e.x.pc)
    ensures e.x.pendingStock == None && !e.x.pendingOrder
  {
    ServedReachable(Beside(rest, w, e));
    ReachableWorker(Beside(rest, w, e), w);
  }

  /** w pauses, or has its answer. */
  lemma Pause(rest: map<Id, Worker>, w: Id, e: Effect) returns (s: State)
    requires Runs(rest, w, e) && !Writing(e.x.pc)
    requires e.g.sql.goodsLock == None && e.g.proc.rwlock == None
    ensures Ready(s) && s == Beside(rest, w, e)
  {
    s := Beside(rest, w, e);
    NothingPending(rest, w, e);
  }

  // ---------------------------------------------------------------- without Redis

  lemma FallbackSelects(u: User, k: Key) returns (e: Effect)
    ensures Runs(map[], 0, e) && !e.x.redis && e.x.pc.Select? && e.x.isSuc && e.x.usr == u
    ensures e.g == Initial(map[u := k]).g
  {
    ServedStart(map[u := k]);
    e := Enter(Initial(map[u := k]), 0, u, k, false);
    hide Runs, Served;
    e := Succeed(map[], 0, e);
    assert e.x.pc.CheckGot?;
    e := Succeed(map[], 0, e);
    assert e.x.pc.Begin?;
    e := Succeed(map[], 0, e);
  }

  lemma FallbackDecides(u: User, k: Key) returns (e: Effect)
    ensures Runs(map[], 0, e) && !e.x.redis && e.x.pc.Decide? && e.x.isSuc
    ensures e.g.ledger == EMPTY_LEDGER
  {
    hide Runs, Served;
    e := FallbackSelects(u, k);
    e := Succeed(map[], 0, e);
    assert e.x.pc.Update?;
    e := Succeed(map[], 0, e);
    assert e.x.pc.Insert?;
    e := Succeed(map[], 0, e);
  }

  /** One sale without a Redis connection is enough for Redis to promise more than MySQL
      holds. */
  lemma FallbackOverpromises(u: User, k: Key) returns (s: State)
    ensures Served(s) && Promised(s) > s.g.sql.stock
  {
    var e := FallbackDecides(u, k);
    e := Succeed(map[], 0, e);
    assert e.g.ledger.fallbackSales == 1;
    s := Beside(map[], 0, e);
    ServedReachable(s);
    Conservation(s);
  }

  // ---------------------------------------------------------------- with Redis

  predicate Newcomer(s: State, w: Id, u: User, k: Key) {
    w !in s.workers && u in s.g.registered && s.g.registered[u] == k && u !in s.g.redis.orderInfo
  }

  /** A request gets past the checks and watches total_count. */
  lemma Watches(s: State, w: Id, u: User, k: Key) returns (e: Effect)
    requires Ready(s) && Newcomer(s, w, u, k)
    ensures Runs(s.workers, w, e) && e.x.pc.Get? && e.g == s.g
    ensures e.x.redis && e.x.watchOk && e.x.watched == s.g.redis.version && e.x.usr == u && e.x.key == k
  {
    e := Enter(s, w, u, k, true);
    hide Runs, Ready, Served;
    e := Succeed(s.workers, w, e);
    assert e.x.pc.CheckGot?;
    e := Succeed(s.workers, w, e);
    assert e.x.pc.Watch?;
    e := Succeed(s.workers, w, e);
  }

  lemma Queues(rest: map<Id, Worker>, w: Id, e0: Effect) returns (e: Effect)
    requires Runs(rest, w, e0) && e0.x.pc.Get? && e0.x.watchOk && e0.g.redis.count > 0
    ensures Runs(rest, w, e) && e.g == e0.g
    ensures e.x.pc.Exec? && e.x.queued && e.x.watchOk
    ensures e.x.watched == e0.x.watched && e.x.usr == e0.x.usr && e.x.key == e0.x.key && e.x.redis == e0.x.redis
  {
    hide Runs, Served;
    e := Succeed(rest, w, e0);
    assert e.x.pc.Multi?;
    e := Succeed(rest, w, e);
    assert e.x.pc.Decr?;
    e := Succeed(rest, w, e);
    assert e.x.pc.Hmset?;
    e := Succeed(rest, w, e);
  }

  /** A request takes a unit in Redis. */
  lemma Reserves(s: State, w: Id, u: User, k: Key) returns (e: Effect)
    requires Ready(s) && Newcomer(s, w, u, k) && s.g.redis.count > 0
    ensures Runs(s.workers, w, e) && e.x.pc.Select? && e.x.isSuc && e.x.redis && e.x.usr == u
    ensures e.g.redis == Redis(s.g.redis.count - 1, s.g.redis.version + 1, s.g.redis.orderInfo[u := k])
    ensures e.g.sql == s.g.sql && e.g.proc == s.g.proc && e.g.registered == s.g.registered
    ensures e.g.ledger == s.g.ledger.(execs := s.g.ledger.execs + 1)
  {
    e := Watches(s, w, u, k);
    hide Runs, Ready, Served;
    e := Queues(s.workers, w, e);
    e := Succeed(s.workers, w, e);
    assert e.x.pc.Begin?;
    e := Succeed(s.workers, w, e);
  }

  lemma SelectFails(u: User, k: Key) returns (e: Effect)
    ensures Runs(map[], 0, e) && e.x.pc.Done?
    ensures e.g.sql == Sql(STOCK, map[], None) && e.g.redis.count == STOCK - 1 && e.g.proc.failed == 0
  {
    ServedStart(map[u := k]);
    e := Reserves(Initial(map[u := k]), 0, u, k);
    NothingPending(map[], 0, e);
    hide Runs, Ready, Served;
    hide Checks, WatchAndGet, Queueing, Execute, Refund, Write, Decided, Fail;
    e := Go(map[], 0, e, Error);
    assert e.x.pc.Restore?;
    e := Succeed(map[], 0, e);
  }

  /** A failed SELECT loses the unit that was taken in Redis: nobody is under way, no
      failure is counted, and Redis offers less than MySQL holds. */
  lemma SelectErrorLosesUnit(u: User, k: Key) returns (s: State)
    ensures Served(s) && Quiet(s) && s.g.sql.orders == map[] && s.g.sql.stock == STOCK
    ensures s.g.redis.count == STOCK - 1 && s.g.proc.failed == 0
  {
    var e := SelectFails(u, k);
    s := Beside(map[], 0, e);
  }

  // ---------------------------------------------------------------- a purchase that fails

  lemma UpdateFails(s: State, w: Id, u: User, k: Key) returns (e: Effect)
    requires Ready(s) && Newcomer(s, w, u, k) && s.g.redis.count > 0
    requires s.g.sql.stock > 0 && u !in s.g.sql.orders
    ensures Runs(s.workers, w, e) && e.x.pc.Decide? && !e.x.isSuc && e.x.redis
    ensures e.g.redis == Redis(s.g.redis.count - 1, s.g.redis.version + 1, s.g.redis.orderInfo[u := k])
    ensures e.g.sql == s.g.sql.(goodsLock := Some(w)) && e.g.proc == s.g.proc && e.g.registered == s.g.registered
    ensures e.g.ledger.overwritten == s.g.ledger.overwritten
  {
    assert s.g.sql.goodsLock == None;
    e := Reserves(s, w, u, k);
    hide Runs, Ready, Served;
    hide Checks, WatchAndGet, Queueing, Execute, Refund, Decided, Fail, Restored;
    e := Succeed(s.workers, w, e);
    assert e.x.pc.Update?;
    e := Go(s.workers, w, e, Error);
    assert e.x.pc.Insert?;
    e := Succeed(s.workers, w, e);
  }

  lemma RollsBack(s: State, w: Id, u: User, k: Key) returns (e: Effect)
    requires Ready(s) && Newcomer(s, w, u, k) && s.g.redis.count > 0
    requires s.g.sql.stock > 0 && u !in s.g.sql.orders
    ensures Runs(s.workers, w, e) && e.x.pc.FailLock?
    ensures e.g.redis == Redis(s.g.redis.count - 1, s.g.redis.version + 1, s.g.redis.orderInfo[u := k])
    ensures e.g.sql == s.g.sql && e.g.registered == s.g.registered && e.g.proc == s.g.proc
    ensures e.g.ledger.overwritten == s.g.ledger.overwritten
  {
    assert s.g.sql.goodsLock == None;
    e := UpdateFails(s, w, u, k);
    hide Runs, Ready, Served;
    hide Checks, WatchAndGet, Queueing, Execute, Refund, Selected, Write, Fail, Restored;
    e := Succeed(s.workers, w, e);
  }

  lemma Counts(rest: map<Id, Worker>, w: Id, e0: Effect) returns (e: Effect)
    requires Runs(rest, w, e0) && e0.x.pc.FailLock? && e0.g.proc.rwlock == None
    ensures Runs(rest, w, e) && e.x.pc.FailUnlock?
    ensures e.g.redis == e0.g.redis && e.g.sql == e0.g.sql && e.g.registered == e0.g.registered
    ensures e.g.proc == e0.g.proc.(failed := e0.g.proc.failed + 1, rwlock := Some(w))
    ensures e.g.ledger.overwritten == e0.g.ledger.overwritten
  {
    hide Runs, Served;
    hide Checks, WatchAndGet, Queueing, Execute, Refund, Selected, Write, Decided, Restored;
    e := Succeed(rest, w, e0);
    assert e.x.pc.FailInc?;
    e := Succeed(rest, w, e);
  }

  /** A purchase that fails in MySQL and is counted: its user is in the index of Redis
      afterwards, without an order. */
  lemma Fails(s: State, w: Id, u: User, k: Key) returns (t: State)
    requires Ready(s) && Newcomer(s, w, u, k) && s.g.redis.count > 0
    requires s.g.sql.stock > 0 && u !in s.g.sql.orders
    ensures Ready(t) && w in t.workers && t.workers == s.workers[w := t.workers[w]] && t.workers[w].pc.Done?
    ensures t.g.redis.count == s.g.redis.count - 1 && t.g.redis.orderInfo == s.g.redis.orderInfo[u := k]
    ensures t.g.sql == s.g.sql && t.g.registered == s.g.registered
    ensures t.g.proc == s.g.proc.(failed := s.g.proc.failed + 1)
    ensures t.g.ledger.overwritten == s.g.ledger.overwritten
  {
    assert s.g.sql.goodsLock == None && s.g.proc.rwlock == None;
    var e := RollsBack(s, w, u, k);
    e := Counts(s.workers, w, e);
    e := Settles(s.workers, w, e);
    t := Pause(s.workers, w, e);
  }

  lemma Settles(rest: map<Id, Worker>, w: Id, e0: Effect) returns (e: Effect)
    requires Runs(rest, w, e0) && e0.x.pc.FailUnlock? && e0.g.sql.goodsLock == None
    ensures Runs(rest, w, e) && e.x.pc.Done? && e.g == e0.g.(proc := e0.g.proc.(rwlock := None))
  {
    NothingPending(rest, w, e0);
    hide Runs, Served;
    hide Checks, WatchAndGet, Queueing, Execute, Refund, Selected, Write, Decided;
    e := Succeed(rest, w, e0);
    assert e.x.pc.Restore?;
    e := Succeed(rest, w, e);
  }

  /** A user whose only purchase failed, in the index without an order. */
  lemma FailedUserStaysIndexed(u: User, k: Key) returns (s: State)
    ensures Served(s) && Quiet(s) && u in s.g.redis.orderInfo && u !in s.g.sql.orders
  {
    ServedStart(map[u := k]);
    s := Fails(Initial(map[u := k]), 0, u, k);
  }

  // ---------------------------------------------------------------- a refund too many

  predicate Different(us: seq<User>) {
    forall i, j | 0 <= i < j < |us| :: us[i] != us[j]
  }

  function Registered(us: seq<User>, k: Key): map<User, Key> {
    map u | u in us :: k
  }

  predicate AllDoneBut(workers: map<Id, Worker>, w: Id) {
    forall i | i in workers && i != w :: workers[i].pc.Done?
  }

  /** The stage of the run: nobody has bought, and only the first n users are indexed. */
  predicate Stage(s: State, us: seq<User>, k: Key, n: nat)
    requires n <= |us|
  {
    && s.g.registered == Registered(us, k) && s.g.sql == Sql(STOCK, map[], None)
    && (forall i | i in s.workers :: i < n)
    && (forall i | n <= i < |us| :: us[i] !in s.g.redis.orderInfo)
  }

  /** One request after the other takes a unit and fails in MySQL. */
  lemma {:induction false} AllFail(us: seq<User>, k: Key, n: nat) returns (s: State)
    requires Different(us) && n <= |us| && n <= STOCK
    ensures Ready(s) && Stage(s, us, k, n) && AllDoneBut(s.workers, STOCK)
    ensures s.g.redis.count == STOCK - n && s.g.proc.failed == n && s.g.ledger.overwritten == 0
  {
    if n == 0 {
      s := Initial(Registered(us, k));
      ServedStart(Registered(us, k));
    } else {
      s := AllFail(us, k, n - 1);
      assert us[n - 1] in us;
      hide Ready;
      s := Fails(s, n - 1, us[n - 1], k);
    }
  }

  /** A request reads that nothing is left, and waits for the process lock. */
  lemma SeesNothing(s: State, w: Id, u: User, k: Key) returns (e: Effect)
    requires Ready(s) && Newcomer(s, w, u, k) && s.g.redis.count == 0
    ensures Runs(s.workers, w, e) && e.x.pc.RefundLock? && e.x.redis && e.g == s.g
  {
    e := Watches(s, w, u, k);
    hide Runs, Ready, Served;
    e := Succeed(s.workers, w, e);
    assert e.x.pc.SoldOut?;
    e := Succeed(s.workers, w, e);
  }

  /** It gets the lock and refunds what was counted by then. */
  lemma Refunds(rest: map<Id, Worker>, w: Id, e0: Effect) returns (e: Effect)
    requires Runs(rest, w, e0) && e0.x.pc.RefundLock? && e0.x.redis
    requires e0.g.proc.rwlock == None && e0.g.proc.failed > 0
    ensures Runs(rest, w, e) && e.x.pc.Done?
    ensures e.g.redis.count == e0.g.proc.failed && e.g.redis.orderInfo == e0.g.redis.orderInfo
    ensures e.g.proc == e0.g.proc.(failed := 0) && e.g.sql == e0.g.sql && e.g.registered == e0.g.registered
    ensures e.g.ledger.overwritten == e0.g.ledger.overwritten + e0.g.redis.count
  {
    hide Runs, Served;
    e := Succeed(rest, w, e0);
    assert e.x.pc.RefundSet?;
    e := Succeed(rest, w, e);
    assert e.x.pc.RefundZero?;
    e := Succeed(rest, w, e);
    assert e.x.pc.RefundUnlock?;
    e := Succeed(rest, w, e);
  }

  /** Two requests see nothing left; the second refunds all fifty failures at once. */
  lemma SecondRefunds(us: seq<User>, k: Key) returns (s: State)
    requires Different(us) && |us| == STOCK + 3
    ensures Ready(s) && Stage(s, us, k, STOCK + 2)
    ensures s.g.redis.count == STOCK && s.g.proc.failed == 0 && s.g.ledger.overwritten == 0
    ensures STOCK in s.workers && AllDoneBut(s.workers, STOCK)
    ensures s.workers[STOCK].pc.RefundLock? && s.workers[STOCK].redis
  {
    s := AllFail(us, k, STOCK);
    assert us[STOCK] in us && us[STOCK + 1] in us;
    var e := SeesNothing(s, STOCK, us[STOCK], k);
    s := Pause(s.workers, STOCK, e);
    assert s.g.proc.rwlock == None && s.g.sql.goodsLock == None;
    hide Ready, Runs, Served;
    var f := SeesNothing(s, STOCK + 1, us[STOCK + 1], k);
    f := Refunds(s.workers, STOCK + 1, f);
    s := Pause(s.workers, STOCK + 1, f);
  }

  /** A request that paused goes on. */
  lemma Resume(s: State, w: Id) returns (e: Effect)
    requires Ready(s) && w in s.workers
    ensures e == Effect(s.workers[w], s.g) && Runs(s.workers - {w}, w, e)
  {
    e := Effect(s.workers[w], s.g);
    assert (s.workers - {w})[w := e.x] == s.workers;
  }

  /** A refund writes over what is on sale, although Redis answers every command: a request
      read that nothing was left, but gets the lock only after another has put fifty units
      back and one more purchase has failed. It turns 49 units on sale into 1. */
  lemma RefundLosesUnits(us: seq<User>, k: Key) returns (s: State)
    requires Different(us) && |us| == STOCK + 3
    ensures Served(s) && Quiet(s) && s.g.sql.orders == map[] && s.g.sql.stock == STOCK
    ensures s.g.redis.count == 1 && s.g.proc.failed == 0 && s.g.ledger.overwritten == STOCK - 1
  {
    s := SecondRefunds(us, k);
    assert us[STOCK + 2] in us;
    s := Fails(s, STOCK + 2, us[STOCK + 2], k);
    var e := Resume(s, STOCK);
    e := Refunds(s.workers - {STOCK}, STOCK, e);
    s := Beside(s.workers - {STOCK}, STOCK, e);
  }

  // ---------------------------------------------------------------- twenty rounds

  /** A request between two rounds, n of which are over; after 20 it has given up. */
  ghost predicate Between(e: Effect, n: nat) {
    && Reachable(Beside(map[], 0, e)) && e.x.redis && e.x.round == n
    && (if n < 20 then e.x.pc.Watch? else e.x.pc.Done? && e.x.answer == Zero)
    && e.g.redis.count > 0
  }

  lemma Proceeds(e: Effect, r: Reply) returns (f: Effect)
    requires Reachable(Beside(map[], 0, e)) && Possible(e.g, e.x, r)
    ensures f == Issue(e.g, 0, e.x, r) && Reachable(Beside(map[], 0, f))
  {
    f := Issue(e.g, 0, e.x, r);
    hide Issue, Reachable, Possible;
    assert map[0 := e.x][0 := f.x] == map[0 := f.x];
    ReachStep(Beside(map[], 0, e), Act(0, r));
  }

  lemma StartsRounds(u: User, k: Key) returns (e: Effect)
    ensures Between(e, 0)
  {
    var s := Initial(map[u := k]);
    ReachStart(map[u := k]);
    e := Effect(Fresh(u, k, true), s.g);
    ReachStep(s, Arrive(0, u, k, true));
    hide Reachable;
    e := Proceeds(e, Ok);
    assert e.x.pc.CheckGot?;
    e := Proceeds(e, Ok);
  }

  /** MULTI fails: the round is over. */
  lemma LosesRound(e0: Effect, n: nat) returns (e: Effect)
    requires Between(e0, n) && n < 20
    ensures Between(e, n + 1)
  {
    hide Reachable;
    e := Proceeds(e0, Ok);
    assert e.x.pc.Get?;
    e := Proceeds(e, Ok);
    assert e.x.pc.Multi?;
    e := Proceeds(e, Error);
    assert e.x.pc.Unwatch?;
    e := Proceeds(e, Ok);
  }

  lemma {:induction false} Rounds(u: User, k: Key, n: nat) returns (e: Effect)
    requires n <= 20
    ensures Between(e, n)
  {
    if n == 0 {
      e := StartsRounds(u, k);
    } else {
      e := Rounds(u, k, n - 1);
      e := LosesRound(e, n - 1);
    }
  }

  /** The bound on rounds is reached: a run in which one request issues exactly 20 WATCHes,
      and then gives up with "0". */
  lemma TwentyRounds(u: User, k: Key) returns (registered: map<User, Key>, es: seq<Event>)
    ensures Legal(Initial(registered), es)
    ensures IssuedAt(Initial(registered), es, 0, Watch) == 20
    ensures var t := After(Initial(registered), es);
            0 in t.workers && t.workers[0].pc.Done? && t.workers[0].answer == Zero
  {
    var e := Rounds(u, k, 20);
    var s := Beside(map[], 0, e);
    registered, es :| Legal(Initial(registered), es) && After(Initial(registered), es) == s;
    RunSpends(registered, es, 0);
  }
}
