/** What the purchase protocol guarantees, in every reachable state and over every run. */
module PurchaseTheorems {
  import opened Base
  import opened Purchase
  import opened PurchaseInvariant

  // ---------------------------------------------------------------- runs

  /** Every request that arrives has a Redis connection. */
  predicate AllRedis(es: seq<Event>) {
    forall e | e in es && e.Arrive? :: e.redis
  }

  ghost predicate ReachableInRedis(s: State) {
    exists registered, es ::
      Legal(Initial(registered), es) && AllRedis(es) && After(Initial(registered), es) == s
  }

  lemma RunSnoc(s: State, es: seq<Event>, e: Event)
    requires Legal(s, es) && Enabled(After(s, es), e)
    ensures Legal(s, es + [e]) && After(s, es + [e]) == Apply(After(s, es), e)
  {
    assert (es + [e])[..|es|] == es;
  }

  lemma {:induction false} RunAppend(s: State, es: seq<Event>, fs: seq<Event>)
    requires Legal(s, es) && Legal(After(s, es), fs)
    ensures Legal(s, es + fs) && After(s, es + fs) == After(After(s, es), fs)
    decreases |fs|
  {
    if fs == [] {
      assert es + fs == es;
    } else {
      var n := |fs| - 1;
      RunAppend(s, es, fs[..n]);
      RunSnoc(s, es + fs[..n], fs[n]);
      assert es + fs == es + fs[..n] + [fs[n]];
    }
  }

  /** No request fell back, and nothing was booked for one that did. */
  predicate NoFallback(s: State) {
    && (forall i | i in s.workers :: s.workers[i].redis)
    && s.g.ledger.fallbackSales == 0 && s.g.ledger.fallbackFails == 0
  }

  lemma IssueInRedis(g: Shared, w: Id, x: Worker, r: Reply)
    requires x.redis && Possible(g, x, r)
    ensures Issue(g, w, x, r).g.ledger.fallbackSales == g.ledger.fallbackSales
    ensures Issue(g, w, x, r).g.ledger.fallbackFails == g.ledger.fallbackFails
  {
  }

  lemma {:induction false} RedisRun(registered: map<User, Key>, es: seq<Event>)
    requires Legal(Initial(registered), es) && AllRedis(es)
    ensures NoFallback(After(Initial(registered), es))
    decreases |es|
  {
    if es != [] {
      var n := |es| - 1;
      RedisRun(registered, es[..n]);
      RunKeepsInv(registered, es[..n]);
      var s := After(Initial(registered), es[..n]);
      if es[n].Act? {
        var x := s.workers[es[n].w];
        assert WorkerInv(s.g, es[n].w, x);
        IssueInRedis(s.g, es[n].w, x, es[n].reply);
        IssueAccounts(s.g, es[n].w, x, es[n].reply);
      } else {
        assert es[n] in es;
      }
    }
  }

  lemma InRedisOnly(s: State)
    requires ReachableInRedis(s)
    ensures Inv(s) && NoFallback(s)
  {
    var registered, es :| Legal(Initial(registered), es) && AllRedis(es) && After(Initial(registered), es) == s;
    RedisRun(registered, es);
    RunKeepsInv(registered, es);
  }

  lemma ReachableBooks(s: State)
    requires Reachable(s)
    ensures StoresInv(s.g) && BooksInv(s)
    ensures ReachableInRedis(s) ==> s.g.ledger.fallbackSales == 0 && s.g.ledger.fallbackFails == 0
  {
    ReachableInv(s);
    if ReachableInRedis(s) { InRedisOnly(s); }
  }

  lemma ReachableWorker(s: State, i: Id)
    requires Reachable(s) && i in s.workers
    ensures WorkerInv(s.g, i, s.workers[i])
  {
    ReachableInv(s);
  }

  lemma ReachableOwners(s: State)
    requires Reachable(s)
    ensures OwnersInv(s)
  {
    ReachableInv(s);
  }

  lemma RedisIsReachable(s: State)
    requires ReachableInRedis(s)
    ensures Reachable(s)
  {
  }

  // ---------------------------------------------------------------- Redis against MySQL

  /** What Redis still promises: on sale, to be put back on sale, or taken and undecided. */
  function Promised(s: State): int {
    s.g.redis.count + Refundable(s) + UnitsInFlight(s)
  }

  /** Exact conservation in all runs, with or without Redis connections: Redis promises the
      committed stock, plus a unit for each sale and each counted failure that bypassed
      Redis, less what refunds wrote over and what was dropped on a failed SELECT. */
  lemma Conservation(s: State)
    requires Reachable(s)
    ensures var l := s.g.ledger;
            Promised(s) + l.overwritten + l.dropped == s.g.sql.stock + l.fallbackSales + l.fallbackFails
    ensures s.g.redis.count >= 0 && s.g.proc.failed >= 0 && s.g.ledger.overwritten >= 0
  {
    ReachableBooks(s);
  }

  /** With Redis available to every request, Redis never promises more than MySQL holds,
      and the difference is exactly what was overwritten or dropped. */
  lemma RedisNeverOverpromises(s: State)
    requires ReachableInRedis(s)
    ensures Promised(s) == s.g.sql.stock - s.g.ledger.overwritten - s.g.ledger.dropped
    ensures 0 <= s.g.redis.count && 0 <= Refundable(s) && Promised(s) <= s.g.sql.stock <= STOCK
  {
    RedisIsReachable(s);
    ReachableBooks(s);
  }

  /** The guard of EXEC keeps total_count from going below zero, and over the whole run no
      more units are taken than were there or were given back after a rollback. */
  lemma ExecsBounded(s: State)
    requires Reachable(s)
    ensures s.g.redis.count >= 0
    ensures s.g.ledger.execs <= STOCK + s.g.ledger.redisFails + s.g.ledger.fallbackFails
  {
    ReachableBooks(s);
  }

  /** EXEC that succeeds takes a unit that is there: the value read is the current one. */
  lemma ExecReadsCurrent(s: State, w: Id)
    requires Reachable(s) && CanAct(s, w, Ok) && s.workers[w].pc.Exec?
    ensures s.g.redis.count == s.workers[w].read > 0
    ensures Command(s, w, Ok).g.redis.count == s.workers[w].read - 1 >= 0
  {
    ReachableInv(s);
    assert WorkerInv(s.g, w, s.workers[w]);
  }

  lemma ReservedStock(s: State, w: Id)
    requires ReachableInRedis(s) && w in s.workers && s.workers[w].pc.Select?
    ensures s.workers[w].redis && s.g.sql.stock > 0
  {
    InRedisOnly(s);
    CountIfPositive(s.workers, w, InFlight);
    RedisNeverOverpromises(s);
  }

  /** With Redis available to every request, one whose EXEC succeeded finds stock in MySQL:
      only a failed SELECT makes it give up. */
  lemma ReservedFindsStock(s: State, w: Id, r: Reply)
    requires ReachableInRedis(s) && CanAct(s, w, r) && s.workers[w].pc.Select?
    ensures s.g.sql.stock > 0
    ensures Command(s, w, r).workers[w].pc.Update? <==> r == Ok
    ensures Command(s, w, r).g.ledger.dropped > s.g.ledger.dropped <==> r != Ok
  {
    ReservedStock(s, w);
  }

  // ---------------------------------------------------------------- answers

  /** At most STOCK requests are told "1"; each owns the one order row of its user, placed
      with the registered key; and no user is told "1" twice. */
  lemma AnswersAreOrders(s: State)
    requires Reachable(s)
    ensures CountIf(s.workers, Won) == |s.g.sql.orders| == STOCK - s.g.sql.stock <= STOCK
    ensures forall i | i in s.workers && Won(s.workers[i]) ::
              var x := s.workers[i];
              x.usr in s.g.sql.orders && s.g.sql.orders[x.usr] == x.key && Entitled(s.g, x)
    ensures forall i, j | i in s.workers && j in s.workers && Won(s.workers[i]) && Won(s.workers[j]) ::
              s.workers[i].usr == s.workers[j].usr ==> i == j
    ensures forall u | u in s.g.sql.orders ::
              exists i :: i in s.workers && Won(s.workers[i]) && s.workers[i].usr == u
  {
    ReachableInv(s);
    forall i | i in s.workers && Won(s.workers[i])
      ensures SoldTo(s.g, s.workers[i].usr, i)
      ensures s.workers[i].usr in s.g.sql.orders && s.g.sql.orders[s.workers[i].usr] == s.workers[i].key
    {
      assert WorkerInv(s.g, i, s.workers[i]);
    }
  }

  /** The fast duplicate index: every order placed through Redis is in Redis order_info,
      under the registered key; with Redis available to every request, all orders are. */
  lemma IndexCoversOrders(s: State)
    requires Reachable(s)
    ensures forall i | i in s.workers && Won(s.workers[i]) && s.workers[i].redis ::
              s.workers[i].usr in s.g.redis.orderInfo &&
              s.g.redis.orderInfo[s.workers[i].usr] == s.workers[i].key
    ensures ReachableInRedis(s) ==>
              forall u | u in s.g.sql.orders ::
                u in s.g.redis.orderInfo && s.g.redis.orderInfo[u] == s.g.sql.orders[u]
  {
    ReachableInv(s);
    forall i | i in s.workers && Won(s.workers[i]) && s.workers[i].redis
      ensures s.workers[i].usr in s.g.redis.orderInfo &&
              s.g.redis.orderInfo[s.workers[i].usr] == s.workers[i].key
    {
      assert WorkerInv(s.g, i, s.workers[i]);
    }
    if ReachableInRedis(s) { InRedisOnly(s); }
  }

  // ---------------------------------------------------------------- quiescence

  predicate Quiet(s: State) {
    forall i | i in s.workers :: s.workers[i].pc.Done?
  }

  lemma NoneCounted<K, V>(m: map<K, V>, p: V -> bool)
    requires forall k | k in m :: !p(m[k])
    ensures CountIf(m, p) == 0
  {
    assert Keys(m, p) == {};
  }

  lemma QuietIsUnlocked(s: State)
    requires Reachable(s) && Quiet(s)
    ensures s.g.sql.goodsLock == None && s.g.proc.rwlock == None
  {
    ReachableOwners(s);
    if s.g.sql.goodsLock.Some? { ReachableWorker(s, s.g.sql.goodsLock.value); }
    if s.g.proc.rwlock.Some? { ReachableWorker(s, s.g.proc.rwlock.value); }
  }

  /** When every request has its answer, no lock is held, *successNum_ is the number of
      orders, and every unit is accounted for. */
  lemma QuietBooks(s: State)
    requires Reachable(s) && Quiet(s)
    ensures s.g.sql.goodsLock == None && s.g.proc.rwlock == None
    ensures s.g.proc.success == CountIf(s.workers, Won) == |s.g.sql.orders| == STOCK - s.g.sql.stock
    ensures var l := s.g.ledger;
            && s.g.redis.count + s.g.proc.failed + l.overwritten + l.dropped
               == s.g.sql.stock + l.fallbackSales + l.fallbackFails
            && l.execs == l.redisSales + l.redisFails + l.dropped
  {
    QuietIsUnlocked(s);
    ReachableBooks(s);
    NoneCounted(s.workers, InFlight);
    NoneCounted(s.workers, Refunding);
    CountIfMonotone(s.workers, Won, Counted);
    CountIfMonotone(s.workers, Counted, Won);
  }

  // ---------------------------------------------------------------- what can go wrong

  /** Where the promise of Redis exceeds the stock of MySQL: exactly when more sales and
      counted failures bypassed Redis than were overwritten or dropped. */
  lemma OverpromiseIff(s: State)
    requires Reachable(s)
    ensures var l := s.g.ledger;
            Promised(s) <= s.g.sql.stock <==> l.fallbackSales + l.fallbackFails <= l.overwritten + l.dropped
  {
    Conservation(s);
  }

  lemma ReachStart(registered: map<User, Key>)
    ensures Reachable(Initial(registered))
  {
    assert Legal(Initial(registered), []) && After(Initial(registered), []) == Initial(registered);
  }

  lemma ReachStep(s: State, e: Event)
    requires Reachable(s) && Enabled(s, e)
    ensures Reachable(Apply(s, e))
  {
    var registered, es :| Legal(Initial(registered), es) && After(Initial(registered), es) == s;
    RunSnoc(Initial(registered), es, e);
  }

  // ---------------------------------------------------------------- where units go astray

  /** A refund that finds units on sale, and a SELECT that fails or finds no stock after a
      unit was taken in Redis. */
  predicate Loses(g: Shared, x: Worker, r: Reply) {
    || (x.pc.RefundSet? && r == Ok && g.proc.failed > 0 && g.redis.count > 0)
    || (x.pc.Select? && x.redis && (r != Ok || g.sql.stock == 0))
  }

  /** A sale, or a counted failure, that took no unit in Redis. */
  predicate Gains(x: Worker) {
    !x.redis && ((x.pc.Decide? && x.isSuc) || x.pc.FailInc?)
  }

  /** What a command adds to the losses and to the gains. */
  predicate Strays(g: Shared, x: Worker, r: Reply, m: Ledger) {
    && (Loses(g, x, r) <==> m.overwritten + m.dropped > g.ledger.overwritten + g.ledger.dropped)
    && (!Loses(g, x, r) ==> m.overwritten + m.dropped == g.ledger.overwritten + g.ledger.dropped)
    && (Gains(x) <==> m.fallbackSales + m.fallbackFails > g.ledger.fallbackSales + g.ledger.fallbackFails)
    && (!Gains(x) ==> m.fallbackSales + m.fallbackFails == g.ledger.fallbackSales + g.ledger.fallbackFails)
  }

  lemma RefundStrays(g: Shared, w: Id, x: Worker, r: Reply)
    requires x.pc.RefundSet? && g.redis.count >= 0
    ensures Strays(g, x, r, Refund(g, w, x, r).g.ledger)
  {
  }

  lemma SelectStrays(g: Shared, w: Id, x: Worker, r: Reply)
    requires x.pc.Select? && g.sql.stock >= 0
    ensures Strays(g, x, r, Selected(g, w, x, r).g.ledger)
  {
  }

  lemma SettleStrays(g: Shared, w: Id, x: Worker, r: Reply)
    requires Possible(g, x, r) && (x.pc.Decide? || x.pc.FailInc?)
    ensures Strays(g, x, r, Issue(g, w, x, r).g.ledger)
  {
  }

  lemma OthersBookNothing(g: Shared, w: Id, x: Worker, r: Reply)
    requires Possible(g, x, r)
    requires !(x.pc.RefundSet? || x.pc.Select? || x.pc.Decide? || x.pc.FailInc? || x.pc.Exec?)
    ensures Issue(g, w, x, r).g.ledger == g.ledger
  {
  }

  lemma Astray(g: Shared, w: Id, x: Worker, r: Reply)
    requires Possible(g, x, r) && g.redis.count >= 0 && g.sql.stock >= 0
    ensures Strays(g, x, r, Issue(g, w, x, r).g.ledger)
  {
    if x.pc.RefundSet? { RefundStrays(g, w, x, r); }
    else if x.pc.Select? { SelectStrays(g, w, x, r); }
    else if x.pc.Decide? || x.pc.FailInc? { SettleStrays(g, w, x, r); }
    else if !x.pc.Exec? { OthersBookNothing(g, w, x, r); }
  }

  /** How far Redis promises more than MySQL holds. */
  function Surplus(s: State): int {
    Promised(s) - s.g.sql.stock
  }

  /** Failures are put back on sale without loss except by exactly these commands; and only
      requests without Redis make it promise more. */
  lemma SurplusMovesIff(s: State, w: Id, r: Reply)
    requires Reachable(s) && CanAct(s, w, r)
    ensures Surplus(Command(s, w, r)) < Surplus(s) <==> Loses(s.g, s.workers[w], r)
    ensures Surplus(Command(s, w, r)) > Surplus(s) <==> Gains(s.workers[w])
  {
    ReachableBooks(s);
    Conservation(s);
    ReachStep(s, Act(w, r));
    Conservation(Apply(s, Act(w, r)));
    ReachableWorker(s, w);
    Astray(s.g, w, s.workers[w], r);
    assert !(Loses(s.g, s.workers[w], r) && Gains(s.workers[w]));
  }

  // ---------------------------------------------------------------- the branches of a round

  /** After GET a request buys exactly if WATCH succeeded and units were read; it is over
      with "0" exactly if WATCH failed or GET got no reply; and it refunds otherwise, when no
      unit is left or GET was answered with an error. */
  lemma AfterGetIff(s: State, w: Id, r: Reply)
    requires Reachable(s) && CanAct(s, w, r) && s.workers[w].pc.Get?
    ensures var x, y := s.workers[w], Command(s, w, r).workers[w];
            && (y.pc.Multi? <==> x.watchOk && r == Ok && s.g.redis.count >= 1)
            && (y.pc.Done? && y.answer == Zero <==> !x.watchOk || r == Null)
            && (y.pc.SoldOut? <==> x.watchOk && ((r == Ok && s.g.redis.count == 0) || r == Error || r == Abort))
  {
    ReachableBooks(s);
  }

  /** After a lost round there is another exactly if fewer than 20 were begun. */
  lemma AfterRoundIff(s: State, w: Id, r: Reply)
    requires Reachable(s) && CanAct(s, w, r) && s.workers[w].pc.Unwatch?
    ensures var x, y := s.workers[w], Command(s, w, r).workers[w];
            && (y.pc.Watch? <==> x.round < 20)
            && (y.pc.Done? && y.answer == Zero <==> x.round == 20)
  {
    ReachableWorker(s, w);
  }

  /** A refund puts on sale exactly the failures counted by then, if there are any and SET
      succeeds, and the counter is zeroed next; otherwise nothing is changed. */
  lemma RefundIff(s: State, w: Id, r: Reply)
    requires Reachable(s) && CanAct(s, w, r) && s.workers[w].pc.RefundSet?
    ensures var t := Command(s, w, r);
            && (t.workers[w].pc.RefundZero? <==> r == Ok && s.g.proc.failed >= 1)
            && (t.workers[w].pc.RefundZero? ==> t.g.redis.count == s.g.proc.failed)
            && (t.workers[w].pc.RefundUnlock? ==> t.g == s.g)
            && (t.workers[w].pc.RefundZero? || t.workers[w].pc.RefundUnlock?)
  {
  }
}
