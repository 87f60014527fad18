/** The fast duplicate index order_info in Redis: whose names it holds, and when it turns
    away a user who has no order. */
module PurchaseIndex {
  import opened Base
  import opened Purchase
  import opened PurchaseInvariant
  import opened PurchaseTheorems

  /** A unit was taken in Redis for x, whatever became of it. */
  predicate Took(x: Worker) {
    x.redis && (InSql(x.pc) || x.txns > 0)
  }

  /** What is in MySQL has begun a transaction, or is about to. */
  predicate Begun(x: Worker) {
    InSql(x.pc) && !x.pc.Begin? ==> x.txns > 0
  }

  predicate TookFor(s: State, u: User) {
    exists i :: i in s.workers && Took(s.workers[i]) && s.workers[i].usr == u
  }

  predicate WonFor(s: State, u: User) {
    exists i :: i in s.workers && Won(s.workers[i]) && s.workers[i].usr == u
  }

  ghost predicate IndexInv(s: State) {
    && (forall i | i in s.workers :: Begun(s.workers[i]))
    && (forall u :: u in s.g.redis.orderInfo <==> TookFor(s, u))
  }

  // ---------------------------------------------------------------- one command

  /** The command that writes to the index. */
  predicate Enters(x: Worker, r: Reply) {
    x.pc.Exec? && r == Ok
  }

  /** A command leaves the index alone and takes no unit, unless it is an EXEC that
      succeeds: that one enters its user, and takes the unit. */
  predicate IndexStep(g: Shared, x: Worker, r: Reply, e: Effect) {
    && e.g.redis.orderInfo == (if Enters(x, r) then g.redis.orderInfo[x.usr := x.key] else g.redis.orderInfo)
    && (Took(e.x) <==> Took(x) || Enters(x, r))
    && Begun(e.x)
  }

  lemma ChecksIndexStep(g: Shared, x: Worker, r: Reply)
    requires x.txns == 0 && Checking(x.pc)
    ensures IndexStep(g, x, r, Effect(Checks(g, x, r), g))
  {
  }

  lemma WatchIndexStep(g: Shared, x: Worker, r: Reply)
    requires x.txns == 0 && (x.pc.Watch? || x.pc.Get?)
    ensures IndexStep(g, x, r, Effect(WatchAndGet(g, x, r), g))
  {
  }

  lemma QueueingIndexStep(g: Shared, x: Worker, r: Reply)
    requires x.txns == 0 && (x.pc.Multi? || x.pc.Decr? || x.pc.Hmset? || x.pc.Unwatch?)
    ensures IndexStep(g, x, r, Effect(Queueing(x, r), g))
  {
  }

  lemma PrivateIndexStep(g: Shared, w: Id, x: Worker, r: Reply)
    requires LifeInv(g, w, x) && Begun(x) && Private(x.pc) && Possible(g, x, r)
    ensures IndexStep(g, x, r, Issue(g, w, x, r))
  {
    if x.pc.Begin? { return; }
    assert x.txns == 0;
    hide IndexStep, LifeInv;
    if Checking(x.pc) { ChecksIndexStep(g, x, r); }
    else if x.pc.Watch? || x.pc.Get? { WatchIndexStep(g, x, r); }
    else { QueueingIndexStep(g, x, r); }
  }

  lemma RefundIndexStep(g: Shared, w: Id, x: Worker, r: Reply)
    requires x.txns == 0
    requires x.pc.SoldOut? || x.pc.RefundLock? || x.pc.RefundSet? || x.pc.RefundZero? || x.pc.RefundUnlock?
    ensures IndexStep(g, x, r, Refund(g, w, x, r))
  {
  }

  lemma WriteIndexStep(g: Shared, w: Id, x: Worker, r: Reply)
    requires Begun(x) && (x.pc.Update? || x.pc.Insert?)
    ensures IndexStep(g, x, r, Write(g, w, x, r))
  {
  }

  lemma SelectIndexStep(g: Shared, w: Id, x: Worker, r: Reply)
    requires Begun(x) && x.pc.Select?
    ensures IndexStep(g, x, r, Selected(g, w, x, r))
  {
  }

  lemma DecideIndexStep(g: Shared, w: Id, x: Worker, r: Reply)
    requires Begun(x) && (x.pc.Decide? || x.pc.Restore?)
    ensures x.pc.Decide? ==> IndexStep(g, x, r, Decided(g, w, x))
    ensures x.pc.Restore? ==> IndexStep(g, x, r, Restored(g, w, x))
  {
  }

  lemma FailIndexStep(g: Shared, w: Id, x: Worker, r: Reply)
    requires Begun(x) && (x.pc.FailLock? || x.pc.FailInc? || x.pc.FailUnlock?)
    ensures IndexStep(g, x, r, Fail(g, w, x))
  {
  }

  lemma SqlIndexStep(g: Shared, w: Id, x: Worker, r: Reply)
    requires Begun(x) && Possible(g, x, r) && InSql(x.pc) && !x.pc.Begin?
    ensures IndexStep(g, x, r, Issue(g, w, x, r))
  {
    if x.pc.CountSale? { return; }
    hide IndexStep, Begun;
    if x.pc.Update? || x.pc.Insert? { WriteIndexStep(g, w, x, r); }
    else if x.pc.Select? { SelectIndexStep(g, w, x, r); }
    else if x.pc.Decide? || x.pc.Restore? { DecideIndexStep(g, w, x, r); }
    else { FailIndexStep(g, w, x, r); }
  }

  lemma IssueIndexStep(g: Shared, w: Id, x: Worker, r: Reply)
    requires WorkerInv(g, w, x) && Begun(x) && Possible(g, x, r)
    ensures IndexStep(g, x, r, Issue(g, w, x, r))
  {
    if Private(x.pc) { PrivateIndexStep(g, w, x, r); }
    else if x.pc.Exec? { assert Issue(g, w, x, r) == Execute(g, x, r); }
    else if InRedis(x.pc) { RefundIndexStep(g, w, x, r); }
    else { SqlIndexStep(g, w, x, r); }
  }

  // ---------------------------------------------------------------- every run

  lemma CommandKeepsIndex(s: State, w: Id, r: Reply)
    requires IndexInv(s) && CanAct(s, w, r) && WorkerInv(s.g, w, s.workers[w])
    ensures IndexInv(Command(s, w, r))
  {
    var x := s.workers[w];
    var t := Command(s, w, r);
    var y := t.workers[w];
    IssueIndexStep(s.g, w, x, r);
    IssueAccounts(s.g, w, x, r);
    assert OwnDeeds(s.g, w, x, Issue(s.g, w, x, r));
    hide Issue, WorkerInv, Took, Accounts;
    forall u ensures u in t.g.redis.orderInfo <==> TookFor(t, u) {
      if TookFor(s, u) {
        var i :| i in s.workers && Took(s.workers[i]) && s.workers[i].usr == u;
        assert i in t.workers && Took(t.workers[i]) && t.workers[i].usr == u;
      }
      if TookFor(t, u) {
        var i :| i in t.workers && Took(t.workers[i]) && t.workers[i].usr == u;
        assert i != w ==> i in s.workers && Took(s.workers[i]) && s.workers[i].usr == u;
      }
      if Enters(x, r) && u == x.usr {
        assert w in t.workers && Took(t.workers[w]) && t.workers[w].usr == u;
      }
    }
  }

  lemma ArriveKeepsIndex(s: State, w: Id, x: Worker)
    requires IndexInv(s) && w !in s.workers && !Took(x) && Begun(x)
    ensures IndexInv(s.(workers := s.workers[w := x]))
  {
    var t := s.(workers := s.workers[w := x]);
    forall u ensures TookFor(t, u) <==> TookFor(s, u) {
      if TookFor(s, u) {
        var i :| i in s.workers && Took(s.workers[i]) && s.workers[i].usr == u;
        assert i in t.workers && Took(t.workers[i]) && t.workers[i].usr == u;
      }
      if TookFor(t, u) {
        var i :| i in t.workers && Took(t.workers[i]) && t.workers[i].usr == u;
        assert i in s.workers && Took(s.workers[i]) && s.workers[i].usr == u;
      }
    }
  }

  lemma StepKeepsIndex(s: State, e: Event)
    requires Inv(s) && IndexInv(s) && Enabled(s, e)
    ensures IndexInv(Apply(s, e))
  {
    match e
    case Arrive(w, usr, key, redis) => ArriveKeepsIndex(s, w, Fresh(usr, key, redis));
    case Act(w, r) =>
      assert WorkerInv(s.g, w, s.workers[w]);
      hide Inv, IndexInv, WorkerInv;
      CommandKeepsIndex(s, w, r);
  }

  lemma {:induction false} RunKeepsIndex(registered: map<User, Key>, es: seq<Event>)
    requires Legal(Initial(registered), es)
    ensures IndexInv(After(Initial(registered), es))
    decreases |es|
  {
    if es != [] {
      var n := |es| - 1;
      RunKeepsIndex(registered, es[..n]);
      RunKeepsInv(registered, es[..n]);
      hide Inv, IndexInv, Enabled, Apply;
      StepKeepsIndex(After(Initial(registered), es[..n]), es[n]);
    }
  }

  lemma ReachableIndex(s: State)
    requires Reachable(s)
    ensures IndexInv(s)
  {
    var registered, es :| Legal(Initial(registered), es) && After(Initial(registered), es) == s;
    RunKeepsIndex(registered, es);
  }

  // ---------------------------------------------------------------- what the index says

  /** A user is in the index exactly if a unit was taken in Redis for one of the user's
      requests; and is in it without an order exactly if moreover none of the user's
      requests has won. */
  lemma IndexedIff(s: State, u: User)
    requires Reachable(s)
    ensures u in s.g.redis.orderInfo <==> TookFor(s, u)
    ensures u in s.g.redis.orderInfo && u !in s.g.sql.orders <==> TookFor(s, u) && !WonFor(s, u)
  {
    ReachableIndex(s);
    OrderedIff(s, u);
  }

  /** A user has an order exactly if one of the user's requests has won. */
  lemma OrderedIff(s: State, u: User)
    requires Reachable(s)
    ensures u in s.g.sql.orders <==> WonFor(s, u)
  {
    AnswersAreOrders(s);
    if WonFor(s, u) {
      var i :| i in s.workers && Won(s.workers[i]) && s.workers[i].usr == u;
    }
  }

  /** Only an EXEC that succeeds adds to the index, and only its own user; nothing is ever
      removed. */
  lemma EntersByExec(s: State, w: Id, r: Reply, u: User)
    requires Reachable(s) && CanAct(s, w, r)
    ensures u in Command(s, w, r).g.redis.orderInfo && u !in s.g.redis.orderInfo <==>
            s.workers[w].pc.Exec? && r == Ok && s.workers[w].usr == u && u !in s.g.redis.orderInfo
    ensures u in s.g.redis.orderInfo ==> u in Command(s, w, r).g.redis.orderInfo
  {
    ReachableIndex(s);
    ReachableWorker(s, w);
    IssueIndexStep(s.g, w, s.workers[w], r);
  }

  /** The index is for good: whoever is in it stays in it, whatever happens. */
  lemma {:induction false} IndexedForGood(s: State, es: seq<Event>, u: User)
    requires Reachable(s) && Legal(s, es) && u in s.g.redis.orderInfo
    ensures Reachable(After(s, es)) && u in After(s, es).g.redis.orderInfo
    decreases |es|
  {
    if es != [] {
      var n := |es| - 1;
      IndexedForGood(s, es[..n], u);
      var t := After(s, es[..n]);
      ReachStep(t, es[n]);
      if es[n].Act? { EntersByExec(t, es[n].w, es[n].reply, u); }
    }
  }

  /** The duplicate check in Redis turns a request away exactly if it is answered and a unit
      was taken for some request of the same user, whatever became of that one. An error
      reply lets every request through. */
  lemma TurnedAwayIff(s: State, w: Id, r: Reply)
    requires Reachable(s) && CanAct(s, w, r) && s.workers[w].pc.CheckGot? && s.workers[w].redis
    ensures Command(s, w, r).workers[w].pc.Done? <==> r == Ok && TookFor(s, s.workers[w].usr)
    ensures Command(s, w, r).workers[w].pc.Watch? <==> r != Ok || !TookFor(s, s.workers[w].usr)
  {
    ReachableIndex(s);
  }

  /** Without Redis the check turns a request away exactly if it is answered and some
      request of the same user has won; and those are the users in the order table. */
  lemma TurnedAwayInMysqlIff(s: State, w: Id, r: Reply)
    requires Reachable(s) && CanAct(s, w, r) && s.workers[w].pc.CheckGot? && !s.workers[w].redis
    ensures Command(s, w, r).workers[w].pc.Done? <==> r == Ok && WonFor(s, s.workers[w].usr)
    ensures Command(s, w, r).workers[w].pc.Begin? <==> r != Ok || !WonFor(s, s.workers[w].usr)
    ensures s.workers[w].usr in s.g.sql.orders <==> WonFor(s, s.workers[w].usr)
  {
    OrderedIff(s, s.workers[w].usr);
    hide WonFor, Reachable;
  }

  /** The first check lets a request through exactly if it is answered and the user is
      registered with the submitted key, with Redis and without. */
  lemma AdmittedIff(s: State, w: Id, r: Reply)
    requires Reachable(s) && CanAct(s, w, r) && s.workers[w].pc.CheckInfo?
    ensures var y := Command(s, w, r).workers[w];
            && (y.pc.CheckGot? <==> r == Ok && Entitled(s.g, s.workers[w]))
            && (y.pc.Done? && y.answer == Zero <==> r != Ok || !Entitled(s.g, s.workers[w]))
  {
  }
}
