/** How long a request takes, and why requests never wait for each other forever. */
module PurchaseLife {
  import opened Base
  import opened Purchase
  import opened PurchaseInvariant
  import opened PurchaseTheorems

  // ---------------------------------------------------------------- a bound on commands

  /** Commands a round in Redis takes, and commands after the last round. */
  const ROUND := 7
  const LONGEST := RETRYCOUNT * ROUND + 18

  function Rank(pc: Pc): nat {
    match pc
    case Done => 0
    case Restore => 1
    case CountSale => 2
    case FailUnlock => 2
    case FailInc => 3
    case FailLock => 4
    case Decide => 5
    case Insert => 6
    case Update => 7
    case Select => 8
    case Begin => 9
    case RefundUnlock => 1
    case RefundZero => 2
    case RefundSet => 3
    case RefundLock => 4
    case SoldOut => 5
    case Watch => 10
    case Unwatch => 11
    case Exec => 12
    case Hmset => 13
    case Decr => 14
    case Multi => 15
    case Get => 16
    case CheckGot => 17
    case CheckInfo => 18
  }

  predicate MayRetry(pc: Pc) {
    Checking(pc) || pc.Watch? || pc.Get? || Optimistic(pc) || pc.Unwatch?
  }

  function RoundsLeft(x: Worker): nat {
    if x.round < RETRYCOUNT then RETRYCOUNT - x.round else 0
  }

  /** An upper bound on the commands x still issues: the rounds left come first. */
  function Budget(x: Worker): nat {
    Rank(x.pc) + if MayRetry(x.pc) then RoundsLeft(x) * ROUND else 0
  }

  /** The control flow of a request: which command can follow which. */
  predicate Follows(a: Pc, b: Pc) {
    match a
    case CheckInfo => b.CheckGot? || b.Done?
    case CheckGot => b.Watch? || b.Begin? || b.Done?
    case Watch => b.Get?
    case Get => b.Multi? || b.SoldOut? || b.Done?
    case Multi => b.Decr? || b.Unwatch?
    case Decr => b.Hmset?
    case Hmset => b.Exec?
    case Exec => b.Begin? || b.Unwatch?
    case Unwatch => b.Watch? || b.Done?
    case SoldOut => b.RefundLock?
    case RefundLock => b.RefundSet?
    case RefundSet => b.RefundZero? || b.RefundUnlock?
    case RefundZero => b.RefundUnlock?
    case RefundUnlock => b.Done?
    case Begin => b.Select?
    case Select => b.Update? || b.Restore?
    case Update => b.Insert?
    case Insert => b.Decide?
    case Decide => b.CountSale? || b.FailLock?
    case CountSale => b.Restore?
    case FailLock => b.FailInc?
    case FailInc => b.FailUnlock?
    case FailUnlock => b.Restore?
    case Restore => b.Done?
    case Done => false
  }

  /** One command further: WATCH begins a round, BEGIN the transaction, and UNWATCH leads
      to another round only while there are rounds left. */
  predicate Advances(x: Worker, y: Worker) {
    && Follows(x.pc, y.pc)
    && y.round == x.round + Indicator(x.pc.Watch?)
    && y.txns == x.txns + Indicator(x.pc.Begin?)
    && (x.pc.Unwatch? && y.pc.Watch? ==> x.round < RETRYCOUNT)
  }

  lemma ChecksAdvance(g: Shared, x: Worker, r: Reply)
    requires Checking(x.pc)
    ensures Advances(x, Checks(g, x, r))
  {
  }

  lemma WatchAndGetAdvance(g: Shared, x: Worker, r: Reply)
    requires x.pc.Watch? || x.pc.Get?
    ensures Advances(x, WatchAndGet(g, x, r))
  {
  }

  lemma QueueingAdvances(x: Worker, r: Reply)
    requires x.pc.Multi? || x.pc.Decr? || x.pc.Hmset? || x.pc.Unwatch?
    ensures Advances(x, Queueing(x, r))
  {
  }

  lemma RefundAdvances(g: Shared, w: Id, x: Worker, r: Reply)
    requires x.pc.SoldOut? || x.pc.RefundLock? || x.pc.RefundSet? || x.pc.RefundZero? || x.pc.RefundUnlock?
    ensures Advances(x, Refund(g, w, x, r).x)
  {
  }

  lemma WriteAdvances(g: Shared, w: Id, x: Worker, r: Reply)
    requires x.pc.Update? || x.pc.Insert?
    ensures Advances(x, Write(g, w, x, r).x)
  {
  }

  lemma FailAdvances(g: Shared, w: Id, x: Worker)
    requires x.pc.FailLock? || x.pc.FailInc? || x.pc.FailUnlock?
    ensures Advances(x, Fail(g, w, x).x)
  {
  }

  lemma SingleAdvances(g: Shared, w: Id, x: Worker, r: Reply)
    requires x.pc.Exec? || x.pc.Begin? || x.pc.Select? || x.pc.Decide? || x.pc.CountSale? || x.pc.Restore?
    requires Possible(g, x, r)
    ensures Advances(x, Issue(g, w, x, r).x)
  {
    match x.pc
    case Exec => assert Issue(g, w, x, r) == Execute(g, x, r);
    case Begin =>
    case Select => assert Issue(g, w, x, r) == Selected(g, w, x, r);
    case Decide => assert Issue(g, w, x, r) == Decided(g, w, x);
    case CountSale =>
    case Restore => assert Issue(g, w, x, r) == Restored(g, w, x);
  }

  lemma CommandAdvances(g: Shared, w: Id, x: Worker, r: Reply)
    requires Possible(g, x, r)
    ensures Advances(x, Issue(g, w, x, r).x)
  {
    if Checking(x.pc) { ChecksAdvance(g, x, r); }
    else if x.pc.Watch? || x.pc.Get? { WatchAndGetAdvance(g, x, r); }
    else if Writing(x.pc) && !x.pc.Decide? { WriteAdvances(g, w, x, r); }
    else if x.pc.FailLock? || x.pc.FailInc? || x.pc.FailUnlock? { FailAdvances(g, w, x); }
    else if Private(x.pc) && !x.pc.Begin? { QueueingAdvances(x, r); }
    else if InRedis(x.pc) && !x.pc.Exec? { RefundAdvances(g, w, x, r); }
    else { SingleAdvances(g, w, x, r); }
  }

  /** Every command uses up some of the budget of its request. */
  lemma AdvancingDescends(x: Worker, y: Worker)
    requires Advances(x, y) && x.round <= RETRYCOUNT && y.round <= RETRYCOUNT
    ensures Budget(y) < Budget(x)
  {
  }

  /** How many commands w issued in a run, and how many of them at pc. */
  function Commands(es: seq<Event>, w: Id): nat {
    if es == [] then 0
    else Commands(es[..|es| - 1], w) + Indicator(es[|es| - 1].Act? && es[|es| - 1].w == w)
  }

  function IssuedAt(s: State, es: seq<Event>, w: Id, pc: Pc): nat
    requires Legal(s, es)
    decreases |es|
  {
    if es == [] then 0 else
      var before := After(s, es[..|es| - 1]);
      var e := es[|es| - 1];
      IssuedAt(s, es[..|es| - 1], w, pc) + Indicator(e.Act? && e.w == w && before.workers[w].pc == pc)
  }

  /** The history of w in a run, against its record. */
  predicate Spent(registered: map<User, Key>, es: seq<Event>, w: Id)
    requires Legal(Initial(registered), es)
  {
    var s := After(Initial(registered), es);
    var watches := IssuedAt(Initial(registered), es, w, Watch);
    var begins := IssuedAt(Initial(registered), es, w, Begin);
    if w in s.workers then
      var x := s.workers[w];
      x.round <= RETRYCOUNT && Commands(es, w) + Budget(x) <= LONGEST &&
      watches == x.round && begins == x.txns <= 1
    else
      Commands(es, w) == watches == begins == 0
  }

  lemma StepSpends(registered: map<User, Key>, es: seq<Event>, w: Id)
    requires es != [] && Legal(Initial(registered), es)
    requires Spent(registered, es[..|es| - 1], w)
    ensures Spent(registered, es, w)
  {
    var e := es[|es| - 1];
    var s := After(Initial(registered), es[..|es| - 1]);
    if e.Act? && e.w == w {
      var y := Issue(s.g, w, s.workers[w], e.reply).x;
      CommandAdvances(s.g, w, s.workers[w], e.reply);
      RunWorker(registered, es, w);
      AdvancingDescends(s.workers[w], y);
    }
  }

  lemma RunWorker(registered: map<User, Key>, es: seq<Event>, w: Id)
    requires Legal(Initial(registered), es) && w in After(Initial(registered), es).workers
    ensures WorkerInv(After(Initial(registered), es).g, w, After(Initial(registered), es).workers[w])
  {
    RunKeepsInv(registered, es);
  }

  lemma {:induction false} RunSpends(registered: map<User, Key>, es: seq<Event>, w: Id)
    requires Legal(Initial(registered), es)
    ensures Spent(registered, es, w)
    decreases |es|
  {
    if es != [] {
      RunSpends(registered, es[..|es| - 1], w);
      StepSpends(registered, es, w);
    }
  }

  /** In any run, whatever the others do: a request issues at most 158 commands, among them
      at most 20 WATCHes, and it begins at most one purchase in MySQL. */
  lemma RequestBounded(registered: map<User, Key>, es: seq<Event>, w: Id)
    requires Legal(Initial(registered), es)
    ensures Commands(es, w) <= 158
    ensures IssuedAt(Initial(registered), es, w, Watch) <= 20
    ensures IssuedAt(Initial(registered), es, w, Begin) <= 1
  {
    RunSpends(registered, es, w);
  }

  // ---------------------------------------------------------------- no deadlock

  predicate Unfinished(x: Worker) {
    !x.pc.Done?
  }

  /** What the servers answer when nothing goes wrong: EXEC is refused only if the watch is
      broken, INSERT only if the key is taken. */
  function Answer(g: Shared, x: Worker): Reply {
    if x.pc.Exec? && !(x.queued && x.watchOk && x.watched == g.redis.version) then Error
    else if x.pc.Insert? && x.usr in g.sql.orders then Error
    else Ok
  }

  /** No lock keeps w waiting: not the process lock, not the row lock on goods_info, and
      not an uncommitted order row of its user. */
  predicate CanMove(s: State, w: Id) {
    w in s.workers && CanAct(s, w, Answer(s.g, s.workers[w]))
  }

  /** Whoever has an uncommitted order is about to end its transaction. */
  lemma PendingDecides(s: State, v: Id)
    requires Reachable(s) && v in s.workers && s.workers[v].pendingOrder
    ensures CanMove(s, v)
  {
    ReachableWorker(s, v);
    assert s.workers[v].pc.Decide?;
  }

  lemma ProcessLockMoves(s: State) returns (w: Id)
    requires Reachable(s) && s.g.proc.rwlock.Some?
    ensures CanMove(s, w)
  {
    ReachableOwners(s);
    w := s.g.proc.rwlock.value;
    ReachableWorker(s, w);
  }

  /** A request with none of the locks against it moves, or an uncommitted order row is in
      its way. */
  lemma OrderRowMoves(s: State, v: Id) returns (w: Id)
    requires Reachable(s) && v in s.workers && Unfinished(s.workers[v])
    requires !(s.workers[v].pc.RefundLock? || s.workers[v].pc.FailLock?) || s.g.proc.rwlock == None
    requires !s.workers[v].pc.Select? || s.g.sql.goodsLock == None
    ensures CanMove(s, w)
  {
    w := v;
    if !CanMove(s, v) {
      assert !NoPendingOrder(s, v, s.workers[v].usr);
      w :| w in s.workers && w != v && s.workers[w].pendingOrder && s.workers[w].usr == s.workers[v].usr;
      PendingDecides(s, w);
    }
  }

  lemma RowLockMoves(s: State) returns (w: Id)
    requires Reachable(s) && s.g.sql.goodsLock.Some?
    ensures CanMove(s, w)
  {
    ReachableOwners(s);
    var v := s.g.sql.goodsLock.value;
    ReachableWorker(s, v);
    w := OrderRowMoves(s, v);
  }

  /** The locks never close a cycle: as long as a request is under way, one of them is
      kept waiting by nobody. */
  lemma SomeoneCanMove(s: State) returns (w: Id)
    requires Reachable(s) && !Quiet(s)
    ensures CanMove(s, w)
  {
    if s.g.proc.rwlock.Some? {
      w := ProcessLockMoves(s);
    } else if s.g.sql.goodsLock.Some? {
      w := RowLockMoves(s);
    } else {
      var v :| v in s.workers && Unfinished(s.workers[v]);
      w := OrderRowMoves(s, v);
    }
  }

  /** All requests wait only when all have their answers. */
  lemma StuckIffQuiet(s: State)
    requires Reachable(s)
    ensures (forall w | w in s.workers :: !CanMove(s, w)) <==> Quiet(s)
  {
    if !Quiet(s) {
      var w := SomeoneCanMove(s);
    }
  }

  // ---------------------------------------------------------------- every schedule ends

  /** What the requests below n may still issue. */
  function Total(workers: map<Id, Worker>, n: nat): nat {
    if n == 0 then 0 else Total(workers, n - 1) + if n - 1 in workers then Budget(workers[n - 1]) else 0
  }

  lemma {:induction false} TotalUpdate(workers: map<Id, Worker>, n: nat, w: Id, y: Worker)
    requires w in workers
    ensures Total(workers[w := y], n) + (if w < n then Budget(workers[w]) else 0)
         == Total(workers, n) + (if w < n then Budget(y) else 0)
  {
    if n > 0 { TotalUpdate(workers, n - 1, w, y); }
  }

  predicate Below(workers: map<Id, Worker>, n: nat) {
    forall w | w in workers :: w < n
  }

  lemma {:induction false} SomeBound(ids: set<Id>) returns (n: nat)
    ensures forall w | w in ids :: w < n
    decreases |ids|
  {
    n := 0;
    if ids != {} {
      var v :| v in ids;
      var m := SomeBound(ids - {v});
      n := if v < m then m else v + 1;
      forall w | w in ids ensures w < n {
        if w != v { assert w in ids - {v}; }
      }
    }
  }

  lemma CommandDescends(s: State, w: Id, r: Reply, n: nat)
    requires Reachable(s) && CanAct(s, w, r) && Below(s.workers, n)
    ensures Reachable(Command(s, w, r)) && Below(Command(s, w, r).workers, n)
    ensures Total(Command(s, w, r).workers, n) < Total(s.workers, n)
  {
    ReachStep(s, Act(w, r));
    var t := Command(s, w, r);
    ReachableWorker(s, w);
    ReachableWorker(t, w);
    CommandAdvances(s.g, w, s.workers[w], r);
    hide Issue, Reachable;
    AdvancingDescends(s.workers[w], t.workers[w]);
    TotalUpdate(s.workers, n, w, t.workers[w]);
  }

  lemma {:induction false} ScheduleDescends(s: State, es: seq<Event>, n: nat)
    requires Reachable(s) && Below(s.workers, n)
    requires Legal(s, es) && forall e | e in es :: e.Act?
    ensures Reachable(After(s, es)) && Below(After(s, es).workers, n)
    ensures |es| + Total(After(s, es).workers, n) <= Total(s.workers, n)
    decreases |es|
  {
    if es != [] {
      var m := |es| - 1;
      ScheduleDescends(s, es[..m], n);
      assert es[m].Act?;
      CommandDescends(After(s, es[..m]), es[m].w, es[m].reply, n);
    }
  }

  function IdsBelow(workers: map<Id, Worker>, n: nat): set<Id> {
    set w | w in workers && w < n
  }

  lemma {:induction false} TotalAtMost(workers: map<Id, Worker>, n: nat)
    ensures Total(workers, n) <= LONGEST * |IdsBelow(workers, n)|
  {
    if n > 0 {
      TotalAtMost(workers, n - 1);
      OneId(workers, n - 1);
    }
  }

  lemma OneId(workers: map<Id, Worker>, w: Id)
    ensures |IdsBelow(workers, w + 1)| == |IdsBelow(workers, w)| + Indicator(w in workers)
  {
    Without(IdsBelow(workers, w + 1), w);
    assert IdsBelow(workers, w + 1) - {w} == IdsBelow(workers, w);
  }

  /** Once nobody arrives any more, every schedule ends, whatever the outcomes of its
      commands. */
  lemma EveryScheduleEnds(s: State, es: seq<Event>)
    requires Reachable(s) && Legal(s, es) && forall e | e in es :: e.Act?
    ensures |es| <= 158 * |s.workers|
  {
    var n := SomeBound(s.workers.Keys);
    hide Reachable, Legal, Total, IdsBelow;
    TotalAtMost(s.workers, n);
    AllBelow(s.workers, n);
    ScheduleDescends(s, es, n);
  }

  lemma AllBelow(workers: map<Id, Worker>, n: nat)
    requires Below(workers, n)
    ensures IdsBelow(workers, n) == workers.Keys
  {
  }

  lemma Prepend(s: State, e: Event, fs: seq<Event>)
    requires Enabled(s, e) && Legal(Apply(s, e), fs)
    ensures Legal(s, [e] + fs) && After(s, [e] + fs) == After(Apply(s, e), fs)
  {
    assert [e][..0] == [];
    assert Legal(s, []) && After(s, []) == s;
    assert Legal(s, [e]) && After(s, [e]) == Apply(s, e);
    RunAppend(s, [e], fs);
  }

  /** No event of a run is an arrival, and each is answered as Answer says: nobody gets
      past a lock on an error. */
  predicate Orderly(s: State, es: seq<Event>)
    requires Legal(s, es)
    decreases |es|
  {
    es == [] ||
    (Orderly(s, es[..|es| - 1]) && es[|es| - 1].Act? &&
     var before := After(s, es[..|es| - 1]);
     es[|es| - 1].reply == Answer(before.g, before.workers[es[|es| - 1].w]))
  }

  lemma {:induction false} OrderlyPrepend(s: State, e: Event, fs: seq<Event>)
    requires Enabled(s, e) && Legal(Apply(s, e), fs) && Orderly(Apply(s, e), fs)
    requires e.Act? && e.reply == Answer(s.g, s.workers[e.w])
    ensures Legal(s, [e] + fs) && Orderly(s, [e] + fs)
    decreases |fs|
  {
    Prepend(s, e, fs);
    if fs == [] {
      assert [e] + fs == [e] && [e][..0] == [];
    } else {
      var m := |fs| - 1;
      OrderlyPrepend(s, e, fs[..m]);
      Prepend(s, e, fs[..m]);
      assert ([e] + fs)[..m + 1] == [e] + fs[..m];
    }
  }

  lemma {:induction false} FinishBelow(s: State, n: nat) returns (es: seq<Event>)
    requires Reachable(s) && Below(s.workers, n)
    ensures Legal(s, es) && Orderly(s, es)
    ensures Reachable(After(s, es)) && Quiet(After(s, es))
    ensures After(s, es).workers.Keys == s.workers.Keys
    decreases Total(s.workers, n)
  {
    es := [];
    if !Quiet(s) {
      var w := SomeoneCanMove(s);
      var e := Act(w, Answer(s.g, s.workers[w]));
      CommandDescends(s, w, e.reply, n);
      var fs := FinishBelow(Apply(s, e), n);
      Prepend(s, e, fs);
      OrderlyPrepend(s, e, fs);
      es := [e] + fs;
    }
  }

  /** From every reachable state the requests under way all reach their answers without any
      of them getting past a lock on an error. */
  lemma CanFinish(s: State) returns (es: seq<Event>)
    requires Reachable(s)
    ensures Legal(s, es) && Orderly(s, es)
    ensures Reachable(After(s, es)) && Quiet(After(s, es))
    ensures After(s, es).workers.Keys == s.workers.Keys
  {
    var n := SomeBound(s.workers.Keys);
    es := FinishBelow(s, n);
  }

  // ---------------------------------------------------------------- on its own

  /** Nobody else holds a lock or an uncommitted order that w could run into. */
  predicate Unhindered(s: State, w: Id) {
    && w in s.workers && NoPendingOrder(s, w, s.workers[w].usr)
    && (s.g.proc.rwlock == None || s.g.proc.rwlock == Some(w))
    && (s.g.sql.goodsLock == None || s.g.sql.goodsLock == Some(w))
  }

  lemma UnhinderedMoves(s: State, w: Id)
    requires Reachable(s) && Unhindered(s, w) && Unfinished(s.workers[w])
    ensures CanMove(s, w)
  {
    ReachableWorker(s, w);
  }

  lemma UnhinderedStays(s: State, w: Id, r: Reply)
    requires Reachable(s) && Unhindered(s, w) && CanAct(s, w, r)
    ensures Unhindered(Command(s, w, r), w)
  {
    ReachableWorker(s, w);
    IssueAccounts(s.g, w, s.workers[w], r);
    hide Issue, Reachable, WorkerInv, Balanced;
  }

  /** A request that nobody hinders reaches its answer on its own, without getting past a
      lock on an error. */
  lemma {:induction false} Drive(s: State, w: Id, n: nat) returns (es: seq<Event>)
    requires Reachable(s) && Unhindered(s, w) && Below(s.workers, n)
    ensures Legal(s, es) && Orderly(s, es)
    ensures var t := After(s, es);
            w in t.workers && t.workers == s.workers[w := t.workers[w]] && t.workers[w].pc.Done?
    decreases Total(s.workers, n)
  {
    es := [];
    if Unfinished(s.workers[w]) {
      UnhinderedMoves(s, w);
      var e := Act(w, Answer(s.g, s.workers[w]));
      CommandDescends(s, w, e.reply, n);
      UnhinderedStays(s, w, e.reply);
      var fs := Drive(Apply(s, e), w, n);
      Prepend(s, e, fs);
      OrderlyPrepend(s, e, fs);
      es := [e] + fs;
    }
  }
}
