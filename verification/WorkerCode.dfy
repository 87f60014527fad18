/** The program of a Worker as it is written, statement by statement, against the state
    machine: between any two commands the other requests do as they please, and each
    command finds its request where the machine says it is. */
module WorkerCode {
  import opened Base
  import P = Purchase
  import opened I = PurchaseInvariant
  import T = PurchaseTheorems
  import L = PurchaseLife

  /** What the rest of the world does to one command: the events of other requests before
      it, and how it ends if it can end that way. */
  datatype Turn = Turn(others: seq<P.Event>, reply: P.Reply)

  predicate WaitsForLock(pc: P.Pc) {
    pc.RefundLock? || pc.FailLock?
  }

  class Worker {
    var s: P.State        // the databases, the counters and all requests
    const w: P.Id         // this request
    const usrname: P.User // request_
    const usrkey: P.Key
    var response: string  // "" until set
    const world: nat -> Turn
    var turn: nat         // how often the world had its turn

    ghost predicate Valid()
      reads this
    {
      P.Reachable(s) && w in s.workers && s.workers[w].usr == usrname && s.workers[w].key == usrkey
    }

    /** This request is about to issue the command pc. */
    ghost predicate At(pc: P.Pc)
      reads this
    {
      Valid() && s.workers[w].pc == pc
    }

    /** The answer the machine recorded is the response that was set. */
    ghost predicate HasAnswer()
      reads this
    {
      && Valid() && (response == "0" || response == "1")
      && (response == "1" <==> s.workers[w].answer == P.One)
      && (response == "0" <==> s.workers[w].answer == P.Zero)
    }

    constructor (s: P.State, w: P.Id, world: nat -> Turn)
      requires P.Reachable(s) && w in s.workers
      ensures this.s == s && this.w == w && this.world == world && Valid() && response == ""
    {
      this.s, this.w, this.response, this.world, this.turn := s, w, "", world, 0;
      this.usrname, this.usrkey := s.workers[w].usr, s.workers[w].key;
    }

    // -------------------------------------------------------------- one command

    /** The next command of this request, after whatever the others do first: g is what
        the command finds, r how it ends. */
    method Issue() returns (r: P.Reply, g: P.Shared)
      requires Valid() && L.Unfinished(s.workers[w]) && !WaitsForLock(s.workers[w].pc)
      modifies this`s, this`turn
      ensures Valid() && turn == old(turn) + 1
      ensures g == Disturbed(old(s), w, world(old(turn)).others).g
      ensures r == Outcome(Disturbed(old(s), w, world(old(turn)).others), w, old(s.workers[w]).pc, world(old(turn)).reply)
      ensures P.Possible(g, old(s.workers[w]), r)
      ensures P.Effect(s.workers[w], s.g) == P.Issue(g, w, old(s.workers[w]), r)
    {
      OthersOnly(s, w, world(turn).others);
      s := Disturbed(s, w, world(turn).others);
      r := Outcome(s, w, s.workers[w].pc, world(turn).reply);
      turn := turn + 1;
      g := s.g;
      T.ReachStep(s, P.Act(w, r));
      KeepsRequest(s, w, r);
      s := P.Command(s, w, r);
    }

    /** pthread_rwlock_wrlock: if another request holds the lock, that one goes on until it
        gives it back, and then this one has it. */
    method Lock() returns (g: P.Shared)
      requires Valid() && WaitsForLock(s.workers[w].pc)
      modifies this`s, this`turn
      ensures Valid() && P.Possible(g, old(s.workers[w]), P.Ok)
      ensures Disturbed(old(s), w, world(old(turn)).others).g.proc.rwlock == None ==>
                g == Disturbed(old(s), w, world(old(turn)).others).g && turn == old(turn) + 1
      ensures P.Effect(s.workers[w], s.g) == P.Issue(g, w, old(s.workers[w]), P.Ok)
    {
      OthersOnly(s, w, world(turn).others);
      s := Disturbed(s, w, world(turn).others);
      turn := turn + 1;
      while s.g.proc.rwlock.Some?
        invariant Valid() && s.workers[w] == old(s.workers[w])
        invariant Disturbed(old(s), w, world(old(turn)).others).g.proc.rwlock == None ==>
                    s == Disturbed(old(s), w, world(old(turn)).others) && turn == old(turn) + 1
        decreases HolderLeft(s)
      {
        HolderGoesOn(s, w, world(turn).reply);
        s := P.Command(s, s.g.proc.rwlock.value, world(turn).reply);
        turn := turn + 1;
      }
      g := s.g;
      T.ReachStep(s, P.Act(w, P.Ok));
      KeepsRequest(s, w, P.Ok);
      s := P.Command(s, w, P.Ok);
    }

    // -------------------------------------------------------------- the checks

    /** checkUserInfo, and its _mysql form: the submitted key is the stored one. */
    method CheckUserInfo(usr: P.User, key: P.Key) returns (isUsr: bool)
      requires At(P.CheckInfo) && usr == usrname && key == usrkey
      modifies this`s, this`turn
      ensures Valid() && SameRequest(old(s.workers[w]), s.workers[w])
      ensures isUsr ==> usr in s.g.registered && s.g.registered[usr] == key
      ensures isUsr ==> s.workers[w].pc == P.CheckGot && s.workers[w].answer == P.Unset
      ensures !isUsr ==> s.workers[w].pc == P.Done && s.workers[w].answer == P.Zero
    {
      Unset(s, w);
      var r, g := Issue();
      if r == P.Ok && usr in g.registered {
        if key == g.registered[usr] {
          return true;
        }
      }
      return false;
    }

    /** checkUserHasGot, and its _mysql form: the user has an order already. */
    method CheckUserHasGot(usr: P.User) returns (hasGot: bool)
      requires At(P.CheckGot) && usr == usrname
      modifies this`s, this`turn
      ensures Valid() && SameRequest(old(s.workers[w]), s.workers[w])
      ensures !hasGot ==> s.workers[w].pc == (if s.workers[w].redis then P.Watch else P.Begin)
      ensures !hasGot ==> s.workers[w].answer == P.Unset && s.workers[w].round == 0
      ensures hasGot ==> s.workers[w].pc == P.Done && s.workers[w].answer == P.Zero
    {
      Unset(s, w);
      var redis := s.workers[w].redis;
      var r, g := Issue();
      if redis {
        return r == P.Ok && usr in g.redis.orderInfo;
      }
      return r == P.Ok && usr in g.sql.orders;
    }

    /** A command after which there is only one way to go on. */
    method Do() returns (r: P.Reply)
      requires Valid() && OneWay(s.workers[w].pc) && !WaitsForLock(s.workers[w].pc)
      modifies this`s, this`turn
      ensures Valid() && Onward(old(s.workers[w]), s.workers[w], r)
    {
      var g;
      r, g := Issue();
      OneWayOnward(g, w, old(s.workers[w]), r);
    }

    method Acquire()
      requires Valid() && WaitsForLock(s.workers[w].pc)
      modifies this`s, this`turn
      ensures Valid() && Onward(old(s.workers[w]), s.workers[w], P.Ok)
    {
      var g := Lock();
      OneWayOnward(g, w, old(s.workers[w]), P.Ok);
    }

    // -------------------------------------------------------------- seckillGoods_mysql

    /** SELECT g_totalcount ... FOR UPDATE. */
    method SelectStock() returns (r: P.Reply, stock: int)
      requires At(P.Select) && s.workers[w].isSuc
      modifies this`s, this`turn
      ensures Valid()
      ensures r == P.Ok && stock > 0 ==>
                s.workers[w] == old(s.workers[w]).(pc := P.Update, total := stock - 1)
      ensures r != P.Ok || stock <= 0 ==>
                s.workers[w].pc == P.Restore && s.workers[w].answer == P.Zero
    {
      var g;
      r, g := Issue();
      stock := g.sql.stock;
    }

    /** UPDATE goods_info or INSERT INTO order_info. */
    method Write() returns (r: P.Reply)
      requires Valid() && (s.workers[w].pc.Update? || s.workers[w].pc.Insert?)
      modifies this`s, this`turn
      ensures Valid() && s.workers[w].answer == old(s.workers[w]).answer
      ensures s.workers[w].pc == (if old(s.workers[w]).pc.Update? then P.Insert else P.Decide)
      ensures s.workers[w].isSuc == (old(s.workers[w]).isSuc && r == P.Ok)
    {
      var g;
      r, g := Issue();
      WriteGoesOn(g, w, old(s.workers[w]), r);
      hide P.Write, P.Reachable;
    }

    /** mysql_commit if isSuc, otherwise mysql_rollback. */
    method EndTransaction(isSuc: bool)
      requires At(P.Decide) && s.workers[w].isSuc == isSuc
      modifies this`s, this`turn
      ensures Valid() && s.workers[w].pc == (if isSuc then P.CountSale else P.FailLock)
      ensures s.workers[w].answer == (if isSuc then P.One else old(s.workers[w]).answer)
    {
      var r, g := Issue();
    }

    /** The statements of the purchase. isSuc says whether all of them were carried out,
        stock whether there was any. */
    method Statements() returns (stock: bool, isSuc: bool)
      requires At(P.Begin) && s.workers[w].answer == P.Unset
      modifies this`s, this`turn
      ensures Valid()
      ensures stock ==> s.workers[w].pc == P.Decide && s.workers[w].isSuc == isSuc && s.workers[w].answer == P.Unset
      ensures !stock ==> s.workers[w].pc == P.Restore && s.workers[w].answer == P.Zero
    {
      hide P.Issue, P.Reachable, P.Possible;
      isSuc := true;
      var off := Do();                         // autocommit(OFF)
      var total_count := 0;
      var reply, found := SelectStock();
      if reply != P.Ok {
        isSuc := false;
      } else {
        total_count := found;
      }
      if total_count > 0 {
        total_count := total_count - 1;
      } else {
        return false, isSuc;
      }
      assert s.workers[w].total == total_count;
      reply := Write();                        // UPDATE goods_info
      if reply != P.Ok {
        isSuc := false;
      }
      reply := Write();                        // INSERT INTO order_info
      if reply != P.Ok {
        isSuc := false;
      }
      return true, isSuc;
    }

    /** After a rollback: ++*failedCount_ under the lock. */
    method CountFailure()
      requires At(P.FailLock)
      modifies this`s, this`turn
      ensures At(P.Restore) && s.workers[w].answer == P.Zero
    {
      hide P.Issue, P.Reachable, P.Possible;
      Acquire();
      var inc := Do();
      var unlock := Do();
    }

    /** Commit and count the sale, or roll back and count the failure. */
    method Conclude(isSuc: bool)
      requires At(P.Decide) && s.workers[w].isSuc == isSuc && s.workers[w].answer == P.Unset
      modifies this`s, this`turn, this`response
      ensures At(P.Restore) && HasAnswer() && response == (if isSuc then "1" else "0")
    {
      hide P.Issue, P.Reachable, P.Possible;
      EndTransaction(isSuc);
      if !isSuc {
        CountFailure();
        response := "0";
      } else {
        response := "1";
        var inc := Do();                       // ++*successNum_
      }
    }

    /** seckillGoods_mysql: the response is "1" exactly if the transaction was committed. */
    method SeckillGoodsMysql()
      requires At(P.Begin) && s.workers[w].answer == P.Unset
      modifies this`s, this`turn, this`response
      ensures At(P.Done) && HasAnswer()
    {
      hide P.Issue, P.Reachable, P.Possible;
      var stock, isSuc := Statements();
      if !stock {
        response := "0";
      } else {
        Conclude(isSuc);
      }
      var on := Do();                          // autocommit(ON)
    }

    // -------------------------------------------------------------- seckillGoods

    /** If there are counted failures, SET total_count to their number; refunded says
        whether that was done. Nobody else counts failures meanwhile: the lock is held. */
    method SetTotalCount() returns (refunded: bool)
      requires At(P.RefundSet)
      modifies this`s, this`turn
      ensures Valid() && s.workers[w].answer == old(s.workers[w]).answer
      ensures s.workers[w].pc == (if refunded then P.RefundZero else P.RefundUnlock)
    {
      var r, g := Issue();
      refunded := g.proc.failed > 0 && r == P.Ok;
    }

    /** Under the lock: the refund, and the lock is given back. */
    method RefundFailures()
      requires At(P.RefundSet)
      modifies this`s, this`turn
      ensures At(P.Done) && s.workers[w].answer == P.Zero
    {
      hide P.Issue, P.Reachable, P.Possible;
      var refunded := SetTotalCount();
      if refunded {
        var zero := Do();                      // *failedCount_ = 0
      }
      var unlock := Do();
    }

    /** The sold-out branch: put the counted failures back on sale. */
    method GiveBack()
      requires At(P.SoldOut) && s.workers[w].answer == P.Unset
      modifies this`s, this`turn, this`response
      ensures At(P.Done) && HasAnswer() && response == "0"
    {
      hide P.Issue, P.Reachable, P.Possible;
      var unwatch := Do();                     // UNWATCH
      Acquire();
      RefundFailures();
      response := "0";
    }

    /** GET total_count. */
    method GetTotalCount() returns (r: P.Reply, count: int)
      requires At(P.Get)
      modifies this`s, this`turn
      ensures Valid()
      ensures var x := old(s.workers[w]);
              var read := if r == P.Ok then count else 0;
              if !x.watchOk || r == P.Null then s.workers[w].pc == P.Done && s.workers[w].answer == P.Zero
              else s.workers[w] == x.(pc := if read > 0 then P.Multi else P.SoldOut, read := read)
    {
      var g;
      r, g := Issue();
      count := g.redis.count;
    }

    /** MULTI, or EXEC. */
    method Transaction() returns (r: P.Reply)
      requires Valid() && (s.workers[w].pc.Multi? || s.workers[w].pc.Exec?)
      modifies this`s, this`turn
      ensures Valid() && s.workers[w].answer == old(s.workers[w]).answer
      ensures s.workers[w].round == old(s.workers[w]).round
      ensures s.workers[w].pc == (if r != P.Ok then P.Unwatch
                                  else if old(s.workers[w]).pc.Multi? then P.Decr else P.Begin)
    {
      var g;
      r, g := Issue();
    }

    /** UNWATCH after a failed round. */
    method Unwatch()
      requires At(P.Unwatch)
      modifies this`s, this`turn
      ensures Valid()
      ensures old(s.workers[w]).round < P.RETRYCOUNT ==> s.workers[w] == old(s.workers[w]).(pc := P.Watch)
      ensures old(s.workers[w]).round >= P.RETRYCOUNT ==> s.workers[w].pc == P.Done && s.workers[w].answer == P.Zero
    {
      var r, g := Issue();
    }

    /** The transaction in Redis: EXEC takes a unit, or the round has failed. */
    method Reserve() returns (reserved: bool)
      requires At(P.Multi) && s.workers[w].answer == P.Unset
      modifies this`s, this`turn
      ensures At(if reserved then P.Begin else P.Unwatch) && s.workers[w].answer == P.Unset
      ensures s.workers[w].round == old(s.workers[w]).round
    {
      hide P.Issue, P.Reachable, P.Possible;
      var multi := Transaction();              // MULTI
      if multi == P.Ok {
        var decr := Do();                      // DECR total_count
        var hmset := Do();                     // HMSET order_info
        var exec := Transaction();             // EXEC
        return exec == P.Ok;
      }
      return false;
    }

    /** One round in Redis; reserved says whether EXEC took a unit, retry whether the round
        may be tried again. */
    method Round() returns (reserved: bool, retry: bool)
      requires At(P.Watch) && s.workers[w].answer == P.Unset
      modifies this`s, this`turn, this`response
      ensures reserved ==> At(P.Begin) && s.workers[w].answer == P.Unset
      ensures !reserved && retry ==> At(P.Unwatch) && s.workers[w].answer == P.Unset &&
                                     s.workers[w].round == old(s.workers[w]).round + 1
      ensures !reserved && !retry ==> At(P.Done) && HasAnswer() && response == "0"
    {
      hide P.Issue, P.Reachable, P.Possible;
      var watch := Do();                       // WATCH total_count
      var reply, found := GetTotalCount();
      var currGoods_count := 0;
      if reply != P.Null && watch == P.Ok {
        currGoods_count := if reply == P.Ok then found else 0;
      } else {
        response := "0";
        return false, false;
      }
      if currGoods_count > 0 {
        reserved := Reserve();
        return reserved, !reserved;
      } else {
        GiveBack();
        return false, false;
      }
    }

    /** seckillGoods: at most RETRYCOUNT rounds, of which repeatCount are over. */
    method SeckillGoods(repeatCount: nat)
      requires Valid() && s.workers[w].answer == P.Unset && repeatCount < P.RETRYCOUNT
      requires s.workers[w].pc == (if s.workers[w].redis then P.Watch else P.Begin)
      requires s.workers[w].redis ==> s.workers[w].round == repeatCount
      modifies this`s, this`turn, this`response
      ensures At(P.Done) && HasAnswer()
      decreases P.RETRYCOUNT - repeatCount
    {
      if !s.workers[w].redis {
        SeckillGoodsMysql();
        return;
      }
      hide P.Issue, P.Reachable, P.Possible;
      var repeatCount' := repeatCount + 1;
      var reserved, retry := Round();
      if reserved {
        SeckillGoodsMysql();
      } else if retry {
        Unwatch();
        if repeatCount' < P.RETRYCOUNT {
          T.ReachableWorker(s, w);
          SeckillGoods(repeatCount');
        } else {
          response := "0";
        }
      }
    }

    // -------------------------------------------------------------- Proceed

    /** The purchase as Proceed runs it for a request: whatever the world does, the machine
        reaches its end with the response that was set, and the response is "1" exactly if
        this request's own transaction put its order into the table, where it then is with
        the submitted key. */
    method Proceed(usr: P.User, key: P.Key)
      requires At(P.CheckInfo) && usr == usrname && key == usrkey
      modifies this`s, this`turn, this`response
      ensures At(P.Done) && HasAnswer()
      ensures response == "1" <==> SoldTo(s.g, usr, w)
      ensures response == "1" ==> usr in s.g.sql.orders && s.g.sql.orders[usr] == key
    {
      var isUsr := CheckUserInfo(usr, key);
      if isUsr {
        var hasGot := CheckUserHasGot(usr);
        if !hasGot {
          SeckillGoods(0);
        } else {
          response := "0";
        }
      } else {
        response := "0";
      }
      T.ReachableWorker(s, w);
      if response == "1" { OwnOrder(s, w); }
    }
  }

  lemma OwnOrder(s: P.State, w: P.Id)
    requires P.Reachable(s) && w in s.workers && Won(s.workers[w])
    ensures s.workers[w].usr in s.g.sql.orders && s.g.sql.orders[s.workers[w].usr] == s.workers[w].key
  {
    T.AnswersAreOrders(s);
  }

  lemma KeepsRequest(s: P.State, w: P.Id, r: P.Reply)
    requires P.Reachable(s) && P.CanAct(s, w, r)
    ensures SameRequest(s.workers[w], P.Command(s, w, r).workers[w])
  {
    T.ReachableWorker(s, w);
    IssueAccounts(s.g, w, s.workers[w], r);
  }

  lemma WriteGoesOn(g: P.Shared, w: P.Id, x: P.Worker, r: P.Reply)
    requires x.pc.Update? || x.pc.Insert?
    ensures var y := P.Write(g, w, x, r).x;
            && y.pc == (if x.pc.Update? then P.Insert else P.Decide)
            && y.answer == x.answer && y.isSuc == (x.isSuc && r == P.Ok)
  {
  }

  /** What the others make of s while w does nothing. */
  function Disturbed(s: P.State, w: P.Id, es: seq<P.Event>): P.State {
    if ByOthers(es, w) && P.Legal(s, es) then P.After(s, es) else s
  }

  lemma OthersOnly(s: P.State, w: P.Id, es: seq<P.Event>)
    requires P.Reachable(s) && w in s.workers
    ensures var t := Disturbed(s, w, es); P.Reachable(t) && w in t.workers && t.workers[w] == s.workers[w]
  {
    if ByOthers(es, w) && P.Legal(s, es) { OthersLeave(s, es, w); }
  }

  /** The command of w ends as wished, if it can. */
  function Outcome(s: P.State, w: P.Id, pc: P.Pc, wish: P.Reply): P.Reply {
    if P.CanAct(s, w, wish) then wish else Refusal(pc)
  }

  /** How many commands the holder of the process lock issues until it gives it back. */
  function HolderLeft(s: P.State): nat {
    match s.g.proc.rwlock
    case None => 0
    case Some(v) => if v in s.workers then L.Rank(s.workers[v].pc) + 1 else 0
  }

  /** The holder of the lock waits for nobody, and comes nearer to giving it back with every
      command, however that ends. */
  lemma HolderGoesOn(s: P.State, w: P.Id, r: P.Reply)
    requires P.Reachable(s) && w in s.workers && WaitsForLock(s.workers[w].pc) && s.g.proc.rwlock.Some?
    ensures var v := s.g.proc.rwlock.value;
            && v != w && P.CanAct(s, v, r)
            && var t := P.Command(s, v, r);
               P.Reachable(t) && w in t.workers && t.workers[w] == s.workers[w] && HolderLeft(t) < HolderLeft(s)
  {
    var v := s.g.proc.rwlock.value;
    T.ReachableOwners(s);
    T.ReachableWorker(s, v);
    T.ReachableWorker(s, w);
    T.ReachStep(s, P.Act(v, r));
    HolderStep(s.g, v, s.workers[v], r);
    hide P.Issue, P.Reachable, P.Possible, WorkerInv;
  }

  predicate GoesOn(v: P.Id, x: P.Worker, e: P.Effect) {
    e.g.proc.rwlock == None || (e.g.proc.rwlock == Some(v) && L.Rank(e.x.pc) < L.Rank(x.pc))
  }

  lemma RefundGoesOn(g: P.Shared, v: P.Id, x: P.Worker, r: P.Reply)
    requires (x.pc.RefundSet? || x.pc.RefundZero? || x.pc.RefundUnlock?) && g.proc.rwlock == Some(v)
    ensures GoesOn(v, x, P.Refund(g, v, x, r))
  {
  }

  lemma FailGoesOn(g: P.Shared, v: P.Id, x: P.Worker)
    requires (x.pc.FailInc? || x.pc.FailUnlock?) && g.proc.rwlock == Some(v)
    ensures GoesOn(v, x, P.Fail(g, v, x))
  {
  }

  lemma HolderStep(g: P.Shared, v: P.Id, x: P.Worker, r: P.Reply)
    requires InLock(x.pc) && g.proc.rwlock == Some(v)
    ensures P.Possible(g, x, r) && !P.ReadsOrderRow(x, r) && GoesOn(v, x, P.Issue(g, v, x, r))
  {
    hide GoesOn;
    if x.pc.FailInc? || x.pc.FailUnlock? { FailGoesOn(g, v, x); } else { RefundGoesOn(g, v, x, r); }
  }

  /** An outcome that nothing can rule out: the statements that may have to wait for a row
      can run into a timeout. */
  function Refusal(pc: P.Pc): P.Reply {
    if pc.CheckGot? || pc.Exec? || pc.Select? || pc.Insert? then P.Error else P.Ok
  }

  predicate ByOthers(es: seq<P.Event>, w: P.Id) {
    forall e | e in es :: !(e.Act? && e.w == w)
  }

  /** The others never touch what this request keeps to itself. */
  lemma {:induction false} OthersLeave(s: P.State, es: seq<P.Event>, w: P.Id)
    requires P.Reachable(s) && w in s.workers && ByOthers(es, w) && P.Legal(s, es)
    ensures var t := P.After(s, es);
            P.Reachable(t) && w in t.workers && t.workers[w] == s.workers[w]
    decreases |es|
  {
    if es != [] {
      OthersLeave(s, es[..|es| - 1], w);
      T.ReachStep(P.After(s, es[..|es| - 1]), es[|es| - 1]);
    }
  }

  predicate SameRequest(x: P.Worker, y: P.Worker) {
    y.usr == x.usr && y.key == x.key && y.redis == x.redis
  }

  /** The commands with one successor. */
  predicate OneWay(pc: P.Pc) {
    || pc.Watch? || pc.Decr? || pc.Hmset? || pc.SoldOut? || pc.RefundLock? || pc.RefundZero?
    || pc.RefundUnlock? || pc.Begin? || pc.CountSale? || pc.FailLock? || pc.FailInc?
    || pc.FailUnlock? || pc.Restore?
  }

  function Next(pc: P.Pc): P.Pc
    requires OneWay(pc)
  {
    match pc
    case Watch => P.Get
    case Decr => P.Hmset
    case Hmset => P.Exec
    case SoldOut => P.RefundLock
    case RefundLock => P.RefundSet
    case RefundZero => P.RefundUnlock
    case RefundUnlock => P.Done
    case Begin => P.Select
    case FailLock => P.FailInc
    case FailInc => P.FailUnlock
    case Restore => P.Done
    case _ => P.Restore
  }

  /** Past a command with one successor: what the program relies on afterwards. */
  predicate Onward(x: P.Worker, y: P.Worker, r: P.Reply)
    requires OneWay(x.pc)
  {
    && y.pc == Next(x.pc)
    && y.redis == x.redis && y.round == x.round + Indicator(x.pc.Watch?)
    && y.answer == (if x.pc.RefundUnlock? || x.pc.FailUnlock? then P.Zero else x.answer)
    && (x.pc.Watch? ==> y.watchOk == (r == P.Ok))
    && (x.pc.Begin? ==> y.isSuc)
  }

  lemma RefundOnward(g: P.Shared, w: P.Id, x: P.Worker, r: P.Reply)
    requires x.pc.SoldOut? || x.pc.RefundLock? || x.pc.RefundZero? || x.pc.RefundUnlock?
    ensures Onward(x, P.Refund(g, w, x, r).x, r)
  {
  }

  lemma FailOnward(g: P.Shared, w: P.Id, x: P.Worker, r: P.Reply)
    requires x.pc.FailLock? || x.pc.FailInc? || x.pc.FailUnlock?
    ensures Onward(x, P.Fail(g, w, x).x, r)
  {
  }

  lemma QueuedOnward(x: P.Worker, r: P.Reply)
    requires x.pc.Decr? || x.pc.Hmset?
    ensures Onward(x, P.Queueing(x, r), r)
  {
  }

  lemma OtherOnward(g: P.Shared, w: P.Id, x: P.Worker, r: P.Reply)
    requires x.pc.Watch? || x.pc.Begin? || x.pc.CountSale? || x.pc.Restore?
    requires P.Possible(g, x, r)
    ensures Onward(x, P.Issue(g, w, x, r).x, r)
  {
  }

  lemma OneWayOnward(g: P.Shared, w: P.Id, x: P.Worker, r: P.Reply)
    requires OneWay(x.pc) && P.Possible(g, x, r)
    ensures Onward(x, P.Issue(g, w, x, r).x, r)
  {
    hide Onward;
    if x.pc.SoldOut? || x.pc.RefundLock? || x.pc.RefundZero? || x.pc.RefundUnlock? {
      RefundOnward(g, w, x, r);
    } else if x.pc.FailLock? || x.pc.FailInc? || x.pc.FailUnlock? {
      FailOnward(g, w, x, r);
    } else if x.pc.Decr? || x.pc.Hmset? {
      QueuedOnward(x, r);
    } else {
      OtherOnward(g, w, x, r);
    }
  }

  /** Until an answer is set there is none, and no round has begun before the first. */
  lemma Unset(s: P.State, w: P.Id)
    requires P.Reachable(s) && w in s.workers
    ensures var x := s.workers[w];
            (x.answer == P.Unset <==> !(x.pc.CountSale? || x.pc.Restore? || x.pc.Done?)) &&
            (Checking(x.pc) ==> x.round == 0)
  {
    T.ReachableWorker(s, w);
  }
}
