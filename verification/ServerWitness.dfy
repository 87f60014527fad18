/** A run of the server from beginning to end: one thread lets a request in, sells to it,
    answers it and cleans up. */
module ServerWitness {
  import opened Base
  import P = Purchase
  import opened S = Server
  import C = PoolSpec

  /** One registered user, one thread, one idle connection. */
  function Prepared(u: P.User, k: P.Key): State {
    State(P.Initial(map[u := k]), map[0 := Top], map[0 := Listening], 0, true, [],
          C.Pool([7], {}, 1, 0, 0), map[], 1)
  }

  /** The server while its only thread serves request 0. */
  function Serving(base: State, e: P.Effect): State {
    base.(p := P.State(e.g, map[0 := e.x]))
  }

  ghost predicate Runs(base: State, e: P.Effect) {
    base.threads == map[0 := Serve(0)] && Reachable(Serving(base, e))
  }

  /** Past the gate, on the work list, with a connection. */
  lemma LetsIn(u: P.User, k: P.Key) returns (s: State)
    ensures Reachable(s) && s.threads == map[0 := Hire(0)] && s.life == map[0 := Announced]
    ensures s.p == P.Initial(map[u := k]) && s.next == 1 && s.workList == 1 && s.answering && s.replies == []
    ensures s.pool == C.Pool([], {7}, 1, 0, 1) && s.conns == map[0 := 7]
  {
    s := Prepared(u, k);
    ReachStart(s);
    hide Reachable, Initial;
    s := GetsPast(s);
    s := Takes(s);
    s := Announces(s);
  }

  lemma Announces(s0: State) returns (s: State)
    requires Reachable(s0) && s0.threads == map[0 := Greet(0)] && s0.life == map[0 := Taken]
    ensures Reachable(s)
    ensures s == s0.(threads := map[0 := Hire(0)], life := map[0 := Announced], workList := s0.workList + 1)
  {
    hide Reachable;
    ReachNext(s0, 0, Push(true));
    s := Step(s0, 0, Push(true));
  }

  lemma GetsPast(s0: State) returns (s: State)
    requires Reachable(s0) && s0.threads == map[0 := Top] && s0.answering
    requires s0.workList + s0.p.g.proc.success < 50 && s0.p.g.proc.success >= 0
    ensures Reachable(s) && s == s0.(threads := map[0 := Past])
  {
    hide Reachable;
    ReachNext(s0, 0, LoopHead);
    s := Step(s0, 0, LoopHead);
    assert s.threads == map[0 := Ask];
    ReachNext(s, 0, Llen(true));
    s := Step(s, 0, Llen(true));
    assert s.threads == map[0 := Compare(s0.workList)];
    ReachNext(s, 0, Gate);
    s := Step(s, 0, Gate);
  }

  lemma Takes(s0: State) returns (s: State)
    requires Reachable(s0) && s0.threads == map[0 := Past] && s0.life == map[0 := Listening]
    requires s0.pool == C.Pool([7], {}, 1, 0, 0) && s0.conns == map[]
    ensures Reachable(s)
    ensures s == s0.(threads := map[0 := Greet(0)], life := map[0 := Taken],
                     pool := C.Pool([], {7}, 1, 0, 1), conns := map[0 := 7])
  {
    hide Reachable;
    var e := TakeRequest(0, {}, None);
    C.MysqlGivesFirstAlive(s0.pool, MYSQL_MAX_CONNECTCOUNT, {}, None, 0);
    assert |{7}| == 1;
    ReachNext(s0, 0, e);
    s := Step(s0, 0, e);
  }

  lemma Begins(u: P.User, k: P.Key) returns (base: State, e: P.Effect)
    ensures Runs(base, e) && e == P.Effect(P.Fresh(u, k, true), P.Initial(map[u := k]).g)
    ensures base.life == map[0 := Working, 1 := Listening] && base.next == 2
    ensures base.workList == 1 && base.answering && base.replies == []
    ensures base.pool == C.Pool([], {7}, 1, 0, 1) && base.conns == map[0 := 7]
  {
    var s := LetsIn(u, k);
    hide Reachable;
    ReachNext(s, 0, Spawn(u, k, true));
    base := Step(s, 0, Spawn(u, k, true));
    e := P.Effect(P.Fresh(u, k, true), s.p.g);
    assert base == Serving(base, e);
  }

  /** The next command of the request succeeds. */
  lemma Works(base: State, e: P.Effect) returns (f: P.Effect)
    requires Runs(base, e) && P.Possible(e.g, e.x, P.Ok)
    ensures f == P.Issue(e.g, 0, e.x, P.Ok) && Runs(base, f)
  {
    f := P.Issue(e.g, 0, e.x, P.Ok);
    hide Reachable, P.Issue, P.Possible;
    var s := Serving(base, e);
    ReachNext(s, 0, Work(P.Ok));
    assert map[0 := e.x][0 := f.x] == map[0 := f.x];
    assert Step(s, 0, Work(P.Ok)) == Serving(base, f);
  }

  lemma Checked(u: P.User, k: P.Key) returns (base: State, e: P.Effect)
    ensures Runs(base, e) && e.x.pc.Watch? && e.g == P.Initial(map[u := k]).g
    ensures e.x.usr == u && e.x.key == k && e.x.redis
    ensures base.life == map[0 := Working, 1 := Listening] && base.next == 2
    ensures base.workList == 1 && base.answering && base.replies == []
    ensures base.pool == C.Pool([], {7}, 1, 0, 1) && base.conns == map[0 := 7]
  {
    base, e := Begins(u, k);
    hide Runs;
    e := Works(base, e);
    assert e.x.pc.CheckGot?;
    e := Works(base, e);
  }

  lemma Reserved(base: State, e0: P.Effect) returns (e: P.Effect)
    requires Runs(base, e0) && e0.x.pc.Watch? && e0.x.redis && e0.g.redis.count > 0
    ensures Runs(base, e) && e.x.pc.Begin? && e.x.usr == e0.x.usr && e.x.key == e0.x.key
    ensures e.g.sql == e0.g.sql && e.g.proc == e0.g.proc
  {
    hide Runs;
    e := Works(base, e0);
    assert e.x.pc.Get?;
    e := Works(base, e);
    assert e.x.pc.Multi?;
    e := Queued(base, e);
    e := Works(base, e);
  }

  lemma Queued(base: State, e0: P.Effect) returns (e: P.Effect)
    requires Runs(base, e0) && e0.x.pc.Multi? && e0.x.watchOk && e0.x.watched == e0.g.redis.version
    ensures Runs(base, e) && e.g == e0.g && e.x == e0.x.(pc := P.Exec, queued := true)
  {
    hide Runs;
    e := Works(base, e0);
    assert e.x.pc.Decr?;
    e := Works(base, e);
    assert e.x.pc.Hmset?;
    e := Works(base, e);
  }

  lemma Written(base: State, e0: P.Effect) returns (e: P.Effect)
    requires Runs(base, e0) && e0.x.pc.Begin? && e0.g.sql == P.Sql(50, map[], None)
    ensures Runs(base, e) && e.x.pc.Decide? && e.x.isSuc && e.x.pendingStock == Some(49) && e.x.pendingOrder
    ensures e.x.usr == e0.x.usr && e.x.key == e0.x.key && e.g == e0.g.(sql := e0.g.sql.(goodsLock := Some(0)))
  {
    hide Runs;
    e := Works(base, e0);
    assert e.x.pc.Select?;
    e := Works(base, e);
    assert e.x.pc.Update?;
    e := Works(base, e);
    assert e.x.pc.Insert?;
    e := Works(base, e);
  }

  lemma Sold(base: State, e0: P.Effect) returns (e: P.Effect)
    requires Runs(base, e0) && e0.x.pc.Decide? && e0.x.isSuc && e0.x.pendingStock == Some(49) && e0.x.pendingOrder
    requires e0.g.sql == P.Sql(50, map[], Some(0)) && e0.g.proc.success == 0
    ensures Runs(base, e) && e.x.pc.Done? && e.x.answer == P.One
    ensures e.g.sql == P.Sql(49, map[e0.x.usr := e0.x.key], None) && e.g.proc.success == 1
  {
    hide Runs;
    e := Works(base, e0);
    assert e.x.pc.CountSale?;
    e := Works(base, e);
    assert e.x.pc.Restore?;
    e := Works(base, e);
  }

  lemma Sells(u: P.User, k: P.Key) returns (base: State, e: P.Effect)
    ensures Runs(base, e) && e.x.pc.Done? && e.x.answer == P.One
    ensures e.g.sql == P.Sql(49, map[u := k], None) && e.g.proc.success == 1
    ensures base.life == map[0 := Working, 1 := Listening] && base.next == 2
    ensures base.workList == 1 && base.answering && base.replies == []
    ensures base.pool == C.Pool([], {7}, 1, 0, 1) && base.conns == map[0 := 7]
  {
    base, e := Checked(u, k);
    hide Runs;
    e := Reserved(base, e);
    e := Written(base, e);
    e := Sold(base, e);
  }

  lemma Answers(base: State, e: P.Effect) returns (s: State)
    requires Runs(base, e) && e.x.pc.Done? && base.conns == map[0 := 7] && base.pool == C.Pool([], {7}, 1, 0, 1)
    ensures Reachable(s)
    ensures s == Serving(base, e).(threads := map[0 := Top], life := base.life[0 := Answered],
                                   replies := base.replies + [(0, e.x.answer)],
                                   pool := C.Pool([7], {}, 1, 0, 1), conns := map[])
  {
    hide Reachable;
    s := Serving(base, e);
    ReachNext(s, 0, Reply);
    assert map[0 := 7] - {0} == map[];
    assert {7} - {7} == {};
    s := Step(s, 0, Reply);
  }

  lemma CleansUp(s0: State) returns (s: State)
    requires Reachable(s0) && s0.threads == map[0 := Past] && s0.life == map[0 := Answered, 1 := Listening]
    requires s0.workList == 1
    ensures Reachable(s) && s == s0.(threads := map[0 := Top], life := map[1 := Listening], workList := 0)
  {
    hide Reachable;
    ReachNext(s0, 0, TakeFinish(0));
    s := Step(s0, 0, TakeFinish(0));
    assert s.threads == map[0 := Bury(0)];
    ReachNext(s, 0, Pop(true));
    assert map[0 := Leaving, 1 := Listening] - {0} == map[1 := Listening];
    s := Step(s, 0, Pop(true));
  }

  /** One thread on an empty work list lets a request in, sells to it, answers "1", gives
      its connection back, and deletes its Worker; the successor listens. */
  lemma OneThreadServes(u: P.User, k: P.Key) returns (s: State)
    ensures Reachable(s) && s.replies == [(0, P.One)]
    ensures s.p.g.sql == P.Sql(49, map[u := k], None) && s.p.g.proc.success == 1
    ensures s.threads == map[0 := Top] && s.life == map[1 := Listening]
    ensures s.workList == 0 && s.answering && s.pool.idle == [7] && s.pool.held == {} && s.conns == map[]
  {
    var base, e := Sells(u, k);
    s := Answers(base, e);
    hide Reachable, Runs;
    assert s.life == map[0 := Answered, 1 := Listening];
    s := GetsPast(s);
    s := CleansUp(s);
  }
}
