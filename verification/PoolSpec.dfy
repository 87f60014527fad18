/** The connection pools as values: what a get and a close do to the queue of idle connections and
    to the set of connections that are handed out. */
module PoolSpec {
  import opened Base

  type Conn = nat

  /** idle is the queue; held, made, closed and peak are history: the connections handed
      out, how many were made and closed, and the largest number ever handed out. */
  datatype Pool = Pool(idle: seq<Conn>, held: set<Conn>, made: nat, closed: nat, peak: nat)

  const EMPTY := Pool([], {}, 0, 0, 0)

  datatype Given = Given(pool: Pool, conn: Option<Conn>)

  predicate Distinct(q: seq<Conn>) {
    forall i, j | 0 <= i < j < |q| :: q[i] != q[j]
  }

  /** Nothing is idle twice, or idle and handed out. */
  predicate Owned(p: Pool) {
    Distinct(p.idle) && forall c | c in p.idle :: c !in p.held
  }

  function HandOut(p: Pool, c: Conn): Pool {
    var held := p.held + {c};
    p.(held := held, peak := if |held| > p.peak then |held| else p.peak)
  }

  /** The queue without its longest prefix of connections that do not answer a ping. */
  function Live(q: seq<Conn>, dead: set<Conn>): seq<Conn> {
    if q == [] || q[0] !in dead then q else Live(q[1..], dead)
  }

  /** Live removes exactly the longest dead prefix, and keeps the order of the rest. */
  lemma {:induction false} LiveIsSuffix(q: seq<Conn>, dead: set<Conn>)
    ensures |Live(q, dead)| <= |q| && Live(q, dead) == q[|q| - |Live(q, dead)|..]
    ensures forall i | 0 <= i < |q| - |Live(q, dead)| :: q[i] in dead
    ensures Live(q, dead) != [] ==> Live(q, dead)[0] !in dead
  {
    if q != [] && q[0] in dead {
      LiveIsSuffix(q[1..], dead);
      assert q == [q[0]] + q[1..];
    }
  }

  /** Connecting: connected is the outcome, a handle that is not in use. */
  function Open(p: Pool, connected: Option<Conn>): Given {
    match connected
    case None => Given(p, None)
    case Some(c) => Given(HandOut(p, c).(made := p.made + 1), connected)
  }

  /** A get from a pool that pings the idle connections and counts what is open. */
  function MysqlGet(p: Pool, max: nat, dead: set<Conn>, connected: Option<Conn>): Given {
    var live := Live(p.idle, dead);
    LiveIsSuffix(p.idle, dead);
    var purged := p.(idle := live, closed := p.closed + |p.idle| - |live|);
    if live != [] then
      Given(HandOut(purged.(idle := live[1..]), live[0]), Some(live[0]))
    else if |p.held| < max then
      Open(purged, connected)
    else
      Given(purged, None)
  }

  /** A get from a pool that neither pings nor counts. */
  function RedisGet(p: Pool, max: nat, connected: Option<Conn>): Given {
    if p.idle != [] then
      Given(HandOut(p.(idle := p.idle[1..]), p.idle[0]), Some(p.idle[0]))
    else if 0 < max then
      Open(p, connected)
    else
      Given(p, None)
  }

  /** Giving back; a null connection is ignored. */
  function Close(p: Pool, conn: Option<Conn>): Pool {
    match conn
    case None => p
    case Some(c) => p.(idle := p.idle + [c], held := p.held - {c})
  }

  // ---------------------------------------------------------------- runs

  datatype Op = Get(dead: set<Conn>, connected: Option<Conn>) | Back(conn: Option<Conn>)

  /** A new connection is not one in use, and whoever gives a connection back holds it. */
  predicate Allowed(p: Pool, op: Op) {
    match op
    case Get(_, connected) => connected.Some? ==> connected.value !in p.idle && connected.value !in p.held
    case Back(conn) => conn.Some? ==> conn.value in p.held
  }

  function Run(mysql: bool, p: Pool, max: nat, op: Op): Pool {
    match op
    case Get(dead, connected) =>
      if mysql then MysqlGet(p, max, dead, connected).pool else RedisGet(p, max, connected).pool
    case Back(conn) => Close(p, conn)
  }

  predicate AllowedAll(mysql: bool, max: nat, ops: seq<Op>)
    decreases |ops|, 0
  {
    ops == [] ||
    (AllowedAll(mysql, max, ops[..|ops| - 1]) &&
     Allowed(RunAll(mysql, max, ops[..|ops| - 1]), ops[|ops| - 1]))
  }

  /** The pool after a sequence of gets and closes, starting from an empty one. */
  function RunAll(mysql: bool, max: nat, ops: seq<Op>): Pool
    requires AllowedAll(mysql, max, ops)
    decreases |ops|, 1
  {
    if ops == [] then EMPTY else Run(mysql, RunAll(mysql, max, ops[..|ops| - 1]), max, ops[|ops| - 1])
  }

  // ---------------------------------------------------------------- MySQL

  /** Open connections are idle or handed out, and at most max. */
  predicate MysqlInv(p: Pool, max: nat) {
    Owned(p) && p.made == p.closed + |p.idle| + |p.held| && |p.idle| + |p.held| <= max
  }

  lemma MysqlGetKeeps(p: Pool, max: nat, dead: set<Conn>, connected: Option<Conn>)
    requires MysqlInv(p, max) && Allowed(p, Get(dead, connected))
    ensures MysqlInv(MysqlGet(p, max, dead, connected).pool, max)
  {
    LiveIsSuffix(p.idle, dead);
  }

  lemma CloseKeeps(p: Pool, max: nat, conn: Option<Conn>)
    requires MysqlInv(p, max) && Allowed(p, Back(conn))
    ensures MysqlInv(Close(p, conn), max)
  {
    if conn.Some? { Without(p.held, conn.value); }
  }

  /** Over every sequence of gets and closes in which each holder returns its connection
      at most once, at most max connections are open, each of them idle once or held once. */
  lemma {:induction false} MysqlCap(max: nat, ops: seq<Op>)
    requires AllowedAll(true, max, ops)
    ensures MysqlInv(RunAll(true, max, ops), max)
    decreases |ops|
  {
    if ops != [] {
      var n := |ops| - 1;
      MysqlCap(max, ops[..n]);
      var p := RunAll(true, max, ops[..n]);
      match ops[n]
      case Get(dead, connected) => MysqlGetKeeps(p, max, dead, connected);
      case Back(conn) => CloseKeeps(p, max, conn);
    }
  }

  /** No connection comes back exactly if none of the idle ones is alive and either max
      are handed out or connecting fails. */
  lemma MysqlNullIff(p: Pool, max: nat, dead: set<Conn>, connected: Option<Conn>)
    ensures MysqlGet(p, max, dead, connected).conn == None <==>
            (forall c | c in p.idle :: c in dead) && (|p.held| >= max || connected == None)
  {
    LiveIsSuffix(p.idle, dead);
    var k := |p.idle| - |Live(p.idle, dead)|;
    if Live(p.idle, dead) != [] {
      assert p.idle[k] !in dead;
    }
  }

  /** A get hands out the first idle connection that is alive, closes those before it, and
      leaves those behind it. */
  lemma MysqlGivesFirstAlive(p: Pool, max: nat, dead: set<Conn>, connected: Option<Conn>, k: nat)
    requires k < |p.idle| && p.idle[k] !in dead && forall i | 0 <= i < k :: p.idle[i] in dead
    ensures var given := MysqlGet(p, max, dead, connected);
            && given.conn == Some(p.idle[k]) && given.pool.idle == p.idle[k + 1..]
            && given.pool.held == p.held + {p.idle[k]}
            && given.pool.made == p.made && given.pool.closed == p.closed + k
  {
    FirstAlive(p.idle, dead, k);
  }

  lemma {:induction false} FirstAlive(q: seq<Conn>, dead: set<Conn>, k: nat)
    requires k < |q| && q[k] !in dead && forall i | 0 <= i < k :: q[i] in dead
    ensures Live(q, dead) == q[k..]
  {
    if k > 0 { FirstAlive(q[1..], dead, k - 1); }
  }

  /** If none of them is alive, all are closed, and a new connection is handed out if there
      is room for one and connecting succeeds. */
  lemma MysqlGivesNew(p: Pool, max: nat, dead: set<Conn>, connected: Option<Conn>)
    requires forall c | c in p.idle :: c in dead
    ensures var given := MysqlGet(p, max, dead, connected);
            && given.conn == (if |p.held| < max then connected else None) && given.pool.idle == []
            && given.pool.held == p.held + (if given.conn.Some? then {given.conn.value} else {})
            && given.pool.made == p.made + Indicator(given.conn.Some?)
            && given.pool.closed == p.closed + |p.idle|
  {
    NoneAlive(p.idle, dead);
  }

  lemma {:induction false} NoneAlive(q: seq<Conn>, dead: set<Conn>)
    requires forall c | c in q :: c in dead
    ensures Live(q, dead) == []
  {
    if q != [] {
      assert q[0] in q && forall c | c in q[1..] :: c in q;
      NoneAlive(q[1..], dead);
    }
  }

  /** What a get hands out is alive, or new. */
  lemma GivenIsAlive(p: Pool, max: nat, dead: set<Conn>, connected: Option<Conn>)
    ensures var conn := MysqlGet(p, max, dead, connected).conn;
            conn.Some? ==> (conn.value in p.idle && conn.value !in dead) || conn == connected
  {
    LiveIsSuffix(p.idle, dead);
    if Live(p.idle, dead) != [] {
      assert p.idle[|p.idle| - |Live(p.idle, dead)|] in p.idle;
    }
  }

  /** The first live connection is idle, so nobody holds it. */
  lemma LiveIsNew(p: Pool, dead: set<Conn>)
    requires Owned(p)
    ensures Live(p.idle, dead) != [] ==> Live(p.idle, dead)[0] !in p.held
  {
    LiveIsSuffix(p.idle, dead);
    var k := |p.idle| - |Live(p.idle, dead)|;
    if Live(p.idle, dead) != [] {
      assert p.idle[k] in p.idle;
    }
  }

  // ---------------------------------------------------------------- Redis

  /** Nothing is ever closed, and what is open is the most that was ever handed out. */
  predicate RedisInv(p: Pool) {
    Owned(p) && p.made == |p.idle| + |p.held| == p.peak && p.closed == 0
  }

  lemma RedisGetKeeps(p: Pool, max: nat, dead: set<Conn>, connected: Option<Conn>)
    requires RedisInv(p) && Allowed(p, Get(dead, connected))
    ensures RedisInv(RedisGet(p, max, connected).pool)
  {
  }

  lemma RedisCloseKeeps(p: Pool, conn: Option<Conn>)
    requires RedisInv(p) && Allowed(p, Back(conn))
    ensures RedisInv(Close(p, conn))
  {
    if conn.Some? { Without(p.held, conn.value); }
  }

  /** The pool opens exactly as many connections as were ever handed out at once. */
  lemma {:induction false} RedisHighWater(max: nat, ops: seq<Op>)
    requires AllowedAll(false, max, ops)
    ensures RedisInv(RunAll(false, max, ops))
    decreases |ops|
  {
    if ops != [] {
      var n := |ops| - 1;
      RedisHighWater(max, ops[..n]);
      var p := RunAll(false, max, ops[..n]);
      match ops[n]
      case Get(dead, connected) => RedisGetKeeps(p, max, dead, connected);
      case Back(conn) => RedisCloseKeeps(p, conn);
    }
  }

  /** A get hands out the front of the queue, or a new connection if the queue is empty. */
  lemma RedisGivesFront(p: Pool, max: nat, connected: Option<Conn>)
    ensures var given := RedisGet(p, max, connected);
            && (p.idle != [] ==> given.conn == Some(p.idle[0]) && p.idle == [p.idle[0]] + given.pool.idle &&
                                 given.pool.held == p.held + {p.idle[0]} && given.pool.made == p.made)
            && (p.idle == [] ==> given.conn == (if max > 0 then connected else None) && given.pool.idle == [] &&
                                 given.pool.made == p.made + Indicator(given.conn.Some?))
  {
  }

  /** n gets in a row, with n new connections. */
  function Gets(n: nat): seq<Op> {
    if n == 0 then [] else Gets(n - 1) + [Get({}, Some(n))]
  }

  /** The cap of this pool is never enforced: unless it is 0, any number of connections
      can be made and handed out. */
  lemma {:induction false} RedisHasNoCap(max: nat, n: nat)
    requires max > 0
    ensures AllowedAll(false, max, Gets(n))
    ensures var p := RunAll(false, max, Gets(n));
            p.idle == [] && p.made == n == |p.held| && forall c | c in p.held :: c <= n
  {
    if n > 0 {
      RedisHasNoCap(max, n - 1);
      GetsLength(n - 1);
      GetsLength(n);
      assert Gets(n)[..n - 1] == Gets(n - 1) && Gets(n)[n - 1] == Get({}, Some(n));
      OneMore(RunAll(false, max, Gets(n - 1)), max, n);
      hide Gets, Run, Allowed;
    }
  }

  lemma OneMore(p: Pool, max: nat, n: nat)
    requires max > 0 && n > 0
    requires p.idle == [] && p.made == n - 1 == |p.held| && forall c | c in p.held :: c <= n - 1
    ensures Allowed(p, Get({}, Some(n)))
    ensures var q := Run(false, p, max, Get({}, Some(n)));
            q.idle == [] && q.made == n == |q.held| && forall c | c in q.held :: c <= n
  {
    assert n !in p.held;
  }

  lemma GetsLength(n: nat)
    ensures |Gets(n)| == n
  {
  }

  lemma {:induction false} NothingMade(ops: seq<Op>)
    requires AllowedAll(false, 0, ops)
    ensures var p := RunAll(false, 0, ops); p.idle == [] && p.held == {} && p.made == 0
    decreases |ops|
  {
    if ops != [] { NothingMade(ops[..|ops| - 1]); }
  }

  /** The cap of this pool holds over every sequence of gets and closes exactly if it is 0. */
  lemma RedisCapIff(max: nat)
    ensures (forall ops | AllowedAll(false, max, ops) :: RunAll(false, max, ops).made <= max) <==> max == 0
  {
    if max == 0 {
      forall ops | AllowedAll(false, max, ops) ensures RunAll(false, max, ops).made <= max {
        NothingMade(ops);
      }
    } else {
      RedisHasNoCap(max, max + 1);
    }
  }

  // ---------------------------------------------------------------- first in, first out

  /** The connections given back in a run, in order. */
  function GivenBack(ops: seq<Op>): seq<Conn> {
    if ops == [] then [] else GivenBack(ops[..|ops| - 1]) + GivenBy(ops[|ops| - 1])
  }

  function GivenBy(op: Op): seq<Conn> {
    if op.Back? && op.conn.Some? then [op.conn.value] else []
  }

  /** What an operation takes out of use or hands out again: first as many connections as
      it closes, then the one it gives, unless that was made for it. */
  function TakenBy(mysql: bool, p: Pool, max: nat, op: Op): seq<Conn> {
    match op
    case Back(_) => []
    case Get(dead, connected) =>
      var given := if mysql then MysqlGet(p, max, dead, connected) else RedisGet(p, max, connected);
      var n := given.pool.closed - p.closed;
      (if 0 <= n <= |p.idle| then p.idle[..n] else []) +
      (if given.conn.Some? && given.pool.made == p.made then [given.conn.value] else [])
  }

  function Taken(mysql: bool, max: nat, ops: seq<Op>): seq<Conn>
    requires AllowedAll(mysql, max, ops)
    decreases |ops|
  {
    if ops == [] then [] else
      Taken(mysql, max, ops[..|ops| - 1]) +
      TakenBy(mysql, RunAll(mysql, max, ops[..|ops| - 1]), max, ops[|ops| - 1])
  }

  lemma MysqlTakesFront(p: Pool, max: nat, dead: set<Conn>, connected: Option<Conn>)
    ensures p.idle == TakenBy(true, p, max, Get(dead, connected)) + MysqlGet(p, max, dead, connected).pool.idle
  {
    LiveIsSuffix(p.idle, dead);
    var live := Live(p.idle, dead);
    var n := |p.idle| - |live|;
    assert p.idle == p.idle[..n] + live;
    if live != [] {
      assert live == [live[0]] + live[1..];
    }
  }

  lemma RedisTakesFront(p: Pool, max: nat, dead: set<Conn>, connected: Option<Conn>)
    ensures p.idle == TakenBy(false, p, max, Get(dead, connected)) + RedisGet(p, max, connected).pool.idle
  {
    assert TakenBy(false, p, max, Get(dead, connected)) == (if p.idle != [] then [p.idle[0]] else []) by {
      assert p.idle[..0] == [];
    }
    RedisGivesFront(p, max, connected);
    hide TakenBy, RedisGet;
  }

  /** Both pools are first in, first out: over every sequence of gets and closes, what was
      taken from the queue and then what is in it is what was given back, in that order. */
  lemma {:induction false} FirstInFirstOut(mysql: bool, max: nat, ops: seq<Op>)
    requires AllowedAll(mysql, max, ops)
    ensures GivenBack(ops) == Taken(mysql, max, ops) + RunAll(mysql, max, ops).idle
    decreases |ops|
  {
    if ops != [] {
      var n := |ops| - 1;
      FirstInFirstOut(mysql, max, ops[..n]);
      var p := RunAll(mysql, max, ops[..n]);
      QueueStep(mysql, p, max, ops[n]);
      hide Run, TakenBy, GivenBy, Allowed;
      Regroup(Taken(mysql, max, ops[..n]), p.idle, GivenBy(ops[n]),
              TakenBy(mysql, p, max, ops[n]), Run(mysql, p, max, ops[n]).idle);
    }
  }

  lemma Regroup(taken: seq<Conn>, idle: seq<Conn>, back: seq<Conn>, out: seq<Conn>, rest: seq<Conn>)
    requires idle + back == out + rest
    ensures taken + idle + back == taken + out + rest
  {
    assert taken + idle + back == taken + (idle + back);
    assert taken + out + rest == taken + (out + rest);
  }

  lemma QueueStep(mysql: bool, p: Pool, max: nat, op: Op)
    ensures p.idle + GivenBy(op) == TakenBy(mysql, p, max, op) + Run(mysql, p, max, op).idle
  {
    match op
    case Get(dead, connected) =>
      if mysql { MysqlTakesFront(p, max, dead, connected); } else { RedisTakesFront(p, max, dead, connected); }
      hide MysqlGet, RedisGet, TakenBy;
    case Back(conn) =>
  }

  // ---------------------------------------------------------------- the high-water mark

  lemma {:induction false} PeakIsReached(mysql: bool, max: nat, ops: seq<Op>) returns (n: nat)
    requires AllowedAll(mysql, max, ops)
    ensures n <= |ops| && AllowedAll(mysql, max, ops[..n])
    ensures |RunAll(mysql, max, ops[..n]).held| == RunAll(mysql, max, ops).peak
    decreases |ops|
  {
    n := |ops|;
    assert ops[..n] == ops;
    if ops != [] && |RunAll(mysql, max, ops).held| != RunAll(mysql, max, ops).peak {
      n := PeakIsReached(mysql, max, ops[..|ops| - 1]);
      assert ops[..|ops| - 1][..n] == ops[..n];
    }
  }

  lemma PeakStep(mysql: bool, p: Pool, max: nat, op: Op)
    requires |p.held| <= p.peak
    ensures var q := Run(mysql, p, max, op); |q.held| <= q.peak && p.peak <= q.peak
  {
    if op.Back? && op.conn.Some? { Without(p.held, op.conn.value); }
  }

  lemma {:induction false} HeldAtMostPeak(mysql: bool, max: nat, ops: seq<Op>)
    requires AllowedAll(mysql, max, ops)
    ensures |RunAll(mysql, max, ops).held| <= RunAll(mysql, max, ops).peak
    decreases |ops|
  {
    if ops != [] {
      HeldAtMostPeak(mysql, max, ops[..|ops| - 1]);
      PeakStep(mysql, RunAll(mysql, max, ops[..|ops| - 1]), max, ops[|ops| - 1]);
      hide Run, Allowed;
    }
  }

  /** The peak is no less than what is handed out at any moment of the run, and by
      PeakIsReached it is that number at some moment. */
  lemma {:induction false} PeakIsBound(mysql: bool, max: nat, ops: seq<Op>, n: nat)
    requires AllowedAll(mysql, max, ops) && n <= |ops|
    ensures AllowedAll(mysql, max, ops[..n])
    ensures |RunAll(mysql, max, ops[..n]).held| <= RunAll(mysql, max, ops).peak
    decreases |ops|
  {
    hide Run, Allowed;
    if n == |ops| {
      assert ops[..n] == ops;
      HeldAtMostPeak(mysql, max, ops);
    } else {
      var m := |ops| - 1;
      PeakIsBound(mysql, max, ops[..m], n);
      assert ops[..m][..n] == ops[..n];
      HeldAtMostPeak(mysql, max, ops[..m]);
      PeakStep(mysql, RunAll(mysql, max, ops[..m]), max, ops[m]);
    }
  }
}
