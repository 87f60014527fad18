/** The server around the purchase protocol: worker threads, the admission gate with its
    work list in Redis, and the life of a Worker object from listening to deletion. */
module Server {
  import opened Base
  import P = Purchase
  import I = PurchaseInvariant
  import T = PurchaseTheorems
  import C = PoolSpec

  type Id = P.Id
  type Tid = nat

  const WORKER_NUM := 20
  const MYSQL_MAX_CONNECTCOUNT := 30
  const TARGET := 50

  /** Where a thread stands in its endless loop. */
  datatype Phase =
    | Top                    // loop head
    | Ask                    // read sucNum_ < 50; LLEN work_list next
    | Compare(working: nat)  // LLEN answered; comparison with 50 - sucNum_ next
    | Past                   // through the gate, at cq_->Next
    | Greet(w: Id)           // took w with a request; LPUSH next
    | Hire(w: Id)            // announced w; new Worker next
    | Serve(w: Id)           // runs the purchase of w
    | Bury(w: Id)            // took the finish event of w; LPOP and delete next

  /** The life of a Worker object; a deleted one is no longer in the map. */
  datatype Life =
    | Listening  // registered for the next request
    | Taken      // has a request, not yet on the work list
    | Announced  // on the work list, no successor yet
    | Working    // successor listens, purchase under way
    | Answered   // Finish called, finish event queued
    | Leaving    // finish event taken

  datatype State = State(
    p: P.State,
    threads: map<Tid, Phase>,
    life: map<Id, Life>,
    workList: nat,                   // length of work_list in Redis
    answering: bool,                 // every LLEN, LPUSH and LPOP so far was answered
    replies: seq<(Id, P.Answer)>,    // responses handed to gRPC
    pool: C.Pool,                    // the MySQL connections
    conns: map<Tid, C.Conn>,         // which of them a thread has
    next: Id)                        // the next Worker object

  datatype Event =
    | LoopHead
    | Llen(ok: bool)
    | Gate
    | TakeRequest(w: Id, dead: set<C.Conn>, connected: Option<C.Conn>)
    | TakeFinish(w: Id)
    | Push(ok: bool)
    | Spawn(usr: P.User, key: P.Key, redis: bool)
    | Work(reply: P.Reply)
    | Reply
    | Pop(ok: bool)

  /** One Worker listens, the threads are at the head of their loop, and no connection is
      handed out. */
  predicate Initial(s: State) {
    && s.p == P.Initial(s.p.g.registered)
    && |s.threads| <= WORKER_NUM && (forall t | t in s.threads :: s.threads[t].Top?)
    && s.life == map[0 := Listening] && s.next == 1
    && s.workList == 0 && s.answering && s.replies == []
    && C.MysqlInv(s.pool, MYSQL_MAX_CONNECTCOUNT) && s.pool.held == {} && s.conns == map[]
  }

  /** Which events thread t can go through now. */
  predicate CanStep(s: State, t: Tid, e: Event) {
    t in s.threads &&
    match s.threads[t]
    case Top => e.LoopHead?
    case Ask => e.Llen?
    case Compare(_) => e.Gate?
    case Past =>
      || (e.TakeRequest? && e.w in s.life && s.life[e.w].Listening? &&
          C.Allowed(s.pool, C.Get(e.dead, e.connected)))
      || (e.TakeFinish? && e.w in s.life && s.life[e.w].Answered?)
    case Greet(_) => e.Push?
    case Hire(w) => e.Spawn? && w !in s.p.workers
    case Serve(w) =>
      || (e.Work? && P.CanAct(s.p, w, e.reply))
      || (e.Reply? && w in s.p.workers && s.p.workers[w].pc.Done?)
    case Bury(_) => e.Pop?
  }

  function Goto(s: State, t: Tid, phase: Phase): State {
    s.(threads := s.threads[t := phase])
  }

  function Mark(s: State, w: Id, life: Life): State {
    s.(life := s.life[w := life])
  }

  /** mysql_->getOneConnect() for thread t. */
  function Connect(s: State, t: Tid, dead: set<C.Conn>, connected: Option<C.Conn>): State {
    var given := C.MysqlGet(s.pool, MYSQL_MAX_CONNECTCOUNT, dead, connected);
    s.(pool := given.pool, conns := if given.conn.Some? then s.conns[t := given.conn.value] else s.conns)
  }

  /** mysql_->close() of what thread t has. */
  function Disconnect(s: State, t: Tid): State {
    s.(pool := C.Close(s.pool, if t in s.conns then Some(s.conns[t]) else None), conns := s.conns - {t})
  }

  /** The gate: LLEN is read first and sucNum_ again at the comparison. */
  function GateStep(s: State, t: Tid, e: Event): State
    requires CanStep(s, t, e) && (s.threads[t].Top? || s.threads[t].Ask? || s.threads[t].Compare?)
  {
    match s.threads[t]
    case Top => Goto(s, t, if s.p.g.proc.success < TARGET then Ask else Past)
    case Ask =>
      if e.ok then Goto(s, t, Compare(s.workList)) else Goto(s, t, Past).(answering := false)
    case Compare(n) => Goto(s, t, if n >= TARGET - s.p.g.proc.success then Top else Past)
  }

  /** A dequeued request: announce it, then let a successor listen. */
  function AcceptStep(s: State, t: Tid, e: Event): State
    requires CanStep(s, t, e) && (s.threads[t].Past? || s.threads[t].Greet? || s.threads[t].Hire?)
  {
    match s.threads[t]
    case Past =>
      if e.TakeRequest? then Connect(Mark(Goto(s, t, Greet(e.w)), e.w, Taken), t, e.dead, e.connected)
      else Mark(Goto(s, t, Bury(e.w)), e.w, Leaving)
    case Greet(w) =>
      var told := Mark(Goto(s, t, Hire(w)), w, Announced);
      if e.ok then told.(workList := s.workList + 1) else told.(answering := false)
    case Hire(w) =>
      Mark(Mark(Goto(s, t, Serve(w)), w, Working), s.next, Listening)
        .(p := P.Apply(s.p, P.Arrive(w, e.usr, e.key, e.redis)), next := s.next + 1)
  }

  /** The purchase, the response, and after the finish event the deletion. */
  function ServeStep(s: State, t: Tid, e: Event): State
    requires CanStep(s, t, e) && (s.threads[t].Serve? || s.threads[t].Bury?)
  {
    match s.threads[t]
    case Serve(w) =>
      if e.Work? then s.(p := P.Command(s.p, w, e.reply))
      else Disconnect(Mark(Goto(s, t, Top), w, Answered), t).(replies := s.replies + [(w, s.p.workers[w].answer)])
    case Bury(w) =>
      var left := Goto(s, t, Top).(life := s.life - {w});
      if e.ok then left.(workList := if s.workList > 0 then s.workList - 1 else 0)
      else left.(answering := false)
  }

  function Step(s: State, t: Tid, e: Event): State
    requires CanStep(s, t, e)
  {
    var ph := s.threads[t];
    if ph.Top? || ph.Ask? || ph.Compare? then GateStep(s, t, e)
    else if ph.Past? || ph.Greet? || ph.Hire? then AcceptStep(s, t, e)
    else ServeStep(s, t, e)
  }

  // ---------------------------------------------------------------- the invariant

  /** The Worker a thread is in the middle of. */
  predicate OnThread(phase: Phase, w: Id) {
    (phase.Greet? || phase.Hire? || phase.Serve? || phase.Bury?) && phase.w == w
  }

  /** What the phase of a thread says about the life of its Worker. */
  predicate PhaseInv(life: map<Id, Life>, phase: Phase) {
    match phase
    case Greet(w) => w in life && life[w].Taken?
    case Hire(w) => w in life && life[w].Announced?
    case Serve(w) => w in life && life[w].Working?
    case Bury(w) => w in life && life[w].Leaving?
    case _ => true
  }

  /** Threads work on different Workers. */
  ghost predicate ThreadsInv(threads: map<Tid, Phase>, life: map<Id, Life>) {
    && (forall t | t in threads :: PhaseInv(life, threads[t]))
    && (forall t, u, w | t in threads && u in threads ::
          OnThread(threads[t], w) && OnThread(threads[u], w) ==> t == u)
  }

  predicate Fresh(life: Life) {
    life.Listening? || life.Taken? || life.Announced?
  }

  predicate Finished(life: Life) {
    life.Answered? || life.Leaving?
  }

  /** The response of w was handed to gRPC: its Worker has answered, or is deleted. */
  predicate HasReplied(life: map<Id, Life>, w: Id) {
    w !in life || Finished(life[w])
  }

  /** Objects and requests: a request exists once its Worker has a successor; it is done
      once its Worker has answered, and stays so after the deletion. */
  predicate LifeInv(life: map<Id, Life>, workers: map<Id, P.Worker>, next: Id) {
    && (forall w | w in life :: w < next && (w in workers <==> !Fresh(life[w])))
    && (forall w | w in workers :: w < next && (HasReplied(life, w) ==> workers[w].pc.Done?))
  }

  /** Exactly one Worker listens, or has been dequeued and not yet replaced. */
  predicate ListenInv(life: map<Id, Life>) {
    CountIf(life, Fresh) == 1
  }

  predicate RepliedTo(replies: seq<(Id, P.Answer)>, w: Id) {
    exists i | 0 <= i < |replies| :: replies[i].0 == w
  }

  /** Each finished request was answered exactly once, with its final answer. */
  predicate RepliesInv(life: map<Id, Life>, workers: map<Id, P.Worker>, replies: seq<(Id, P.Answer)>) {
    && (forall i | 0 <= i < |replies| ::
          replies[i].0 in workers && HasReplied(life, replies[i].0) &&
          replies[i].1 == workers[replies[i].0].answer)
    && (forall i, j | 0 <= i < j < |replies| :: replies[i].0 != replies[j].0)
    && (forall w | w in workers && HasReplied(life, w) :: RepliedTo(replies, w))
  }

  predicate OnList(life: Life) {
    life.Announced? || life.Working? || life.Answered? || life.Leaving?
  }

  /** While Redis answers, work_list is as long as there are announced Workers. */
  predicate ListInv(s: State) {
    s.answering ==> s.workList == CountIf(s.life, OnList)
  }

  /** Requests under way, together with those that have won. */
  function Busy(life: map<Id, Life>, workers: map<Id, P.Worker>): set<Id> {
    Keys(life, OnList) + Keys(workers, I.Counted)
  }

  /** A thread past the gate, or sure to pass it, that has not yet announced a request. */
  predicate Pushing(phase: Phase, success: int) {
    match phase
    case Compare(n) => n + success < TARGET
    case Past => true
    case Greet(_) => true
    case _ => false
  }

  function PushingAt(success: int): Phase -> bool {
    phase => Pushing(phase, success)
  }

  function Pushers(threads: map<Tid, Phase>, success: int): set<Tid> {
    Keys(threads, PushingAt(success))
  }

  /** The admission bound. */
  predicate GateInv(s: State) {
    s.answering && s.p.g.proc.success < TARGET ==>
      |Busy(s.life, s.p.workers)| + |Pushers(s.threads, s.p.g.proc.success)| <= TARGET - 1 + WORKER_NUM
  }

  /** Everything but the purchase itself and the admission bound. */
  ghost predicate Shape(s: State) {
    && |s.threads| <= WORKER_NUM
    && ThreadsInv(s.threads, s.life) && LifeInv(s.life, s.p.workers, s.next) && ListenInv(s.life)
    && RepliesInv(s.life, s.p.workers, s.replies) && ListInv(s)
  }

  lemma InitialShape(s: State)
    requires Initial(s)
    ensures Shape(s) && GateInv(s)
  {
    assert Keys(s.life, Fresh) == {0};
    assert Keys(s.life, OnList) == {};
    assert Busy(s.life, s.p.workers) == {};
    assert Pushers(s.threads, s.p.g.proc.success) == {};
  }

  // ---------------------------------------------------------------- every step

  /** Moving thread t to another phase, with the life of w changed to match. */
  lemma MoveThread(threads: map<Tid, Phase>, life: map<Id, Life>, t: Tid, phase: Phase, other: map<Id, Life>, w: Id)
    requires ThreadsInv(threads, life) && t in threads
    requires forall v | v in life && v != w :: v in other && other[v] == life[v]
    requires PhaseInv(other, phase)
    requires OnThread(threads[t], w) || (w in life && (life[w].Listening? || life[w].Answered?))
    requires forall v :: OnThread(phase, v) ==> v == w
    ensures ThreadsInv(threads[t := phase], other) && |threads[t := phase]| == |threads|
  {
    assert threads[t := phase].Keys == threads.Keys;
    forall u | u in threads && u != t ensures PhaseInv(other, threads[u]) && !OnThread(threads[u], w) {
      PhaseStays(life, other, threads[u], w);
    }
  }

  lemma PhaseStays(life: map<Id, Life>, other: map<Id, Life>, phase: Phase, w: Id)
    requires PhaseInv(life, phase)
    requires forall v | v in life && v != w :: v in other && other[v] == life[v]
    ensures !OnThread(phase, w) ==> PhaseInv(other, phase)
    ensures w in life && (life[w].Listening? || life[w].Answered?) ==> !OnThread(phase, w)
  {
  }

  /** The gate touches neither requests nor Workers. */
  lemma GateStepKeeps(s: State, t: Tid, e: Event)
    requires Shape(s) && CanStep(s, t, e) && (s.threads[t].Top? || s.threads[t].Ask? || s.threads[t].Compare?)
    ensures Shape(GateStep(s, t, e))
  {
    var n := GateStep(s, t, e);
    assert PhaseInv(s.life, n.threads[t]);
    Roam(s.threads, s.life, t, n.threads[t]);
    hide LifeInv, RepliesInv, ThreadsInv, ListenInv, PhaseInv, OnThread;
  }

  /** A thread that works for no Worker. */
  lemma Roam(threads: map<Tid, Phase>, life: map<Id, Life>, t: Tid, phase: Phase)
    requires ThreadsInv(threads, life) && t in threads && (phase.Top? || phase.Ask? || phase.Compare? || phase.Past?)
    ensures ThreadsInv(threads[t := phase], life) && |threads[t := phase]| == |threads|
  {
    assert threads[t := phase].Keys == threads.Keys;
  }

  /** A new life that is as fresh and as finished as the old one changes no request. */
  lemma Relabel(life: map<Id, Life>, workers: map<Id, P.Worker>, next: Id, replies: seq<(Id, P.Answer)>,
                w: Id, l: Life)
    requires LifeInv(life, workers, next) && ListenInv(life) && RepliesInv(life, workers, replies)
    requires w in life && Fresh(l) == Fresh(life[w]) && Finished(l) == Finished(life[w])
    ensures LifeInv(life[w := l], workers, next) && ListenInv(life[w := l])
    ensures RepliesInv(life[w := l], workers, replies)
  {
    CountIfUpdate(life, w, l, Fresh);
    forall v ensures HasReplied(life[w := l], v) == HasReplied(life, v) { }
  }

  /** Taking a request or a finish event off the completion queue. */
  lemma TakeKeeps(s: State, t: Tid, e: Event)
    requires Shape(s) && CanStep(s, t, e) && s.threads[t].Past?
    ensures Shape(AcceptStep(s, t, e))
  {
    var n := AcceptStep(s, t, e);
    MoveThread(s.threads, s.life, t, n.threads[t], n.life, e.w);
    Relabel(s.life, s.p.workers, s.next, s.replies, e.w, n.life[e.w]);
    CountIfUpdate(s.life, e.w, n.life[e.w], OnList);
  }

  lemma PushKeeps(s: State, t: Tid, e: Event)
    requires Shape(s) && CanStep(s, t, e) && s.threads[t].Greet?
    ensures Shape(AcceptStep(s, t, e))
  {
    var n := AcceptStep(s, t, e);
    var w := s.threads[t].w;
    assert PhaseInv(s.life, s.threads[t]);
    MoveThread(s.threads, s.life, t, n.threads[t], n.life, w);
    Relabel(s.life, s.p.workers, s.next, s.replies, w, Announced);
    CountIfUpdate(s.life, w, Announced, OnList);
  }

  lemma SpawnKeeps(s: State, t: Tid, e: Event)
    requires Shape(s) && CanStep(s, t, e) && s.threads[t].Hire?
    ensures Shape(AcceptStep(s, t, e))
  {
    var n := AcceptStep(s, t, e);
    var w := s.threads[t].w;
    assert PhaseInv(s.life, s.threads[t]);
    MoveThread(s.threads, s.life, t, n.threads[t], n.life, w);
    Succeeded(s.life, s.p.workers, s.next, s.replies, w, n.p.workers);
    CountIfUpdate(s.life, w, Working, OnList);
    CountIfUpdate(s.life[w := Working], s.next, Listening, OnList);
    hide LifeInv, RepliesInv, ThreadsInv, ListenInv, PhaseInv, OnThread;
  }

  /** The request of w begins, and the next Worker listens. */
  lemma Succeeded(life: map<Id, Life>, workers: map<Id, P.Worker>, next: Id, replies: seq<(Id, P.Answer)>,
                  w: Id, more: map<Id, P.Worker>)
    requires LifeInv(life, workers, next) && ListenInv(life) && RepliesInv(life, workers, replies)
    requires w in life && life[w].Announced? && w !in workers
    requires w in more && more == workers[w := more[w]]
    ensures LifeInv(life[w := Working][next := Listening], more, next + 1)
    ensures ListenInv(life[w := Working][next := Listening])
    ensures RepliesInv(life[w := Working][next := Listening], more, replies)
  {
    var after := life[w := Working][next := Listening];
    CountIfUpdate(life, w, Working, Fresh);
    CountIfUpdate(life[w := Working], next, Listening, Fresh);
    forall v | v in workers ensures HasReplied(after, v) == HasReplied(life, v) { }
    assert !HasReplied(after, w);
  }

  lemma WorkKeeps(s: State, t: Tid, e: Event)
    requires Shape(s) && CanStep(s, t, e) && s.threads[t].Serve? && e.Work?
    ensures Shape(ServeStep(s, t, e))
  {
    assert PhaseInv(s.life, s.threads[t]);
  }

  lemma Answer(life: map<Id, Life>, workers: map<Id, P.Worker>, replies: seq<(Id, P.Answer)>, w: Id)
    requires RepliesInv(life, workers, replies)
    requires w in life && life[w].Working? && w in workers
    ensures RepliesInv(life[w := Answered], workers, replies + [(w, workers[w].answer)])
  {
    var n := replies + [(w, workers[w].answer)];
    assert n[|replies|].0 == w;
    forall v | v in workers && HasReplied(life[w := Answered], v) ensures RepliedTo(n, v) {
      if v != w {
        assert RepliedTo(replies, v);
        var i :| 0 <= i < |replies| && replies[i].0 == v;
        assert n[i].0 == v;
      }
    }
  }

  lemma ReplyKeeps(s: State, t: Tid, e: Event)
    requires Shape(s) && CanStep(s, t, e) && s.threads[t].Serve? && e.Reply?
    ensures Shape(ServeStep(s, t, e))
  {
    var n := ServeStep(s, t, e);
    var w := s.threads[t].w;
    assert PhaseInv(s.life, s.threads[t]);
    MoveThread(s.threads, s.life, t, n.threads[t], n.life, w);
    CountIfUpdate(s.life, w, Answered, OnList);
    Answer(s.life, s.p.workers, s.replies, w);
    AnswerEnds(s.life, s.p.workers, s.next, w);
    hide LifeInv, RepliesInv, ThreadsInv, ListenInv, PhaseInv, OnThread;
  }

  lemma AnswerEnds(life: map<Id, Life>, workers: map<Id, P.Worker>, next: Id, w: Id)
    requires LifeInv(life, workers, next) && ListenInv(life)
    requires w in life && life[w].Working? && w in workers && workers[w].pc.Done?
    ensures LifeInv(life[w := Answered], workers, next) && ListenInv(life[w := Answered])
  {
    CountIfUpdate(life, w, Answered, Fresh);
  }

  lemma PopKeeps(s: State, t: Tid, e: Event)
    requires Shape(s) && CanStep(s, t, e) && s.threads[t].Bury?
    ensures Shape(ServeStep(s, t, e))
  {
    var n := ServeStep(s, t, e);
    var w := s.threads[t].w;
    assert PhaseInv(s.life, s.threads[t]);
    MoveThread(s.threads, s.life, t, Top, n.life, w);
    Deleted(s.life, s.p.workers, s.next, s.replies, w);
    CountIfRemove(s.life, w, OnList);
    hide LifeInv, RepliesInv, ThreadsInv, ListenInv, PhaseInv, OnThread;
  }

  lemma Deleted(life: map<Id, Life>, workers: map<Id, P.Worker>, next: Id, replies: seq<(Id, P.Answer)>, w: Id)
    requires LifeInv(life, workers, next) && ListenInv(life) && RepliesInv(life, workers, replies)
    requires w in life && Finished(life[w])
    ensures LifeInv(life - {w}, workers, next) && ListenInv(life - {w})
    ensures RepliesInv(life - {w}, workers, replies)
  {
    CountIfRemove(life, w, Fresh);
    forall v | v in workers ensures HasReplied(life - {w}, v) == HasReplied(life, v) { }
  }

  // ---------------------------------------------------------------- the admission bound

  lemma PushersMove(threads: map<Tid, Phase>, success: int, t: Tid, phase: Phase)
    requires t in threads
    ensures |Pushers(threads[t := phase], success)|
         == |Pushers(threads, success)| - Indicator(Pushing(threads[t], success)) + Indicator(Pushing(phase, success))
  {
    CountIfUpdate(threads, t, phase, PushingAt(success));
  }

  lemma PushersAtMost(threads: map<Tid, Phase>, success: int)
    ensures |Pushers(threads, success)| <= |threads|
  {
    SubsetSize(Pushers(threads, success), threads.Keys);
  }

  /** Asking Redis: whoever is sure to pass found at most TARGET - 1 requests under way or won. */
  lemma AskKeepsGate(s: State, t: Tid, e: Event)
    requires Shape(s) && GateInv(s) && CanStep(s, t, e) && s.threads[t].Ask?
    requires s.p.g.proc.success == CountIf(s.p.workers, I.Counted)
    ensures GateInv(GateStep(s, t, e))
  {
    var n := GateStep(s, t, e);
    PushersMove(s.threads, s.p.g.proc.success, t, n.threads[t]);
    PushersAtMost(n.threads, s.p.g.proc.success);
    assert n.threads.Keys == s.threads.Keys;
    UnionSize(Keys(s.life, OnList), Keys(s.p.workers, I.Counted));
    hide Pushers, Keys, ThreadsInv, LifeInv, ListenInv, RepliesInv;
  }

  lemma UnionSize<T>(a: set<T>, b: set<T>)
    ensures |a + b| <= |a| + |b|
  {
    SubsetSize(b - a, b);
    assert a + b == a + (b - a);
  }

  lemma GateKeepsGate(s: State, t: Tid, e: Event)
    requires GateInv(s) && CanStep(s, t, e) && (s.threads[t].Top? || s.threads[t].Compare?)
    ensures GateInv(GateStep(s, t, e))
  {
    PushersMove(s.threads, s.p.g.proc.success, t, GateStep(s, t, e).threads[t]);
  }

  lemma TakeKeepsGate(s: State, t: Tid, e: Event)
    requires GateInv(s) && CanStep(s, t, e) && s.threads[t].Past?
    ensures GateInv(AcceptStep(s, t, e))
  {
    var n := AcceptStep(s, t, e);
    PushersMove(s.threads, s.p.g.proc.success, t, n.threads[t]);
    assert Keys(n.life, OnList) == Keys(s.life, OnList);
  }

  lemma BusyAnnounced(life: map<Id, Life>, workers: map<Id, P.Worker>, w: Id)
    ensures |Busy(life[w := Announced], workers)| <= |Busy(life, workers)| + 1
  {
    SubsetSize(Busy(life[w := Announced], workers), Busy(life, workers) + {w});
    UnionSize(Busy(life, workers), {w});
  }

  lemma PushKeepsGate(s: State, t: Tid, e: Event)
    requires GateInv(s) && CanStep(s, t, e) && s.threads[t].Greet?
    ensures GateInv(AcceptStep(s, t, e))
  {
    var n := AcceptStep(s, t, e);
    var w := s.threads[t].w;
    PushersMove(s.threads, s.p.g.proc.success, t, Hire(w));
    BusyAnnounced(s.life, s.p.workers, w);
    hide Busy, Pushers, CanStep;
  }

  lemma SpawnIs(s: State, t: Tid, e: Event)
    requires Shape(s) && CanStep(s, t, e) && s.threads[t].Hire?
    ensures var w, n := s.threads[t].w, AcceptStep(s, t, e);
            && w in s.life && s.life[w].Announced? && w !in s.p.workers && s.next !in s.life
            && n.life == s.life[w := Working][s.next := Listening] && n.threads == s.threads[t := Serve(w)]
            && w in n.p.workers && n.p.workers == s.p.workers[w := n.p.workers[w]] && !I.Counted(n.p.workers[w])
            && n.p.g == s.p.g && n.answering == s.answering
  {
    assert PhaseInv(s.life, s.threads[t]);
  }

  lemma SpawnKeepsGate(s: State, t: Tid, e: Event)
    requires Shape(s) && GateInv(s) && CanStep(s, t, e) && s.threads[t].Hire?
    ensures GateInv(AcceptStep(s, t, e))
  {
    var n := AcceptStep(s, t, e);
    var w := s.threads[t].w;
    SpawnIs(s, t, e);
    PushersMove(s.threads, s.p.g.proc.success, t, Serve(w));
    BusyHired(s.life, s.p.workers, w, s.next, n.p.workers);
    hide Busy, Pushers, Shape, AcceptStep, CanStep, I.Counted;
  }

  /** Starting to work on a request, and letting a successor listen. */
  lemma BusyHired(life: map<Id, Life>, workers: map<Id, P.Worker>, w: Id, next: Id, more: map<Id, P.Worker>)
    requires w in life && life[w].Announced? && next !in life && w !in workers
    requires w in more && more == workers[w := more[w]] && !I.Counted(more[w])
    ensures Busy(life[w := Working][next := Listening], more) == Busy(life, workers)
  {
    assert Keys(life[w := Working][next := Listening], OnList) == Keys(life, OnList);
    assert Keys(more, I.Counted) == Keys(workers, I.Counted);
  }

  lemma SuccessGrows(g: P.Shared, w: Id, x: P.Worker, r: P.Reply)
    requires I.WorkerInv(g, w, x) && P.Possible(g, x, r)
    ensures P.Issue(g, w, x, r).g.proc.success >= g.proc.success
    ensures I.Counted(P.Issue(g, w, x, r).x) ==> I.Counted(x) || P.Issue(g, w, x, r).g.proc.success == g.proc.success + 1
  {
    I.IssueAccounts(g, w, x, r);
  }

  lemma WorkKeepsGate(s: State, t: Tid, e: Event)
    requires Shape(s) && GateInv(s) && CanStep(s, t, e) && s.threads[t].Serve? && e.Work?
    requires I.WorkerInv(s.p.g, s.threads[t].w, s.p.workers[s.threads[t].w])
    ensures GateInv(ServeStep(s, t, e))
  {
    var n := ServeStep(s, t, e);
    var w := s.threads[t].w;
    assert PhaseInv(s.life, s.threads[t]);
    SuccessGrows(s.p.g, w, s.p.workers[w], e.reply);
    SubsetSize(Pushers(n.threads, n.p.g.proc.success), Pushers(s.threads, s.p.g.proc.success));
    assert w in Keys(s.life, OnList);
    SubsetSize(Busy(n.life, n.p.workers), Busy(s.life, s.p.workers));
  }

  lemma BusyWithout(life: map<Id, Life>, workers: map<Id, P.Worker>, w: Id)
    ensures |Busy(life - {w}, workers)| <= |Busy(life, workers)|
  {
    SubsetSize(Busy(life - {w}, workers), Busy(life, workers));
  }

  lemma BusyAnswered(life: map<Id, Life>, workers: map<Id, P.Worker>, w: Id)
    requires w in life && OnList(life[w])
    ensures Busy(life[w := Answered], workers) == Busy(life, workers)
  {
  }

  lemma PopIs(s: State, t: Tid, e: Event)
    requires CanStep(s, t, e) && s.threads[t].Bury?
    ensures var n := ServeStep(s, t, e);
            && n.p == s.p && n.threads == s.threads[t := Top] && n.life == s.life - {s.threads[t].w}
            && (n.answering ==> s.answering)
  {
  }

  lemma PopKeepsGate(s: State, t: Tid, e: Event)
    requires GateInv(s) && CanStep(s, t, e) && s.threads[t].Bury?
    ensures GateInv(ServeStep(s, t, e))
  {
    PopIs(s, t, e);
    hide ServeStep, CanStep;
    PushersMove(s.threads, s.p.g.proc.success, t, Top);
    BusyWithout(s.life, s.p.workers, s.threads[t].w);
    hide Busy, Pushers;
  }

  lemma ReplyKeepsGate(s: State, t: Tid, e: Event)
    requires Shape(s) && GateInv(s) && CanStep(s, t, e) && s.threads[t].Serve? && e.Reply?
    ensures GateInv(ServeStep(s, t, e))
  {
    assert PhaseInv(s.life, s.threads[t]);
    PushersMove(s.threads, s.p.g.proc.success, t, Top);
    BusyAnswered(s.life, s.p.workers, s.threads[t].w);
    hide Busy, Pushers, Shape, C.Close;
  }

  lemma ShapeStep(s: State, t: Tid, e: Event)
    requires Shape(s) && CanStep(s, t, e)
    ensures Shape(Step(s, t, e))
  {
    match s.threads[t]
    case Top => GateStepKeeps(s, t, e);
    case Ask => GateStepKeeps(s, t, e);
    case Compare(_) => GateStepKeeps(s, t, e);
    case Past => TakeKeeps(s, t, e);
    case Greet(_) => PushKeeps(s, t, e);
    case Hire(_) => SpawnKeeps(s, t, e);
    case Serve(_) => if e.Work? { WorkKeeps(s, t, e); } else { ReplyKeeps(s, t, e); }
    case Bury(_) => PopKeeps(s, t, e);
  }

  lemma GateBoundStep(s: State, t: Tid, e: Event)
    requires Shape(s) && GateInv(s) && CanStep(s, t, e)
    requires s.p.g.proc.success == CountIf(s.p.workers, I.Counted)
    requires forall w | w in s.p.workers :: I.WorkerInv(s.p.g, w, s.p.workers[w])
    ensures GateInv(Step(s, t, e))
  {
    match s.threads[t]
    case Top => GateKeepsGate(s, t, e);
    case Ask => AskKeepsGate(s, t, e);
    case Compare(_) => GateKeepsGate(s, t, e);
    case Past => TakeKeepsGate(s, t, e);
    case Greet(_) => PushKeepsGate(s, t, e);
    case Hire(_) => SpawnKeepsGate(s, t, e);
    case Serve(_) => if e.Work? { WorkKeepsGate(s, t, e); } else { ReplyKeepsGate(s, t, e); }
    case Bury(_) => PopKeepsGate(s, t, e);
  }

  // ---------------------------------------------------------------- connections

  /** A thread holds a MySQL connection from the start of Proceed until Finish. */
  predicate HoldsConnection(phase: Phase) {
    phase.Greet? || phase.Hire? || phase.Serve?
  }

  /** The connections handed out are those of threads, each of one thread. */
  ghost predicate Linked(held: set<C.Conn>, conns: map<Tid, C.Conn>, threads: map<Tid, Phase>) {
    && |held| == |conns|
    && (forall t | t in conns :: t in threads && HoldsConnection(threads[t]) && conns[t] in held)
    && (forall t, u | t in conns && u in conns && conns[t] == conns[u] :: t == u)
    && (forall c | c in held :: HeldBySome(conns, c))
  }

  ghost predicate HeldBySome(conns: map<Tid, C.Conn>, c: C.Conn) {
    exists t :: t in conns && conns[t] == c
  }

  ghost predicate PoolInv(s: State) {
    C.MysqlInv(s.pool, MYSQL_MAX_CONNECTCOUNT) && Linked(s.pool.held, s.conns, s.threads)
  }

  lemma HeldStill(conns: map<Tid, C.Conn>, t: Tid, c: C.Conn, d: C.Conn)
    requires t !in conns && (d == c || HeldBySome(conns, d))
    ensures HeldBySome(conns[t := c], d)
  {
    if d == c {
      assert conns[t := c][t] == c;
    } else {
      var u :| u in conns && conns[u] == d;
      assert u in conns[t := c] && conns[t := c][u] == d;
    }
  }

  lemma LinkAdd(held: set<C.Conn>, conns: map<Tid, C.Conn>, threads: map<Tid, Phase>, t: Tid, phase: Phase, c: C.Conn)
    requires Linked(held, conns, threads) && t in threads && t !in conns && c !in held && HoldsConnection(phase)
    ensures Linked(held + {c}, conns[t := c], threads[t := phase])
  {
    forall d | d in held + {c} ensures HeldBySome(conns[t := c], d) {
      HeldStill(conns, t, c, d);
    }
  }

  lemma LinkDrop(held: set<C.Conn>, conns: map<Tid, C.Conn>, threads: map<Tid, Phase>, t: Tid, phase: Phase)
    requires Linked(held, conns, threads) && t in conns
    ensures Linked(held - {conns[t]}, conns - {t}, threads[t := phase])
  {
    Without(held, conns[t]);
    Without(conns.Keys, t);
    assert (conns - {t}).Keys == conns.Keys - {t};
    forall d | d in held - {conns[t]} ensures HeldBySome(conns - {t}, d) {
      var u :| u in conns && conns[u] == d;
      assert u in conns - {t};
    }
  }

  lemma LinkMove(held: set<C.Conn>, conns: map<Tid, C.Conn>, threads: map<Tid, Phase>, t: Tid, phase: Phase)
    requires Linked(held, conns, threads) && t in threads && (t in conns ==> HoldsConnection(phase))
    ensures Linked(held, conns, threads[t := phase])
  {
  }

  /** What a get hands out was not handed out before. */
  lemma GetIsNew(p: C.Pool, dead: set<C.Conn>, connected: Option<C.Conn>)
    requires C.MysqlInv(p, MYSQL_MAX_CONNECTCOUNT) && C.Allowed(p, C.Get(dead, connected))
    ensures var given := C.MysqlGet(p, MYSQL_MAX_CONNECTCOUNT, dead, connected);
            C.MysqlInv(given.pool, MYSQL_MAX_CONNECTCOUNT) &&
            match given.conn
            case Some(c) => c !in p.held && given.pool.held == p.held + {c}
            case None => given.pool.held == p.held
  {
    C.MysqlGetKeeps(p, MYSQL_MAX_CONNECTCOUNT, dead, connected);
    C.LiveIsNew(p, dead);
    hide C.MysqlInv, C.Owned, C.Live;
  }

  lemma TakeKeepsPool(s: State, t: Tid, e: Event)
    requires PoolInv(s) && CanStep(s, t, e) && e.TakeRequest?
    ensures PoolInv(AcceptStep(s, t, e))
  {
    assert t !in s.conns;
    GetIsNew(s.pool, e.dead, e.connected);
    var given := C.MysqlGet(s.pool, MYSQL_MAX_CONNECTCOUNT, e.dead, e.connected);
    hide Linked, C.MysqlInv, C.MysqlGet;
    if given.conn.Some? {
      LinkAdd(s.pool.held, s.conns, s.threads, t, Greet(e.w), given.conn.value);
    } else {
      LinkMove(s.pool.held, s.conns, s.threads, t, Greet(e.w));
    }
  }

  lemma ReplyDisconnects(s: State, t: Tid, e: Event)
    requires CanStep(s, t, e) && e.Reply?
    ensures var n := Step(s, t, e);
            && n.pool == C.Close(s.pool, if t in s.conns then Some(s.conns[t]) else None)
            && n.conns == s.conns - {t} && n.threads == s.threads[t := Top]
  {
  }

  lemma ReplyKeepsPool(s: State, t: Tid, e: Event)
    requires PoolInv(s) && CanStep(s, t, e) && e.Reply?
    ensures PoolInv(Step(s, t, e))
  {
    ReplyDisconnects(s, t, e);
    hide Step, CanStep;
    if t in s.conns {
      C.CloseKeeps(s.pool, MYSQL_MAX_CONNECTCOUNT, Some(s.conns[t]));
      hide Linked, C.MysqlInv;
      LinkDrop(s.pool.held, s.conns, s.threads, t, Top);
    } else {
      hide Linked, C.MysqlInv;
      LinkMove(s.pool.held, s.conns, s.threads, t, Top);
      assert s.conns - {t} == s.conns;
    }
  }

  /** Every other event moves the thread at most, and not away from its request. */
  lemma StaysConnected(s: State, t: Tid, e: Event)
    requires CanStep(s, t, e) && !e.TakeRequest? && !e.Reply?
    ensures var n := Step(s, t, e);
            && n.pool == s.pool && n.conns == s.conns
            && t in n.threads && n.threads == s.threads[t := n.threads[t]]
            && (HoldsConnection(s.threads[t]) ==> HoldsConnection(n.threads[t]))
  {
  }

  lemma PoolStep(s: State, t: Tid, e: Event)
    requires PoolInv(s) && CanStep(s, t, e)
    ensures PoolInv(Step(s, t, e))
  {
    if e.TakeRequest? {
      TakeKeepsPool(s, t, e);
    } else if e.Reply? {
      ReplyKeepsPool(s, t, e);
    } else {
      StaysConnected(s, t, e);
      assert t in s.conns ==> HoldsConnection(s.threads[t]);
      var n := Step(s, t, e);
      hide Linked, C.MysqlInv, Step, CanStep;
      LinkMove(s.pool.held, s.conns, s.threads, t, n.threads[t]);
    }
  }

  // ---------------------------------------------------------------- runs

  ghost predicate Next(s: State, n: State) {
    exists t, e :: CanStep(s, t, e) && n == Step(s, t, e)
  }

  ghost predicate Run(run: seq<State>) {
    |run| > 0 && Initial(run[0]) && forall i | 0 < i < |run| :: Next(run[i - 1], run[i])
  }

  ghost predicate Reachable(s: State) {
    exists run :: Run(run) && run[|run| - 1] == s
  }

  /** The server as seen by the purchase protocol: a step of a thread is a step of the
      protocol or does not concern it. */
  lemma StepProjects(s: State, t: Tid, e: Event)
    requires CanStep(s, t, e)
    ensures Step(s, t, e).p == s.p ||
            exists f :: P.Enabled(s.p, f) && Step(s, t, e).p == P.Apply(s.p, f)
  {
    match s.threads[t]
    case Hire(w) =>
      var f := P.Arrive(w, e.usr, e.key, e.redis);
      assert P.Enabled(s.p, f) && Step(s, t, e).p == P.Apply(s.p, f);
    case Serve(w) =>
      if e.Work? {
        var f := P.Act(w, e.reply);
        assert P.Enabled(s.p, f) && Step(s, t, e).p == P.Apply(s.p, f);
      }
    case _ =>
  }

  lemma {:induction false} RunProjects(run: seq<State>)
    requires Run(run)
    ensures P.Reachable(run[|run| - 1].p)
    decreases |run|
  {
    var n := |run| - 1;
    hide P.Reachable, P.Initial, Step, CanStep;
    if n == 0 {
      T.ReachStart(run[0].p.g.registered);
    } else {
      RunProjects(run[..n]);
      assert Next(run[n - 1], run[n]);
      NextProjects(run[n - 1], run[n]);
    }
  }

  lemma NextProjects(s: State, n: State)
    requires Next(s, n) && P.Reachable(s.p)
    ensures P.Reachable(n.p)
  {
    var t, e :| CanStep(s, t, e) && n == Step(s, t, e);
    StepProjects(s, t, e);
    hide Step, CanStep, P.Reachable;
    if n.p != s.p {
      var f :| P.Enabled(s.p, f) && n.p == P.Apply(s.p, f);
      T.ReachStep(s.p, f);
    }
  }

  lemma ReachedBooks(p: P.State)
    requires P.Reachable(p)
    ensures p.g.proc.success == CountIf(p.workers, I.Counted)
    ensures forall w | w in p.workers :: I.WorkerInv(p.g, w, p.workers[w])
  {
    I.ReachableInv(p);
  }

  lemma {:induction false} RunKeeps(run: seq<State>)
    requires Run(run)
    ensures Shape(run[|run| - 1]) && GateInv(run[|run| - 1]) && PoolInv(run[|run| - 1])
    decreases |run|
  {
    var n := |run| - 1;
    if n == 0 {
      InitialShape(run[0]);
    } else {
      RunKeeps(run[..n]);
      RunProjects(run[..n]);
      assert Next(run[n - 1], run[n]);
      var t, e :| CanStep(run[n - 1], t, e) && run[n] == Step(run[n - 1], t, e);
      ReachedBooks(run[n - 1].p);
      ShapeStep(run[n - 1], t, e);
      GateBoundStep(run[n - 1], t, e);
      PoolStep(run[n - 1], t, e);
    }
  }

  lemma ReachableKeeps(s: State)
    requires Reachable(s)
    ensures Shape(s) && GateInv(s) && PoolInv(s) && P.Reachable(s.p)
  {
    var run :| Run(run) && run[|run| - 1] == s;
    RunKeeps(run);
    RunProjects(run);
  }

  // ---------------------------------------------------------------- what the server guarantees

  /** Requests announced but not yet counted in *successNum_. */
  function UnderWay(s: State): set<Id> {
    Keys(s.life, OnList) - Keys(s.p.workers, I.Counted)
  }

  /** While fewer than 50 sales are counted and Redis answers, the requests under way, the
      sales, and the threads past the gate that have not announced a request are together
      at most 49 + 20. */
  lemma AdmissionBound(s: State)
    requires Reachable(s) && s.answering && s.p.g.proc.success < 50
    ensures |UnderWay(s)| + s.p.g.proc.success + |Pushers(s.threads, s.p.g.proc.success)| <= 49 + 20
  {
    ReachableKeeps(s);
    ReachedBooks(s.p);
    SplitSize(Keys(s.life, OnList), Keys(s.p.workers, I.Counted));
    hide Reachable, Shape, PoolInv, Pushers, Keys;
  }

  lemma SplitSize<T>(a: set<T>, b: set<T>)
    ensures |a + b| == |a - b| + |b|
  {
    assert a + b == (a - b) + b;
  }

  /** Exactly one Worker listens, or is dequeued and not yet replaced; a thread that is to
      spawn the successor always can; no two threads work for the same Worker. */
  lemma OneListener(s: State)
    requires Reachable(s)
    ensures CountIf(s.life, Fresh) == 1
    ensures forall t | t in s.threads && s.threads[t].Hire? :: s.threads[t].w !in s.p.workers
    ensures forall t, u, w | t in s.threads && u in s.threads ::
              OnThread(s.threads[t], w) && OnThread(s.threads[u], w) ==> t == u
  {
    ReachableKeeps(s);
    forall t | t in s.threads && s.threads[t].Hire? ensures s.threads[t].w !in s.p.workers {
      assert PhaseInv(s.life, s.threads[t]);
    }
  }

  /** No request is answered twice; the requests answered are those whose Worker has
      answered or is deleted, each with its final answer "0" or "1". */
  lemma AnsweredOnce(s: State)
    requires Reachable(s)
    ensures forall i, j | 0 <= i < j < |s.replies| :: s.replies[i].0 != s.replies[j].0
    ensures forall w :: RepliedTo(s.replies, w) <==> w in s.p.workers && HasReplied(s.life, w)
    ensures forall i | 0 <= i < |s.replies| ::
              var (w, a) := s.replies[i];
              w in s.p.workers && s.p.workers[w].pc.Done? && a == s.p.workers[w].answer != P.Unset
  {
    ReachableKeeps(s);
    ReachedBooks(s.p);
    forall i | 0 <= i < |s.replies| ensures s.p.workers[s.replies[i].0].answer != P.Unset {
      assert I.WorkerInv(s.p.g, s.replies[i].0, s.p.workers[s.replies[i].0]);
    }
  }

  /** A thread that asks for a connection finds at most 19 in use. */
  lemma ConnectionsInUse(s: State, t: Tid)
    requires Reachable(s) && t in s.threads && !HoldsConnection(s.threads[t])
    ensures |s.pool.held| <= 19
  {
    ReachableKeeps(s);
    SubsetSize(s.conns.Keys, s.threads.Keys - {t});
    Without(s.threads.Keys, t);
  }

  /** The connections handed out are those of threads, each of one thread; and with those
      idle there are never more than the cap. */
  lemma ConnectionsOwned(s: State)
    requires Reachable(s)
    ensures forall c :: c in s.pool.held <==> HeldBySome(s.conns, c)
    ensures forall t, u | t in s.conns && u in s.conns && s.conns[t] == s.conns[u] :: t == u
    ensures forall t | t in s.conns :: t in s.threads && HoldsConnection(s.threads[t])
    ensures |s.pool.held| <= 20 && |s.pool.idle| + |s.pool.held| <= 30
  {
    ReachableKeeps(s);
    SubsetSize(s.conns.Keys, s.threads.Keys);
  }

  /** The threads never meet the cap of the MySQL pool: one that has taken a request gets no
      connection exactly if none of the idle ones is alive and connecting fails. */
  lemma ThreadsNeverMeetCap(s: State, t: Tid, e: Event)
    requires Reachable(s) && CanStep(s, t, e) && e.TakeRequest?
    ensures t !in Step(s, t, e).conns <==>
            (forall c | c in s.pool.idle :: c in e.dead) && e.connected == None
  {
    ConnectionsInUse(s, t);
    ReachableKeeps(s);
    C.MysqlNullIff(s.pool, MYSQL_MAX_CONNECTCOUNT, e.dead, e.connected);
  }

  /** A thread that takes a request gets the first idle connection that is alive, and what it
      gets is alive or new. */
  lemma TakesFirstAlive(s: State, t: Tid, e: Event, k: nat)
    requires CanStep(s, t, e) && e.TakeRequest?
    requires k < |s.pool.idle| && s.pool.idle[k] !in e.dead && forall i | 0 <= i < k :: s.pool.idle[i] in e.dead
    ensures var n := Step(s, t, e);
            n.conns == s.conns[t := s.pool.idle[k]] && n.pool.idle == s.pool.idle[k + 1..]
  {
    C.MysqlGivesFirstAlive(s.pool, MYSQL_MAX_CONNECTCOUNT, e.dead, e.connected, k);
  }

  lemma TakesAliveOrNew(s: State, t: Tid, e: Event)
    requires CanStep(s, t, e) && e.TakeRequest? && t !in s.conns && t in Step(s, t, e).conns
    ensures var c := Step(s, t, e).conns[t];
            (c in s.pool.idle && c !in e.dead) || Some(c) == e.connected
  {
    C.GivenIsAlive(s.pool, MYSQL_MAX_CONNECTCOUNT, e.dead, e.connected);
  }

  // ---------------------------------------------------------------- the gate opens

  /** Whether a thread has got past the gate, with the next event of this thread. */
  predicate Passes(s: State, t: Tid, e: Event)
    requires CanStep(s, t, e)
  {
    Step(s, t, e).threads[t].Past?
  }

  /** When the gate admits. With 50 sales nobody is asked; below, an LLEN without an answer
      admits, and an answer n admits exactly if n requests and the sales by then stay below
      50. Who is not admitted is at the head of the loop again. */
  lemma GateAdmitsIff(s: State, t: Tid, e: Event)
    requires CanStep(s, t, e)
    ensures s.threads[t].Top? ==> (Passes(s, t, e) <==> s.p.g.proc.success >= 50)
    ensures s.threads[t].Ask? ==> (Passes(s, t, e) <==> !e.ok)
    ensures s.threads[t].Ask? && e.ok ==> Step(s, t, e).threads[t] == Compare(s.workList)
    ensures s.threads[t].Compare? ==>
              (Passes(s, t, e) <==> s.threads[t].working + s.p.g.proc.success < 50)
    ensures s.threads[t].Compare? && !Passes(s, t, e) ==> Step(s, t, e).threads[t].Top?
  {
  }

  lemma GateMoves(s: State, t: Tid, e: Event)
    requires t in s.threads
    requires (s.threads[t].Top? && e.LoopHead?) || (s.threads[t].Ask? && e.Llen? && e.ok) || (s.threads[t].Compare? && e.Gate?)
    ensures CanStep(s, t, e) && Step(s, t, e).(threads := s.threads) == s
    ensures Step(s, t, e).threads == s.threads[t := Step(s, t, e).threads[t]]
  {
    assert s.threads[t := s.threads[t]] == s.threads;
  }

  /** A thread alone at the head of its loop, with no answer missing so far, gets past the
      gate in three steps exactly if the announced Workers and the sales stay below 50. */
  lemma GateOpensIff(s: State, t: Tid) returns (a: State, b: State, c: State)
    requires Reachable(s) && s.answering && t in s.threads && s.threads[t].Top? && s.p.g.proc.success < 50
    ensures CanStep(s, t, LoopHead) && a == Step(s, t, LoopHead)
    ensures CanStep(a, t, Llen(true)) && b == Step(a, t, Llen(true))
    ensures CanStep(b, t, Gate) && c == Step(b, t, Gate)
    ensures c.threads[t].Past? <==> CountIf(s.life, OnList) + s.p.g.proc.success < 50
    ensures c.(threads := s.threads) == s
  {
    ReachableKeeps(s);
    GateMoves(s, t, LoopHead);
    GateAdmitsIff(s, t, LoopHead);
    a := Step(s, t, LoopHead);
    GateMoves(a, t, Llen(true));
    GateAdmitsIff(a, t, Llen(true));
    b := Step(a, t, Llen(true));
    GateMoves(b, t, Gate);
    GateAdmitsIff(b, t, Gate);
    c := Step(b, t, Gate);
    hide Step, CanStep, Reachable, ThreadsInv, LifeInv, RepliesInv, ListenInv, GateInv, PoolInv;
  }

  lemma ReachStart(s: State)
    requires Initial(s)
    ensures Reachable(s)
  {
    assert Run([s]);
    assert [s][|[s]| - 1] == s;
  }

  lemma ReachNext(s: State, t: Tid, e: Event)
    requires Reachable(s) && CanStep(s, t, e)
    ensures Reachable(Step(s, t, e))
  {
    var run :| Run(run) && run[|run| - 1] == s;
    var more := run + [Step(s, t, e)];
    assert Next(s, Step(s, t, e));
    forall i | 0 < i < |more| ensures Next(more[i - 1], more[i]) {
      if i < |run| { assert more[i - 1] == run[i - 1] && more[i] == run[i]; }
    }
    assert Run(more) && more[|more| - 1] == Step(s, t, e);
  }
}
