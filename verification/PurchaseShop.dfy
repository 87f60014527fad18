/** The interleaved MySQL transactions against the sale they implement: one atomic
    operation "sell a unit to u". */
module PurchaseShop {
  import opened Base
  import opened Purchase
  import opened PurchaseInvariant

  /** What MySQL has committed. */
  datatype Shop = Shop(stock: int, orders: map<User, Key>)

  datatype Sale = Sale(usr: User, key: Key)

  predicate CanSell(p: Shop, o: Sale) {
    p.stock > 0 && o.usr !in p.orders
  }

  function Sell(p: Shop, o: Sale): Shop {
    Shop(p.stock - 1, p.orders[o.usr := o.key])
  }

  /** A run of the shop: each sale finds stock and a user without an order. */
  predicate CanSellAll(p: Shop, os: seq<Sale>)
    decreases |os|, 0
  {
    os == [] ||
    (CanSellAll(p, os[..|os| - 1]) && CanSell(SellAll(p, os[..|os| - 1]), os[|os| - 1]))
  }

  function SellAll(p: Shop, os: seq<Sale>): Shop
    requires CanSellAll(p, os)
    decreases |os|, 1
  {
    if os == [] then p else Sell(SellAll(p, os[..|os| - 1]), os[|os| - 1])
  }

  function View(s: State): Shop {
    Shop(s.g.sql.stock, s.g.sql.orders)
  }

  /** The command that makes a purchase permanent. */
  predicate Commits(s: State, e: Event) {
    e.Act? && e.w in s.workers && s.workers[e.w].pc.Decide? && s.workers[e.w].isSuc
  }

  function SaleOf(s: State, e: Event): Sale
    requires Commits(s, e)
  {
    Sale(s.workers[e.w].usr, s.workers[e.w].key)
  }

  lemma CommitWrites(g: Shared, w: Id, x: Worker, r: Reply)
    requires RowInv(g.sql, w, x) && Possible(g, x, r) && x.pc.Decide? && x.isSuc
    ensures g.sql.stock > 0 && x.usr !in g.sql.orders && Won(Issue(g, w, x, r).x)
    ensures var q := Issue(g, w, x, r).g.sql;
            q.stock == g.sql.stock - 1 && q.orders == g.sql.orders[x.usr := x.key]
  {
  }

  /** The row lock at work: a commit sells one unit to its user from the stock as it is
      then, although the stock was read four commands earlier. */
  lemma CommitSells(s: State, e: Event)
    requires Inv(s) && Enabled(s, e) && Commits(s, e)
    ensures CanSell(View(s), SaleOf(s, e)) && View(Apply(s, e)) == Sell(View(s), SaleOf(s, e))
    ensures Won(Apply(s, e).workers[e.w])
  {
    assert WorkerInv(s.g, e.w, s.workers[e.w]);
    CommitWrites(s.g, e.w, s.workers[e.w], e.reply);
    hide Inv, WorkerInv, RowInv, Issue, Won;
  }

  lemma OnlyCommitWrites(g: Shared, w: Id, x: Worker, r: Reply)
    requires RowInv(g.sql, w, x) && Possible(g, x, r) && !(x.pc.Decide? && x.isSuc)
    ensures var q := Issue(g, w, x, r).g.sql; q.stock == g.sql.stock && q.orders == g.sql.orders
  {
  }

  lemma OnlyCommitWins(g: Shared, w: Id, x: Worker, r: Reply)
    requires WorkerInv(g, w, x) && Possible(g, x, r) && !(x.pc.Decide? && x.isSuc)
    ensures Won(Issue(g, w, x, r).x) <==> Won(x)
  {
    OnlyCommitWrites(g, w, x, r);
    IssueAccounts(g, w, x, r);
  }

  /** Every other event leaves the committed tables alone and wins nothing. */
  lemma OthersSellNothing(s: State, e: Event)
    requires Inv(s) && Enabled(s, e) && !Commits(s, e)
    ensures View(Apply(s, e)) == View(s)
    ensures e.Act? ==> (Won(Apply(s, e).workers[e.w]) <==> Won(s.workers[e.w]))
  {
    if e.Act? {
      assert WorkerInv(s.g, e.w, s.workers[e.w]);
      OnlyCommitWrites(s.g, e.w, s.workers[e.w], e.reply);
      OnlyCommitWins(s.g, e.w, s.workers[e.w], e.reply);
    }
  }

  /** The sales of a run, in the order of their commits. */
  function Sales(s: State, es: seq<Event>): seq<Sale>
    requires Legal(s, es)
    decreases |es|
  {
    if es == [] then [] else
      var before := After(s, es[..|es| - 1]);
      var e := es[|es| - 1];
      Sales(s, es[..|es| - 1]) + (if Commits(before, e) then [SaleOf(before, e)] else [])
  }

  lemma SaleSnoc(p: Shop, os: seq<Sale>, o: Sale)
    requires CanSellAll(p, os) && CanSell(SellAll(p, os), o)
    ensures CanSellAll(p, os + [o]) && SellAll(p, os + [o]) == Sell(SellAll(p, os), o)
  {
    assert (os + [o])[..|os|] == os;
  }

  lemma StepRefinesShop(s: State, e: Event, p: Shop, os: seq<Sale>)
    requires Inv(s) && Enabled(s, e) && CanSellAll(p, os) && SellAll(p, os) == View(s)
    ensures var ps := os + (if Commits(s, e) then [SaleOf(s, e)] else []);
            CanSellAll(p, ps) && SellAll(p, ps) == View(Apply(s, e))
  {
    if Commits(s, e) {
      CommitSells(s, e);
      SaleSnoc(p, os, SaleOf(s, e));
    } else {
      OthersSellNothing(s, e);
      assert os + [] == os;
    }
  }

  /** Every interleaving is a run of the shop: its commits, in order, are sales that each
      find stock and a user without an order, and they account for all of MySQL. */
  lemma {:induction false} RunRefinesShop(registered: map<User, Key>, es: seq<Event>)
    requires Legal(Initial(registered), es)
    ensures var os := Sales(Initial(registered), es);
            CanSellAll(Shop(STOCK, map[]), os) &&
            SellAll(Shop(STOCK, map[]), os) == View(After(Initial(registered), es))
    decreases |es|
  {
    if es != [] {
      var n := |es| - 1;
      RunRefinesShop(registered, es[..n]);
      RunKeepsInv(registered, es[..n]);
      StepRefinesShop(After(Initial(registered), es[..n]), es[n],
                      Shop(STOCK, map[]), Sales(Initial(registered), es[..n]));
    }
  }

  /** A request wins by the command that commits its own order row, and by no other. */
  lemma WinsByCommitting(s: State, w: Id, r: Reply)
    requires Reachable(s) && CanAct(s, w, r) && !Won(s.workers[w])
    ensures var x := s.workers[w];
            Won(Command(s, w, r).workers[w]) <==>
            (CanSell(View(s), Sale(x.usr, x.key)) &&
             View(Command(s, w, r)) == Sell(View(s), Sale(x.usr, x.key)))
  {
    ReachableInv(s);
    if Commits(s, Act(w, r)) { CommitSells(s, Act(w, r)); } else { OthersSellNothing(s, Act(w, r)); }
  }
}
