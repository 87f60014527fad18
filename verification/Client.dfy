/** The client's audit after a sale, and why it passes. */
module Client {
  import opened Base
  import P = Purchase
  import I = PurchaseInvariant
  import T = PurchaseTheorems
  import S = Server

  // ---------------------------------------------------------------- containsDuplicate

  predicate HasDuplicate<E(==)>(s: seq<E>) {
    exists i, j | 0 <= i < j < |s| :: s[i] == s[j]
  }

  predicate Ascending(s: seq<int>) {
    forall i, j | 0 <= i < j < |s| :: s[i] <= s[j]
  }

  function Insert(x: int, s: seq<int>): seq<int> {
    if s == [] || x <= s[0] then [x] + s else [s[0]] + Insert(x, s[1..])
  }

  /** What sorting makes of s. */
  function Sorted(s: seq<int>): seq<int> {
    if s == [] then [] else Insert(s[0], Sorted(s[1..]))
  }

  lemma {:induction false} InsertPermutes(x: int, s: seq<int>)
    ensures multiset(Insert(x, s)) == multiset{x} + multiset(s)
    ensures forall y | y in Insert(x, s) :: y == x || y in s
  {
    if s != [] && x > s[0] {
      InsertPermutes(x, s[1..]);
      assert s == [s[0]] + s[1..];
    }
  }

  lemma {:induction false} InsertSorts(x: int, s: seq<int>)
    requires Ascending(s)
    ensures Ascending(Insert(x, s))
  {
    if s != [] && x > s[0] {
      var t := Insert(x, s[1..]);
      InsertSorts(x, s[1..]);
      InsertPermutes(x, s[1..]);
      forall k | 0 <= k < |t| ensures s[0] <= t[k] {
        assert t[k] in t;
      }
    }
  }

  /** Sorted is ascending and a permutation. */
  lemma {:induction false} SortedSorts(s: seq<int>)
    ensures Ascending(Sorted(s)) && multiset(Sorted(s)) == multiset(s)
  {
    if s != [] {
      SortedSorts(s[1..]);
      InsertSorts(s[0], Sorted(s[1..]));
      InsertPermutes(s[0], Sorted(s[1..]));
      assert s == [s[0]] + s[1..];
    }
  }

  lemma RepeatedIsMultiple(s: seq<int>, i: nat, j: nat)
    requires i < j < |s| && s[i] == s[j]
    ensures multiset(s)[s[i]] >= 2
  {
    assert s == s[..j] + [s[j]] + s[j + 1..];
    assert s[i] == s[..j][i];
  }

  lemma MultipleIsRepeated(s: seq<int>, x: int)
    requires x in s && multiset(s)[x] >= 2
    ensures HasDuplicate(s)
  {
    var i :| 0 <= i < |s| && s[i] == x;
    assert s == s[..i] + [s[i]] + s[i + 1..];
    assert x in multiset(s[..i] + s[i + 1..]);
    assert x in s[..i] + s[i + 1..];
  }

  /** A value is repeated exactly if its multiplicity is at least 2. */
  lemma DuplicateIsMultiple(s: seq<int>)
    ensures HasDuplicate(s) <==> exists x | x in s :: multiset(s)[x] >= 2
  {
    forall i, j | 0 <= i < j < |s| && s[i] == s[j] ensures s[i] in s && multiset(s)[s[i]] >= 2 {
      RepeatedIsMultiple(s, i, j);
    }
    forall x | x in s && multiset(s)[x] >= 2 ensures HasDuplicate(s) {
      MultipleIsRepeated(s, x);
    }
  }

  lemma PermutedDuplicates(s: seq<int>, t: seq<int>)
    requires multiset(s) == multiset(t)
    ensures HasDuplicate(s) <==> HasDuplicate(t)
  {
    DuplicateIsMultiple(s);
    DuplicateIsMultiple(t);
    assert forall x :: x in s <==> x in multiset(s);
    assert forall x :: x in t <==> x in multiset(t);
  }

  /** std::sort: the vector is sorted in place. */
  method Sort(nums: array<int>)
    modifies nums
    ensures nums[..] == Sorted(old(nums[..]))
  {
    var s := Sorted(nums[..]);
    SortedSorts(nums[..]);
    assert |s| == |multiset(s)| == |multiset(nums[..])| == nums.Length;
    forall i | 0 <= i < nums.Length {
      nums[i] := s[i];
    }
  }

  /** size_t has 64 bits. */
  const SIZE := 0x1_0000_0000_0000_0000

  /** Sort and compare neighbours. On an empty vector the bound of the loop wraps around,
      and the first comparison is outside the vector: there is no result then. */
  method ContainsDuplicate(nums: array<int>) returns (found: Option<bool>)
    modifies nums
    ensures nums[..] == Sorted(old(nums[..]))
    ensures found == None <==> nums.Length == 0
    ensures found.Some? ==> (found.value <==> HasDuplicate(old(nums[..])))
  {
    hide Sorted, HasDuplicate, Ascending, Rises;
    ghost var sorted := Sorted(nums[..]);
    SortedDuplicates(nums[..]);
    Sort(nums);
    var bound := if nums.Length == 0 then SIZE - 1 else nums.Length - 1;
    var i := 0;
    RisesAlone(sorted);
    while i < bound
      invariant 0 <= i <= bound && (nums.Length == 0 ==> i == 0) && nums[..] == sorted
      invariant nums.Length > 0 ==> i < nums.Length && Rises(sorted, i + 1)
    {
      if i + 1 >= nums.Length {
        return None;
      }
      assert nums[i] == sorted[i] && nums[i + 1] == sorted[i + 1];
      if nums[i] == nums[i + 1] {
        Neighbours(sorted, i);
        return Some(true);
      }
      RisesOn(sorted, i + 1);
      i := i + 1;
    }
    RisingIsDistinct(sorted);
    return Some(false);
  }

  /** Sorting neither makes nor removes repetitions. */
  lemma SortedDuplicates(s: seq<int>)
    ensures Ascending(Sorted(s)) && |Sorted(s)| == |s|
    ensures HasDuplicate(Sorted(s)) <==> HasDuplicate(s)
  {
    SortedSorts(s);
    PermutedDuplicates(s, Sorted(s));
    assert |s| == |multiset(s)| == |multiset(Sorted(s))| == |Sorted(s)|;
  }

  lemma Neighbours(s: seq<int>, i: nat)
    requires i + 1 < |s| && s[i] == s[i + 1]
    ensures HasDuplicate(s)
  {
  }

  /** The first n elements rise strictly. */
  predicate Rises(s: seq<int>, n: int)
    requires n <= |s|
  {
    forall j, k | 0 <= j < k < n :: s[j] < s[k]
  }

  lemma RisesAlone(s: seq<int>)
    ensures |s| > 0 ==> Rises(s, 1)
  {
  }

  lemma RisesOn(s: seq<int>, n: nat)
    requires 0 < n < |s| && Ascending(s) && Rises(s, n) && s[n - 1] != s[n]
    ensures Rises(s, n + 1)
  {
    forall j | 0 <= j < n ensures s[j] < s[n] {
      assert s[j] <= s[n - 1] <= s[n];
    }
  }

  lemma RisingIsDistinct(s: seq<int>)
    requires Rises(s, |s|)
    ensures !HasDuplicate(s)
  {
  }

  // ---------------------------------------------------------------- the audit

  /** The conditions of the audit. stock is None if the SELECT failed, and then counts as
      0; names is None if the order table could not be read. */
  predicate Passes(successes: int, stock: Option<int>, names: Option<seq<int>>) {
    && successes <= 50
    && 50 - (if stock.Some? then stock.value else 0) == successes
    && (names.Some? && names.value != [] ==> |names.value| == successes && !HasDuplicate(names.value))
  }

  /** checkSeckillInfo; names are the user names of the orders, converted to numbers. */
  method CheckSeckillInfo(successes: int, stock: Option<int>, names: Option<seq<int>>) returns (normal: bool)
    ensures normal <==> Passes(successes, stock, names)
  {
    normal := true;
    if successes > 50 {
      normal := false;
    }
    var total := 0;
    if stock.Some? {
      total := stock.value;
    }
    if 50 - total != successes {
      normal := false;
    }
    if names.Some? && |names.value| > 0 {
      var namesI := new int[|names.value|](i requires 0 <= i < |names.value| => names.value[i]);
      assert namesI[..] == names.value;
      if |names.value| != successes {
        normal := false;
      }
      var found := ContainsDuplicate(namesI);
      if found == Some(true) {
        normal := false;
      }
    }
  }

  // ---------------------------------------------------------------- what it detects

  /** Whatever was read, the audit passes with at most one count of successes: that of the
      units that are gone, where a failed SELECT counts as none left. */
  lemma CountIsAudited(n: int, m: int, stock: Option<int>, names: Option<seq<int>>, other: Option<seq<int>>)
    requires Passes(n, stock, names) && Passes(m, stock, other)
    ensures n == m <= 50
    ensures stock == None ==> n == 50
  {
  }

  /** With one count it passes with at most one stock. */
  lemma StockIsAudited(n: int, x: int, y: int, names: Option<seq<int>>, other: Option<seq<int>>)
    requires Passes(n, Some(x), names) && Passes(n, Some(y), other)
    ensures x == y >= 0
  {
  }

  /** An order list that is not empty fails if its length is not the count, or if it names
      someone twice; whatever the stock. */
  lemma OrdersAreAudited(n: int, stock: Option<int>, names: seq<int>)
    requires names != [] && (|names| != n || HasDuplicate(names))
    ensures !Passes(n, stock, Some(names))
  {
  }

  /** Beyond that it detects nothing: it passes for every count from which no unit was sold
      too many, with the stock that belongs to it and a list of as many different orders;
      and for every order list that is empty or could not be read. */
  lemma ConsistentPasses(n: int, names: seq<int>)
    requires n <= 50 && (names == [] || (|names| == n && !HasDuplicate(names)))
    ensures Passes(n, Some(50 - n), Some(names)) && Passes(n, Some(50 - n), None)
    ensures n == 50 ==> Passes(n, None, Some(names))
  {
  }

  /** After any answered sale, a change to any one of what the audit looks at is detected:
      the count of successes, the stock, or the list of orders unless it becomes empty. */
  lemma AuditDetects(s: S.State, names: seq<P.User>, atoi: P.User -> int, n: int, stock: int, list: seq<int>)
    requires S.Reachable(s) && forall w | w in s.p.workers :: S.HasReplied(s.life, w)
    requires !HasDuplicate(names) && forall u :: u in names <==> u in s.p.g.sql.orders
    requires TellsApart(names, atoi)
    ensures var ones, left, orders := Ones(s.replies), s.p.g.sql.stock, Convert(names, atoi);
            && (Passes(n, Some(left), Some(orders)) <==> n == ones)
            && (Passes(ones, Some(stock), Some(orders)) <==> stock == left)
            && (Passes(ones, Some(left), Some(list)) <==> list == [] || (|list| == ones && !HasDuplicate(list)))
  {
    AuditPassesIff(s, names, atoi);
    OnesAreOrders(s);
    AtMostFiftyOnes(s);
  }

  // ---------------------------------------------------------------- why it passes

  function Convert(names: seq<P.User>, atoi: P.User -> int): (ns: seq<int>)
    ensures |ns| == |names| && forall i | 0 <= i < |names| :: ns[i] == atoi(names[i])
  {
    if names == [] then [] else [atoi(names[0])] + Convert(names[1..], atoi)
  }

  lemma {:induction false} ListedOnce<E>(names: seq<E>)
    requires !HasDuplicate(names)
    ensures |set n | n in names| == |names|
  {
    if names != [] {
      var m := |names| - 1;
      var front := names[..m];
      assert !HasDuplicate(front) by {
        forall i, j | 0 <= i < j < |front| ensures front[i] != front[j] {
          assert names[i] != names[j];
        }
      }
      ListedOnce(front);
      assert names[m] !in front by {
        forall i | 0 <= i < m ensures front[i] != names[m] { assert names[i] != names[m]; }
      }
      assert (set n | n in names) == (set n | n in front) + {names[m]};
    }
  }

  /** Different users convert to different numbers. */
  ghost predicate TellsApart(names: seq<P.User>, atoi: P.User -> int) {
    forall i, j | 0 <= i < j < |names| :: atoi(names[i]) != atoi(names[j])
  }

  /** The responses "1" that were handed to gRPC. */
  function Ones(replies: seq<(P.Id, P.Answer)>): nat {
    if replies == [] then 0
    else Ones(replies[..|replies| - 1]) + Indicator(replies[|replies| - 1].1 == P.One)
  }

  function Winners(replies: seq<(P.Id, P.Answer)>): set<P.Id> {
    set i | 0 <= i < |replies| && replies[i].1 == P.One :: replies[i].0
  }

  lemma OneReplyMore(front: seq<(P.Id, P.Answer)>, last: (P.Id, P.Answer))
    ensures Winners(front + [last]) == Winners(front) + (if last.1 == P.One then {last.0} else {})
  {
    var replies := front + [last];
    forall w | w in Winners(front) ensures w in Winners(replies) {
      var i :| 0 <= i < |front| && front[i].1 == P.One && front[i].0 == w;
      assert replies[i] == front[i];
    }
    assert replies[|front|] == last;
  }

  lemma {:induction false} OnesAreWinners(replies: seq<(P.Id, P.Answer)>)
    requires forall i, j | 0 <= i < j < |replies| :: replies[i].0 != replies[j].0
    ensures Ones(replies) == |Winners(replies)|
  {
    if replies != [] {
      var n := |replies| - 1;
      var front, last := replies[..n], replies[n];
      OneReplyMore(front, last);
      assert last.0 !in Winners(front);
      hide Winners;
      assert replies == front + [last];
      OnesAreWinners(front);
    }
  }

  /** Over any run, at most 50 requests are answered "1". */
  lemma AtMostFiftyOnes(s: S.State)
    requires S.Reachable(s)
    ensures Ones(s.replies) <= P.STOCK
    ensures Winners(s.replies) <= Keys(s.p.workers, I.Won)
  {
    S.ReachableKeeps(s);
    S.AnsweredOnce(s);
    OnesAreWinners(s.replies);
    SubsetSize(Winners(s.replies), Keys(s.p.workers, I.Won));
    T.AnswersAreOrders(s.p);
  }

  /** When every request was answered, the answers "1" are the orders. */
  lemma OnesAreOrders(s: S.State)
    requires S.Reachable(s) && forall w | w in s.p.workers :: S.HasReplied(s.life, w)
    ensures T.Quiet(s.p) && P.Reachable(s.p)
    ensures Ones(s.replies) == |s.p.g.sql.orders| == P.STOCK - s.p.g.sql.stock
  {
    S.ReachableKeeps(s);
    S.AnsweredOnce(s);
    OnesAreWinners(s.replies);
    forall w | w in Keys(s.p.workers, I.Won) ensures w in Winners(s.replies) {
      assert S.RepliedTo(s.replies, w);
      var i :| 0 <= i < |s.replies| && s.replies[i].0 == w;
      assert s.replies[i].1 == P.One;
    }
    AtMostFiftyOnes(s);
    assert Winners(s.replies) == Keys(s.p.workers, I.Won);
    T.AnswersAreOrders(s.p);
  }

  /** Once every request is answered, the audit on the counted answers, the stock and any
      listing of the orders passes exactly if the conversion tells the users apart. */
  lemma AuditPassesIff(s: S.State, names: seq<P.User>, atoi: P.User -> int)
    requires S.Reachable(s) && forall w | w in s.p.workers :: S.HasReplied(s.life, w)
    requires !HasDuplicate(names) && forall u :: u in names <==> u in s.p.g.sql.orders
    ensures Passes(Ones(s.replies), Some(s.p.g.sql.stock), Some(Convert(names, atoi)))
            <==> TellsApart(names, atoi)
  {
    OnesAreOrders(s);
    ListedOnce(names);
    assert (set n | n in names) == s.p.g.sql.orders.Keys;
    var ns := Convert(names, atoi);
    assert TellsApart(names, atoi) <==> !HasDuplicate(ns);
    StockLeft(s);
  }

  lemma StockLeft(s: S.State)
    requires S.Reachable(s)
    ensures 0 <= s.p.g.sql.stock <= P.STOCK
  {
    S.ReachableKeeps(s);
    T.ReachableBooks(s.p);
  }
}
