/** Stable topological ordering by price dominance (internal/gateway/routing.go). */
module PriceDominance {
  import opened Common
  import opened Pricing

  datatype Provider = Provider(name: string, streaming: bool)

  /** ratesDominate: no rate higher and some rate lower; unknown rates never dominate. */
  predicate RatesDominate(left: Rates, right: Rates)
  {
    && Priced(left) && Priced(right)
    && left.input.value <= right.input.value && left.output.value <= right.output.value
    && (left.input.value < right.input.value || left.output.value < right.output.value)
  }

  /** Dominance between candidate positions. */
  predicate Dominates(rates: seq<Rates>, i: nat, j: nat)
  {
    i < |rates| && j < |rates| && i != j && RatesDominate(rates[i], rates[j])
  }

  /** What a number of input and output tokens costs, in micro-USD per million of each. */
  function Cost(r: Rates, input: nat, output: nat): nat
    requires Priced(r)
  {
    input * r.input.value + output * r.output.value
  }

  /** Known to be cheaper: never dearer, whatever the tokens, and cheaper for some. */
  ghost predicate Undercuts(left: Rates, right: Rates)
  {
    && left.input.Some? && left.output.Some? && right.input.Some? && right.output.Some?
    && (forall i: nat, o: nat :: Cost(left, i, o) <= Cost(right, i, o))
    && (exists i: nat, o: nat :: Cost(left, i, o) < Cost(right, i, o))
  }

  /** What dominance means in money. Unknown, equal and conflicting prices, each cheaper
      for some requests, leave two providers unordered. */
  lemma DominanceIsMoney(left: Rates, right: Rates)
    ensures RatesDominate(left, right) <==> Undercuts(left, right)
  {
    if Priced(left) && Priced(right) {
      assert Cost(left, 1, 0) == left.input.value && Cost(right, 1, 0) == right.input.value;
      assert Cost(left, 0, 1) == left.output.value && Cost(right, 0, 1) == right.output.value;
      if RatesDominate(left, right) {
        forall i: nat, o: nat
          ensures Cost(left, i, o) <= Cost(right, i, o)
        {
          Scaled(i, left.input.value, right.input.value);
          Scaled(o, left.output.value, right.output.value);
        }
      }
    }
  }

  lemma Scaled(n: nat, a: nat, b: nat)
    requires a <= b
    ensures n * a <= n * b
  {
    assert n * (b - a) >= 0;
  }

  /** A provider known to be cheaper is never estimated dearer, and is estimated whenever
      the other is. */
  lemma CheaperIsEstimatedCheaper(u: Option<Usage>, left: Rates, right: Rates)
    requires Undercuts(left, right) && EstimateMicroUSD(u, right).Some?
    ensures EstimateMicroUSD(u, left).Some? && EstimateMicroUSD(u, left).value <= EstimateMicroUSD(u, right).value
  {
    var input, output := u.value.input.value, u.value.output.value;
    assert Cost(left, input, output) <= Cost(right, input, output);
    assert ExactNumerator(u, left) == Cost(left, input, output) && ExactNumerator(u, right) == Cost(right, input, output);
    RoundingKeepsOrder(ExactNumerator(u, left), ExactNumerator(u, right),
                       EstimateMicroUSD(u, left).value, EstimateMicroUSD(u, right).value);
  }

  lemma RoundingKeepsOrder(a: nat, b: nat, x: int, y: int)
    requires a <= b && RoundsHalfUp(a, x) && RoundsHalfUp(b, y)
    ensures x <= y
  {
  }

  // ------------------------------------------------------ specification

  /** p lists every position below n exactly once. */
  ghost predicate IsOrder(n: nat, p: seq<nat>)
  {
    && |p| == n
    && (forall k :: 0 <= k < n ==> p[k] < n)
    && (forall i, j :: 0 <= i < j < n ==> p[i] != p[j])
    && (forall x :: 0 <= x < n ==> x in p)
  }

  /** An order in which nobody follows a position it dominates. */
  ghost predicate LinearExtension(rates: seq<Rates>, p: seq<nat>)
  {
    && IsOrder(|rates|, p)
    && (forall i, j :: 0 <= i < j < |p| ==> !Dominates(rates, p[j], p[i]))
  }

  ghost predicate LexAtMost(p: seq<nat>, q: seq<nat>)
  {
    p == q || exists k :: 0 <= k < |p| && k < |q| && p[..k] == q[..k] && p[k] < q[k]
  }

  /** The candidates arranged by an order of positions. */
  function Arrange<T>(s: seq<T>, p: seq<nat>): (r: seq<T>)
    requires forall k :: 0 <= k < |p| ==> p[k] < |s|
    ensures |r| == |p| && forall k :: 0 <= k < |p| ==> r[k] == s[p[k]]
  {
    seq(|p|, k requires 0 <= k < |p| => s[p[k]])
  }

  function RatesOf(candidates: seq<Provider>, prices: map<string, Rates>): (r: seq<Rates>)
    ensures |r| == |candidates|
  {
    seq(|candidates|, i requires 0 <= i < |candidates| =>
      if candidates[i].name in prices then prices[candidates[i].name] else NO_RATES)
  }

  /** Of two providers, one known to be cheaper by the prices at hand. */
  ghost predicate Cheaper(prices: map<string, Rates>, p: Provider, q: Provider)
  {
    p.name in prices && q.name in prices && Undercuts(prices[p.name], prices[q.name])
  }

  /** Nobody follows a provider that it is cheaper than. */
  ghost predicate CheaperFirst(prices: map<string, Rates>, s: seq<Provider>)
  {
    forall i, j :: 0 <= i < j < |s| ==> !Cheaper(prices, s[j], s[i])
  }

  lemma DominatesIsCheaper(candidates: seq<Provider>, prices: map<string, Rates>, i: nat, j: nat)
    requires i < |candidates| && j < |candidates| && i != j
    ensures Dominates(RatesOf(candidates, prices), i, j) <==> Cheaper(prices, candidates[i], candidates[j])
  {
    var rates := RatesOf(candidates, prices);
    DominanceIsMoney(rates[i], rates[j]);
  }

  /** An order that respects dominance never puts a provider behind a dearer one. */
  lemma LinearIsCheaperFirst(candidates: seq<Provider>, prices: map<string, Rates>, order: seq<nat>)
    requires LinearExtension(RatesOf(candidates, prices), order)
    ensures CheaperFirst(prices, Arrange(candidates, order))
  {
    forall i, j | 0 <= i < j < |order|
      ensures !Cheaper(prices, Arrange(candidates, order)[j], Arrange(candidates, order)[i])
    {
      DominatesIsCheaper(candidates, prices, order[j], order[i]);
    }
  }

  /** Candidates that already stand cheaper first stay as configured: among them any that
      conflict, cost the same or have no known price. */
  lemma LeastKeepsCheaperFirst(candidates: seq<Provider>, prices: map<string, Rates>, order: seq<nat>)
    requires CheaperFirst(prices, candidates) && IsOrder(|candidates|, order)
    requires forall q :: LinearExtension(RatesOf(candidates, prices), q) ==> LexAtMost(order, q)
    ensures Arrange(candidates, order) == candidates
  {
    var n := |candidates|;
    var configured: seq<nat> := seq(n, i requires 0 <= i < n => i);
    forall x | 0 <= x < n
      ensures x in configured
    {
      assert configured[x] == x;
    }
    forall i, j | 0 <= i < j < n
      ensures !Dominates(RatesOf(candidates, prices), configured[j], configured[i])
    {
      DominatesIsCheaper(candidates, prices, j, i);
    }
    assert LexAtMost(order, configured);
    NothingIsLess(n, order, configured);
  }

  lemma NothingIsLess(n: nat, order: seq<nat>, configured: seq<nat>)
    requires IsOrder(n, order) && |configured| == n && (forall i :: 0 <= i < n ==> configured[i] == i)
    requires LexAtMost(order, configured)
    ensures order == configured
  {
    forall k | 0 <= k < n && order[..k] == configured[..k]
      ensures order[k] >= k
    {
      forall m | 0 <= m < k
        ensures m in order[..k]
      {
        assert configured[..k][m] == m;
      }
      assert order[k] !in order[..k];
    }
  }

  // ------------------------------------------------------- greedy orders

  /** x is the least position not yet placed all of whose dominators are placed. */
  ghost predicate NextFree(rates: seq<Rates>, placed: seq<nat>, x: nat)
  {
    && x < |rates| && x !in placed
    && (forall a :: Dominates(rates, a, x) ==> a in placed)
    && (forall y :: 0 <= y < x ==> y in placed || exists a :: Dominates(rates, a, y) && a !in placed)
  }

  ghost predicate Greedy(rates: seq<Rates>, p: seq<nat>)
  {
    forall k :: 0 <= k < |p| ==> NextFree(rates, p[..k], p[k])
  }

  lemma {:induction false} Pigeonhole(n: nat, p: seq<nat>)
    requires forall k :: 0 <= k < |p| ==> p[k] < n
    requires forall i, j :: 0 <= i < j < |p| ==> p[i] != p[j]
    ensures |p| <= n
    ensures |p| == n ==> forall x :: 0 <= x < n ==> x in p
    ensures |p| < n ==> exists x :: 0 <= x < n && x !in p
  {
    if p == [] {
      assert 0 !in p;
    } else if exists k :: 0 <= k < |p| && p[k] == n - 1 {
      var k :| 0 <= k < |p| && p[k] == n - 1;
      var rest := p[..k] + p[k + 1..];
      Pigeonhole(n - 1, rest);
      assert forall x :: x in p <==> x == n - 1 || x in rest;
    } else {
      assert p[0] < n;
      Pigeonhole(n - 1, p);
      assert n - 1 !in p;
    }
  }

  lemma GreedyIsOrder(rates: seq<Rates>, p: seq<nat>)
    requires Greedy(rates, p) && |p| == |rates|
    ensures IsOrder(|rates|, p)
  {
    forall i, j | 0 <= i < j < |p|
      ensures p[i] != p[j]
    {
      assert p[i] == p[..j][i];
    }
    Pigeonhole(|rates|, p);
  }

  lemma GreedyIsLinear(rates: seq<Rates>, p: seq<nat>)
    requires Greedy(rates, p) && |p| == |rates|
    ensures LinearExtension(rates, p)
  {
    GreedyIsOrder(rates, p);
    forall i, j | 0 <= i < j < |p|
      ensures !Dominates(rates, p[j], p[i])
    {
      assert NextFree(rates, p[..i], p[i]);
      assert p[j] !in p[..i];
    }
  }

  /** Choosing the least free position each time yields the lexicographically least
      of all linear extensions. */
  lemma GreedyIsLeast(rates: seq<Rates>, p: seq<nat>, q: seq<nat>)
    requires Greedy(rates, p) && |p| == |rates| && LinearExtension(rates, q)
    ensures LexAtMost(p, q)
  {
    GreedyAgreesOrWins(rates, p, q, |p|);
    assert p[..|p|] == p && q[..|p|] == q;
  }

  lemma {:induction false} GreedyAgreesOrWins(rates: seq<Rates>, p: seq<nat>, q: seq<nat>, k: nat)
    requires Greedy(rates, p) && |p| == |rates| && LinearExtension(rates, q) && k <= |p|
    ensures p[..k] == q[..k] || LexAtMost(p, q)
  {
    if k > 0 {
      GreedyAgreesOrWins(rates, p, q, k - 1);
      if p[..k - 1] == q[..k - 1] {
        var x := q[k - 1];
        FreeInExtension(rates, q, k - 1);
        assert NextFree(rates, p[..k - 1], p[k - 1]);
        assert p[k - 1] <= x;
        if p[k - 1] == x {
          assert p[..k] == p[..k - 1] + [x] && q[..k] == q[..k - 1] + [x];
        }
      }
    }
  }

  lemma FreeInExtension(rates: seq<Rates>, q: seq<nat>, k: nat)
    requires LinearExtension(rates, q) && k < |q|
    ensures q[k] !in q[..k]
    ensures forall a :: Dominates(rates, a, q[k]) ==> a in q[..k]
  {
    forall a | Dominates(rates, a, q[k])
      ensures a in q[..k]
    {
      assert a in q;
      var j :| 0 <= j < |q| && q[j] == a;
      assert j < k;
      assert q[..k][j] == a;
    }
  }

  // ------------------------------------------------ progress of the loop

  function Price(r: Rates): nat
    requires Priced(r)
  {
    r.input.value + r.output.value
  }

  /** Dominance has no cycles: a dominator costs strictly less, so among unplaced
      positions there is always one with no unplaced dominator. */
  lemma {:induction false} SomethingIsFree(rates: seq<Rates>, placed: seq<nat>, x: nat)
    requires x < |rates| && x !in placed
    ensures exists y :: 0 <= y < |rates| && y !in placed && forall a :: Dominates(rates, a, y) ==> a in placed
    decreases if Priced(rates[x]) then Price(rates[x]) else 0
  {
    if a :| Dominates(rates, a, x) && a !in placed {
      SomethingIsFree(rates, placed, a);
    }
  }

  /** Unplaced dominators of j among the first i positions. */
  function Waiting(rates: seq<Rates>, selected: seq<bool>, j: nat, i: nat): (n: nat)
    requires i <= |selected|
  {
    if i == 0 then 0
    else Waiting(rates, selected, j, i - 1) + (if !selected[i - 1] && Dominates(rates, i - 1, j) then 1 else 0)
  }

  lemma {:induction false} WaitingZero(rates: seq<Rates>, selected: seq<bool>, j: nat, i: nat)
    requires i <= |selected|
    ensures Waiting(rates, selected, j, i) == 0 <==> forall a :: 0 <= a < i && Dominates(rates, a, j) ==> selected[a]
  {
    if i > 0 {
      WaitingZero(rates, selected, j, i - 1);
    }
  }

  lemma {:induction false} WaitingAfterSelect(rates: seq<Rates>, selected: seq<bool>, x: nat, j: nat, i: nat)
    requires i <= |selected| && x < |selected| && !selected[x]
    ensures Waiting(rates, selected[x := true], j, i)
            == Waiting(rates, selected, j, i) - (if x < i && Dominates(rates, x, j) then 1 else 0)
  {
    if i > 0 {
      WaitingAfterSelect(rates, selected, x, j, i - 1);
    }
  }

  /** What the source's edge lists hold: the positions i dominates, each once. */
  ghost predicate IsEdgeList(rates: seq<Rates>, i: nat, upTo: nat, edges: seq<nat>)
  {
    && (forall k :: 0 <= k < |edges| ==> edges[k] < upTo && Dominates(rates, i, edges[k]))
    && (forall k, l :: 0 <= k < l < |edges| ==> edges[k] < edges[l])
    && (forall j: nat :: j < upTo && Dominates(rates, i, j) ==> j in edges)
  }

  /** One row of the first pass: whom position i dominates, counted into the in-degrees. */
  method BuildRow(rates: seq<Rates>, i: nat, indegree: array<int>, ghost none: seq<bool>) returns (row: seq<nat>)
    requires i < |rates| == indegree.Length == |none| && forall k :: 0 <= k < |none| ==> !none[k]
    requires forall j :: 0 <= j < |rates| ==> indegree[j] == Waiting(rates, none, j, i)
    modifies indegree
    ensures IsEdgeList(rates, i, |rates|, row)
    ensures forall j :: 0 <= j < |rates| ==> indegree[j] == Waiting(rates, none, j, i + 1)
  {
    row := [];
    var j := 0;
    while j < |rates|
      invariant 0 <= j <= |rates|
      invariant IsEdgeList(rates, i, j, row)
      invariant forall k :: 0 <= k < j ==> indegree[k] == Waiting(rates, none, k, i + 1)
      invariant forall k :: j <= k < |rates| ==> indegree[k] == Waiting(rates, none, k, i)
    {
      ghost var before := row;
      if i != j && RatesDominate(rates[i], rates[j]) {
        row := row + [j];
        indegree[j] := indegree[j] + 1;
      }
      assert forall k: nat :: k in before ==> k in row;
      j := j + 1;
    }
  }

  /** The first pass: dominance edges, and for each position its dominator count. */
  method BuildEdges(rates: seq<Rates>) returns (edges: seq<seq<nat>>, indegree: array<int>)
    ensures fresh(indegree) && indegree.Length == |rates| && |edges| == |rates|
    ensures forall i :: 0 <= i < |rates| ==> IsEdgeList(rates, i, |rates|, edges[i])
    ensures forall j :: 0 <= j < |rates| ==>
              indegree[j] == Waiting(rates, seq(|rates|, _ => false), j, |rates|)
  {
    var n := |rates|;
    ghost var none := seq(n, _ => false);
    edges := [];
    indegree := new int[n](_ => 0);
    var i := 0;
    while i < n
      invariant 0 <= i <= n && |edges| == i
      invariant forall k :: 0 <= k < i ==> IsEdgeList(rates, k, n, edges[k])
      invariant forall j :: 0 <= j < n ==> indegree[j] == Waiting(rates, none, j, i)
    {
      var row := BuildRow(rates, i, indegree, none);
      edges := edges + [row];
      i := i + 1;
    }
  }

  /** The scan for the first unselected position with no waiting dominator. */
  method FirstFree(rates: seq<Rates>, selected: seq<bool>, indegree: array<int>, ghost placed: seq<nat>) returns (next: nat)
    requires |selected| == |rates| == indegree.Length
    requires forall i :: 0 <= i < |rates| ==> (selected[i] <==> i in placed)
    requires forall j :: 0 <= j < |rates| ==> indegree[j] == Waiting(rates, selected, j, |rates|)
    requires exists i :: 0 <= i < |rates| && i !in placed
    ensures NextFree(rates, placed, next)
  {
    ghost var x :| 0 <= x < |rates| && x !in placed;
    SomethingIsFree(rates, placed, x);
    ghost var y :| 0 <= y < |rates| && y !in placed && forall a :: Dominates(rates, a, y) ==> a in placed;
    WaitingZero(rates, selected, y, |rates|);
    next := 0;
    while selected[next] || indegree[next] != 0
      invariant next <= y
      invariant forall z :: 0 <= z < next ==> z in placed || exists a :: Dominates(rates, a, z) && a !in placed
      decreases y - next
    {
      WaitingZero(rates, selected, next, |rates|);
      next := next + 1;
    }
    WaitingZero(rates, selected, next, |rates|);
  }

  /** Retiring a selected position: one decrement per edge. */
  method Retire(rates: seq<Rates>, selected: seq<bool>, indegree: array<int>, next: nat, edges: seq<nat>)
    requires |selected| == |rates| == indegree.Length && next < |rates| && !selected[next]
    requires IsEdgeList(rates, next, |rates|, edges)
    requires forall j :: 0 <= j < |rates| ==> indegree[j] == Waiting(rates, selected, j, |rates|)
    modifies indegree
    ensures forall j :: 0 <= j < |rates| ==> indegree[j] == Waiting(rates, selected[next := true], j, |rates|)
  {
    var k := 0;
    while k < |edges|
      invariant 0 <= k <= |edges|
      invariant forall j :: 0 <= j < |rates| ==>
                  indegree[j] == Waiting(rates, selected, j, |rates|) - (if j in edges[..k] then 1 else 0)
    {
      assert edges[..k + 1] == edges[..k] + [edges[k]];
      assert edges[k] !in edges[..k];
      indegree[edges[k]] := indegree[edges[k]] - 1;
      k := k + 1;
    }
    assert edges[..k] == edges;
    forall j | 0 <= j < |rates|
      ensures indegree[j] == Waiting(rates, selected[next := true], j, |rates|)
    {
      WaitingAfterSelect(rates, selected, next, j, |rates|);
    }
  }

  /** orderByPriceDominance. The result is the lexicographically least arrangement,
      by configured position, in which no provider follows one it dominates. The
      source's fallback for a round without a free candidate is never taken. */
  method OrderByPriceDominance(candidates: seq<Provider>, prices: map<string, Rates>)
    returns (result: seq<Provider>, ghost order: seq<nat>)
    ensures IsOrder(|candidates|, order) && result == Arrange(candidates, order)
    ensures multiset(result) == multiset(candidates)
    ensures LinearExtension(RatesOf(candidates, prices), order)
    ensures forall q :: LinearExtension(RatesOf(candidates, prices), q) ==> LexAtMost(order, q)
    ensures CheaperFirst(prices, result) && (CheaperFirst(prices, candidates) ==> result == candidates)
  {
    var rates := RatesOf(candidates, prices);
    var n := |candidates|;
    order := [];
    if n < 2 {
      result := candidates;
      order := if n == 0 then [] else [0];
      assert Greedy(rates, order);
    } else {
      var edges, indegree := BuildEdges(rates);
      var selected := seq(n, _ => false);
      result := [];
      while |result| < n
        invariant |result| == |order| <= n && |selected| == n
        invariant Greedy(rates, order) && result == Arrange(candidates, order)
        invariant forall i :: 0 <= i < n ==> (selected[i] <==> i in order)
        invariant forall j :: 0 <= j < n ==> indegree[j] == Waiting(rates, selected, j, n)
        decreases n - |result|
      {
        assert exists i :: 0 <= i < n && i !in order by { UnplacedExists(rates, order); }
        var next := FirstFree(rates, selected, indegree, order);
        Retire(rates, selected, indegree, next, edges[next]);
        selected := selected[next := true];
        result := result + [candidates[next]];
        GreedySnoc(rates, order, next);
        order := order + [next];
      }
    }
    GreedyIsLinear(rates, order);
    ArrangeKeepsMultiset(candidates, order);
    forall q | LinearExtension(rates, q)
      ensures LexAtMost(order, q)
    {
      GreedyIsLeast(rates, order, q);
    }
    LinearIsCheaperFirst(candidates, prices, order);
    if CheaperFirst(prices, candidates) {
      LeastKeepsCheaperFirst(candidates, prices, order);
    }
  }

  lemma GreedySnoc(rates: seq<Rates>, p: seq<nat>, x: nat)
    requires Greedy(rates, p) && NextFree(rates, p, x)
    ensures Greedy(rates, p + [x])
  {
    var longer := p + [x];
    forall k | 0 <= k < |longer|
      ensures NextFree(rates, longer[..k], longer[k])
    {
      if k < |p| {
        assert longer[..k] == p[..k];
      } else {
        assert longer[..k] == p;
      }
    }
  }

  lemma UnplacedExists(rates: seq<Rates>, p: seq<nat>)
    requires Greedy(rates, p) && |p| < |rates|
    ensures exists i :: 0 <= i < |rates| && i !in p
  {
    forall i, j | 0 <= i < j < |p|
      ensures p[i] != p[j]
    {
      assert p[i] == p[..j][i];
    }
    Pigeonhole(|rates|, p);
  }

  lemma WithoutLast(n: nat, p: seq<nat>, k: nat)
    requires IsOrder(n, p) && k < n && p[k] == n - 1
    ensures IsOrder(n - 1, p[..k] + p[k + 1..])
  {
    var q := p[..k] + p[k + 1..];
    assert forall i :: 0 <= i < |q| ==> q[i] == p[if i < k then i else i + 1];
    forall i | 0 <= i < |q|
      ensures q[i] < n - 1
    {
      assert q[i] != p[k];
    }
    Pigeonhole(n - 1, q);
  }

  /** Rearranging by an order loses and duplicates nothing. */
  lemma {:induction false} ArrangeKeepsMultiset<T>(s: seq<T>, p: seq<nat>)
    requires IsOrder(|s|, p)
    ensures multiset(Arrange(s, p)) == multiset(s)
  {
    if |s| == 0 {
      assert Arrange(s, p) == s;
    } else {
      var k := PositionOf(p, |s| - 1);
      WithoutLast(|s|, p, k);
      ArrangeKeepsMultiset(s[..|s| - 1], p[..k] + p[k + 1..]);
      ArrangeLast(s, p, k);
    }
  }

  function PositionOf(p: seq<nat>, x: nat): (k: nat)
    requires x in p
    ensures k < |p| && p[k] == x
  {
    if p[0] == x then 0 else PositionOf(p[1..], x) + 1
  }

  lemma ArrangeLast<T>(s: seq<T>, p: seq<nat>, k: nat)
    requires IsOrder(|s|, p) && k < |s| && p[k] == |s| - 1
    requires IsOrder(|s| - 1, p[..k] + p[k + 1..])
    requires multiset(Arrange(s[..|s| - 1], p[..k] + p[k + 1..])) == multiset(s[..|s| - 1])
    ensures multiset(Arrange(s, p)) == multiset(s)
  {
    ArrangeWithoutLast(s, p, k);
    InsertionKeepsMultiset(Arrange(s[..|s| - 1], p[..k] + p[k + 1..]), k, s[|s| - 1]);
    assert s == s[..|s| - 1] + [s[|s| - 1]];
  }

  lemma ArrangeWithoutLast<T>(s: seq<T>, p: seq<nat>, k: nat)
    requires IsOrder(|s|, p) && k < |s| && p[k] == |s| - 1
    requires IsOrder(|s| - 1, p[..k] + p[k + 1..])
    ensures var b := Arrange(s[..|s| - 1], p[..k] + p[k + 1..]);
            Arrange(s, p) == b[..k] + [s[|s| - 1]] + b[k..]
  {
    var q := p[..k] + p[k + 1..];
    var b := Arrange(s[..|s| - 1], q);
    var c := b[..k] + [s[|s| - 1]] + b[k..];
    forall i | 0 <= i < |s|
      ensures Arrange(s, p)[i] == c[i]
    {
      if i < k {
        assert q[i] == p[i];
      } else if i > k {
        assert c[i] == b[i - 1] && q[i - 1] == p[i];
      }
    }
  }

  lemma InsertionKeepsMultiset<T>(b: seq<T>, k: nat, x: T)
    requires k <= |b|
    ensures multiset(b[..k] + [x] + b[k..]) == multiset(b) + multiset{x}
  {
    assert b == b[..k] + b[k..];
  }
}
