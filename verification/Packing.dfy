/** Greedy packing of weights onto shards, and Graham's bound for heaviest-first order. */
module Packing {

  /** The weight shard `s` carries when item `i` goes to shard `owner[i]`. */
  function Load(ws: seq<real>, owner: seq<nat>, s: nat): real
    requires |ws| == |owner|
  {
    if ws == [] then 0.0
    else
      var n := |ws| - 1;
      Load(ws[..n], owner[..n], s) + if owner[n] == s then ws[n] else 0.0
  }

  ghost function Sum(ws: seq<real>): real {
    if ws == [] then 0.0 else Sum(ws[..|ws| - 1]) + ws[|ws| - 1]
  }

  /** The total carried by shards `0..m`. */
  ghost function SumLoads(ws: seq<real>, owner: seq<nat>, m: nat): real
    requires |ws| == |owner|
  {
    if m == 0 then 0.0 else SumLoads(ws, owner, m - 1) + Load(ws, owner, m - 1)
  }

  ghost predicate Within(owner: seq<nat>, m: nat) {
    forall i :: 0 <= i < |owner| ==> owner[i] < m
  }

  /** `s` is the lightest of `m` shards, the lowest index among ties. */
  ghost predicate Lightest(ws: seq<real>, owner: seq<nat>, m: nat, s: nat)
    requires |ws| == |owner|
  {
    && s < m
    && (forall k: nat :: k < m ==> Load(ws, owner, s) <= Load(ws, owner, k))
    && (forall k: nat :: k < s ==> Load(ws, owner, s) < Load(ws, owner, k))
  }

  /** The lowest-index lightest shard among `0..m`. */
  function PickLightest(ws: seq<real>, owner: seq<nat>, m: nat): (s: nat)
    requires |ws| == |owner| && 0 < m
    ensures Lightest(ws, owner, m, s)
  {
    if m == 1 then 0
    else
      var s := PickLightest(ws, owner, m - 1);
      if Load(ws, owner, m - 1) < Load(ws, owner, s) then m - 1 else s
  }

  /** Each item in turn goes to the shard that is lightest at that moment. */
  function Greedy(ws: seq<real>, m: nat): (owner: seq<nat>)
    requires 0 < m
    ensures |owner| == |ws| && Within(owner, m)
  {
    if ws == [] then []
    else
      var n := |ws| - 1;
      var before := Greedy(ws[..n], m);
      before + [PickLightest(ws[..n], before, m)]
  }

  // ----- double counting

  lemma {:induction false} SumLoadsOfNothing(m: nat)
    ensures SumLoads([], [], m) == 0.0
  {
    if m > 0 {
      SumLoadsOfNothing(m - 1);
    }
  }

  lemma {:induction false} SumLoadsAppend(ws: seq<real>, owner: seq<nat>, w: real, s: nat, m: nat)
    requires |ws| == |owner|
    ensures SumLoads(ws + [w], owner + [s], m) == SumLoads(ws, owner, m) + if s < m then w else 0.0
  {
    if m > 0 {
      SumLoadsAppend(ws, owner, w, s, m - 1);
      assert (ws + [w])[..|ws|] == ws && (owner + [s])[..|ws|] == owner;
    }
  }

  /** No weight is lost: the shards together carry the sum of all items. */
  lemma {:induction false} SumLoadsIsSum(ws: seq<real>, owner: seq<nat>, m: nat)
    requires |ws| == |owner| && Within(owner, m)
    ensures SumLoads(ws, owner, m) == Sum(ws)
  {
    if ws == [] {
      SumLoadsOfNothing(m);
    } else {
      var n := |ws| - 1;
      SumLoadsIsSum(ws[..n], owner[..n], m);
      SumLoadsAppend(ws[..n], owner[..n], ws[n], owner[n], m);
      assert ws[..n] + [ws[n]] == ws && owner[..n] + [owner[n]] == owner;
    }
  }

  lemma {:induction false} SumLoadsAtLeast(ws: seq<real>, owner: seq<nat>, m: nat, low: real)
    requires |ws| == |owner|
    requires forall k: nat :: k < m ==> low <= Load(ws, owner, k)
    ensures m as real * low <= SumLoads(ws, owner, m)
  {
    if m > 0 {
      SumLoadsAtLeast(ws, owner, m - 1, low);
    }
  }

  lemma {:induction false} SumLoadsAtMost(ws: seq<real>, owner: seq<nat>, m: nat, high: real)
    requires |ws| == |owner|
    requires forall k: nat :: k < m ==> Load(ws, owner, k) <= high
    ensures SumLoads(ws, owner, m) <= m as real * high
  {
    if m > 0 {
      SumLoadsAtMost(ws, owner, m - 1, high);
    }
  }

  lemma {:induction false} LoadNonNegative(ws: seq<real>, owner: seq<nat>, s: nat)
    requires |ws| == |owner| && forall i :: 0 <= i < |ws| ==> 0.0 <= ws[i]
    ensures 0.0 <= Load(ws, owner, s)
  {
    if ws != [] {
      LoadNonNegative(ws[..|ws| - 1], owner[..|ws| - 1], s);
    }
  }

  /** Dropping the last item lowers no shard by more than that item, and raises none. */
  lemma LoadOfPrefix(ws: seq<real>, owner: seq<nat>, s: nat)
    requires |ws| == |owner| && ws != [] && 0.0 <= ws[|ws| - 1]
    ensures Load(ws[..|ws| - 1], owner[..|ws| - 1], s) <= Load(ws, owner, s)
  {
  }

  // ----- the large-item case: every item is heavier than a third of the limit

  /** Two for an item that fits beside no other, one for the rest. */
  ghost function Score(x: real, w: real, limit: real): real {
    if x + w > limit then 2.0 else 1.0
  }

  ghost function Scores(ws: seq<real>, w: real, limit: real): (r: seq<real>)
    ensures |r| == |ws|
  {
    seq(|ws|, i requires 0 <= i < |ws| => Score(ws[i], w, limit))
  }

  lemma ScoresOfPrefix(ws: seq<real>, w: real, limit: real)
    requires ws != []
    ensures Scores(ws, w, limit)[..|ws| - 1] == Scores(ws[..|ws| - 1], w, limit)
  {
  }

  /** A shard that stays within the limit scores at most two. */
  lemma {:induction false} FeasibleScore(ws: seq<real>, owner: seq<nat>, s: nat, w: real, limit: real)
    requires |ws| == |owner| && 0.0 < limit
    requires forall i :: 0 <= i < |ws| ==> w <= ws[i] && limit < 3.0 * ws[i]
    ensures var score := Load(Scores(ws, w, limit), owner, s);
            var load := Load(ws, owner, s);
            || (score == 0.0 && load == 0.0)
            || (score == 1.0 && w <= load && limit < 3.0 * load)
            || (score == 2.0 && (limit - w < load || 2.0 * limit < 3.0 * load))
            || (3.0 <= score && limit < load)
  {
    if ws != [] {
      var n := |ws| - 1;
      FeasibleScore(ws[..n], owner[..n], s, w, limit);
      ScoresOfPrefix(ws, w, limit);
    }
  }

  /** A shard loaded past `limit - w` scores at least two. */
  lemma {:induction false} OverfullScore(ws: seq<real>, owner: seq<nat>, s: nat, w: real, limit: real)
    requires |ws| == |owner| && w <= limit
    ensures var score := Load(Scores(ws, w, limit), owner, s);
            var load := Load(ws, owner, s);
            (score == 0.0 && load == 0.0) || (score == 1.0 && load + w <= limit) || 2.0 <= score
  {
    if ws != [] {
      var n := |ws| - 1;
      OverfullScore(ws[..n], owner[..n], s, w, limit);
      ScoresOfPrefix(ws, w, limit);
    }
  }

  /** When all items are heavier than a third of a feasible limit, any packing of the others
      leaves a shard with room for the last one. */
  lemma LargeItemsFit(ws: seq<real>, owner: seq<nat>, m: nat, s: nat, w: real, other: seq<nat>, limit: real)
    requires 0 < m && |ws| == |owner| && Within(owner, m) && Lightest(ws, owner, m, s)
    requires 0.0 < w && limit < 3.0 * w
    requires forall i :: 0 <= i < |ws| ==> w <= ws[i]
    requires |other| == |ws| + 1 && Within(other, m)
    requires forall k: nat :: k < m ==> Load(ws + [w], other, k) <= limit
    ensures Load(ws, owner, s) + w <= limit
  {
    var all := ws + [w];
    assert all[..|ws|] == ws;
    LoadNonNegative(ws, other[..|ws|], other[|ws|]);
    assert w <= Load(all, other, other[|ws|]) <= limit;
    if limit < Load(ws, owner, s) + w {
      var scores := Scores(ws, w, limit);
      forall k: nat | k < m ensures 2.0 <= Load(scores, owner, k) {
        OverfullScore(ws, owner, k, w, limit);
      }
      SumLoadsAtLeast(scores, owner, m, 2.0);
      SumLoadsIsSum(scores, owner, m);
      var allScores := Scores(all, w, limit);
      ScoresOfPrefix(all, w, limit);
      forall k: nat | k < m ensures Load(allScores, other, k) <= 2.0 {
        FeasibleScore(all, other, k, w, limit);
      }
      SumLoadsAtMost(allScores, other, m, 2.0);
      SumLoadsIsSum(allScores, other, m);
    }
  }

  /** `4/3 - 1/(3m)` times the limit. */
  ghost function GrahamBound(m: nat, limit: real): real
    requires 0 < m
  {
    limit + (1.0 - 1.0 / m as real) * limit / 3.0
  }

  lemma ProductMonotone(c: real, x: real, y: real)
    requires 0.0 <= c && x <= y
    ensures c * x <= c * y
  {
  }

  lemma GrahamBoundAboveLimit(m: nat, limit: real)
    requires 0 < m && 0.0 <= limit
    ensures limit <= GrahamBound(m, limit)
  {
    ProductMonotone(limit, 0.0, 1.0 - 1.0 / m as real);
  }

  lemma AverageArithmetic(m: nat, x: real, w: real, limit: real)
    requires 0 < m && m as real * x + w <= m as real * limit && 3.0 * w <= limit
    ensures x + w <= GrahamBound(m, limit)
  {
    var r := m as real;
    var q := 1.0 / r;
    Reciprocal(r, q);
    ScaleDown(r, q, x, w, limit);
    ProductMonotone(1.0 - q, w, limit / 3.0);
    assert (1.0 - q) * (limit / 3.0) == (1.0 - q) * limit / 3.0;
  }

  lemma Reciprocal(r: real, q: real)
    requires 1.0 <= r && q == 1.0 / r
    ensures q * r == 1.0 && 0.0 <= q <= 1.0
  {
  }

  lemma ScaleDown(r: real, q: real, x: real, w: real, limit: real)
    requires q * r == 1.0 && 0.0 <= q && r * x + w <= r * limit
    ensures x + w <= limit + (1.0 - q) * w
  {
    ProductMonotone(q, r * x + w, r * limit);
    assert q * (r * x + w) == (q * r) * x + q * w;
    assert q * (r * limit) == (q * r) * limit;
  }

  /** The small-item case: the lightest shard is no heavier than the average. */
  lemma SmallItemFits(ws: seq<real>, owner: seq<nat>, m: nat, s: nat, w: real, other: seq<nat>, limit: real)
    requires 0 < m && |ws| == |owner| && Within(owner, m) && Lightest(ws, owner, m, s)
    requires |other| == |ws| + 1 && Within(other, m)
    requires forall k: nat :: k < m ==> Load(ws + [w], other, k) <= limit
    ensures m as real * Load(ws, owner, s) + w <= m as real * limit
  {
    var all := ws + [w];
    assert all[..|ws|] == ws;
    SumLoadsAtLeast(ws, owner, m, Load(ws, owner, s));
    SumLoadsIsSum(ws, owner, m);
    SumLoadsAtMost(all, other, m, limit);
    SumLoadsIsSum(all, other, m);
  }

  /** One placement: the lightest shard takes the next, no heavier, item within the bound. */
  lemma GreedyStep(ws: seq<real>, owner: seq<nat>, m: nat, s: nat, w: real, other: seq<nat>, limit: real)
    requires 0 < m && |ws| == |owner| && Within(owner, m) && Lightest(ws, owner, m, s)
    requires 0.0 < w && 0.0 <= limit
    requires forall i :: 0 <= i < |ws| ==> w <= ws[i]
    requires |other| == |ws| + 1 && Within(other, m)
    requires forall k: nat :: k < m ==> Load(ws + [w], other, k) <= limit
    ensures Load(ws, owner, s) + w <= GrahamBound(m, limit)
  {
    if limit < 3.0 * w {
      LargeItemsFit(ws, owner, m, s, w, other, limit);
      GrahamBoundAboveLimit(m, limit);
    } else {
      SmallItemFits(ws, owner, m, s, w, other, limit);
      AverageArithmetic(m, Load(ws, owner, s), w, limit);
    }
  }

  /** Heaviest-first greedy packing is within `4/3 - 1/(3m)` of every other packing. */
  lemma {:induction false} GreedyBound(ws: seq<real>, m: nat, other: seq<nat>, limit: real, s: nat)
    requires 0 < m && s < m
    requires forall i :: 0 <= i < |ws| ==> 0.0 < ws[i]
    requires forall i, j :: 0 <= i < j < |ws| ==> ws[j] <= ws[i]
    requires |other| == |ws| && Within(other, m) && 0.0 <= limit
    requires forall k: nat :: k < m ==> Load(ws, other, k) <= limit
    ensures Load(ws, Greedy(ws, m), s) <= GrahamBound(m, limit)
  {
    if ws == [] {
      GrahamBoundAboveLimit(m, limit);
    } else {
      var n := |ws| - 1;
      var front, w := ws[..n], ws[n];
      var before := Greedy(front, m);
      var chosen := PickLightest(front, before, m);
      assert front + [w] == ws && forall i :: 0 <= i < n ==> front[i] == ws[i];
      assert Load(ws, Greedy(ws, m), s) == Load(front, before, s) + if chosen == s then w else 0.0 by {
        assert Greedy(ws, m)[..n] == before && Greedy(ws, m)[n] == chosen;
      }
      if s == chosen {
        GreedyStep(front, before, m, s, w, other, limit);
      } else {
        forall k: nat | k < m ensures Load(front, other[..n], k) <= limit {
          LoadOfPrefix(ws, other, k);
        }
        GreedyBound(front, m, other[..n], limit, s);
      }
    }
  }

  /** The bound is attained: two shards, weights 3 3 2 2 2, greedy 7 against an optimum of 6. */
  lemma GreedyBoundIsTight()
    ensures var ws, other := [3.0, 3.0, 2.0, 2.0, 2.0], [0, 0, 1, 1, 1];
            && (forall k: nat :: k < 2 ==> Load(ws, other, k) == 6.0)
            && Load(ws, Greedy(ws, 2), 0) == 7.0
            && 7.0 == GrahamBound(2, 6.0)
  {
    assert GrahamBound(2, 6.0) == 7.0;
    GreedyOnFive();
  }

  /** One more item on two shards: the greedy owner and both loads. */
  lemma GreedyOnTwo(ws: seq<real>, w: real, left: real, right: real)
    requires Load(ws, Greedy(ws, 2), 0) == left && Load(ws, Greedy(ws, 2), 1) == right
    ensures var owner := Greedy(ws + [w], 2);
            && Load(ws + [w], owner, 0) == (if right < left then left else left + w)
            && Load(ws + [w], owner, 1) == (if right < left then right + w else right)
  {
    var owner := Greedy(ws, 2);
    assert (ws + [w])[..|ws|] == ws;
    assert PickLightest(ws, owner, 1) == 0;
    assert Greedy(ws + [w], 2)[..|ws|] == owner;
  }

  lemma LoadOfNext(ws: seq<real>, owner: seq<nat>, n: nat, k: nat)
    requires |ws| == |owner| && n < |ws|
    ensures Load(ws[..n + 1], owner[..n + 1], k) == Load(ws[..n], owner[..n], k) + if owner[n] == k then ws[n] else 0.0
  {
    assert ws[..n + 1][..n] == ws[..n] && owner[..n + 1][..n] == owner[..n];
  }

  lemma LoadOfFive(ws: seq<real>, owner: seq<nat>, k: nat)
    requires |ws| == |owner| == 5 && owner[0] == owner[1] == 0 && owner[2] == owner[3] == owner[4] == 1 && k < 2
    ensures Load(ws, owner, k) == if k == 0 then ws[0] + ws[1] else ws[2] + ws[3] + ws[4]
  {
    LoadOfNext(ws, owner, 0, k);
    LoadOfNext(ws, owner, 1, k);
    LoadOfNext(ws, owner, 2, k);
    LoadOfNext(ws, owner, 3, k);
    LoadOfNext(ws, owner, 4, k);
    assert ws[..0] == [] && ws[..5] == ws && owner[..5] == owner;
  }

  lemma GreedyOnFive()
    ensures var ws, other := [3.0, 3.0, 2.0, 2.0, 2.0], [0, 0, 1, 1, 1];
            && (forall k: nat :: k < 2 ==> Load(ws, other, k) == 6.0)
            && Load(ws, Greedy(ws, 2), 0) == 7.0
  {
    GreedyOnTwo([], 3.0, 0.0, 0.0);
    assert [] + [3.0] == [3.0];
    GreedyOnTwo([3.0], 3.0, 3.0, 0.0);
    assert [3.0] + [3.0] == [3.0, 3.0];
    GreedyOnTwo([3.0, 3.0], 2.0, 3.0, 3.0);
    assert [3.0, 3.0] + [2.0] == [3.0, 3.0, 2.0];
    GreedyOnTwo([3.0, 3.0, 2.0], 2.0, 5.0, 3.0);
    assert [3.0, 3.0, 2.0] + [2.0] == [3.0, 3.0, 2.0, 2.0];
    GreedyOnTwo([3.0, 3.0, 2.0, 2.0], 2.0, 5.0, 5.0);
    assert [3.0, 3.0, 2.0, 2.0] + [2.0] == [3.0, 3.0, 2.0, 2.0, 2.0];
    forall k: nat | k < 2 ensures Load([3.0, 3.0, 2.0, 2.0, 2.0], [0, 0, 1, 1, 1], k) == 6.0 {
      LoadOfFive([3.0, 3.0, 2.0, 2.0, 2.0], [0, 0, 1, 1, 1], k);
    }
  }

  /** With positive weights the first `m` items open `m` different shards. */
  lemma {:induction false} GreedyOpensShards(ws: seq<real>, m: nat)
    requires 0 < m && forall i :: 0 <= i < |ws| ==> 0.0 < ws[i]
    ensures forall s: nat :: s < m ==>
              if s < |ws| then 0.0 < Load(ws, Greedy(ws, m), s) && s in Greedy(ws, m)
              else Load(ws, Greedy(ws, m), s) == 0.0
  {
    if ws != [] {
      var n := |ws| - 1;
      GreedyOpensShards(ws[..n], m);
      var before := Greedy(ws[..n], m);
      var chosen := PickLightest(ws[..n], before, m);
      var owner := Greedy(ws, m);
      assert owner == before + [chosen] && owner[..n] == before && owner[n] == chosen;
      if n < m {
        assert Load(ws[..n], before, n) == 0.0;
        assert chosen == n;
      }
      forall s: nat | s < m
        ensures if s < |ws| then 0.0 < Load(ws, owner, s) && s in owner else Load(ws, owner, s) == 0.0
      {
        if s < n {
          assert s in before;
        }
      }
    }
  }
}
