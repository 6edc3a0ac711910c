/** Sharing a total among weighted entries by largest remainder, ties in order. */
module Allocation {

  datatype Error = BadTotal | BadWeights | Limited
  datatype Result<+T> = Ok(value: T) | Err(error: Error)

  // ------------------------------------------------------------------ sums

  function Sum(s: seq<int>): int {
    if s == [] then 0 else Sum(s[..|s| - 1]) + s[|s| - 1]
  }

  lemma {:induction false} SumUpdate(s: seq<int>, i: nat, v: int)
    requires i < |s|
    ensures Sum(s[i := v]) == Sum(s) - s[i] + v
  {
    var n := |s| - 1;
    if i < n {
      assert s[i := v][..n] == s[..n][i := v];
      SumUpdate(s[..n], i, v);
    } else {
      assert s[i := v][..n] == s[..n];
    }
  }

  predicate NonNegative(s: seq<int>) {
    forall i :: 0 <= i < |s| ==> 0 <= s[i]
  }

  lemma {:induction false} SumBounds(s: seq<int>)
    requires NonNegative(s)
    ensures 0 <= Sum(s) && forall i :: 0 <= i < |s| ==> s[i] <= Sum(s)
  {
    if s != [] {
      SumBounds(s[..|s| - 1]);
    }
  }

  // ------------------------------------------------------------------ shares

  /** Whole part and remainder of each entry's exact share, in units of 1 / sum. */
  function Floors(total: nat, weights: seq<int>, sum: int): (r: seq<int>)
    requires 0 < sum
    ensures |r| == |weights|
  {
    seq(|weights|, i requires 0 <= i < |weights| => (total * weights[i]) / sum)
  }

  function Remainders(total: nat, weights: seq<int>, sum: int): (r: seq<int>)
    requires 0 < sum
    ensures |r| == |weights| && forall i :: 0 <= i < |r| ==> 0 <= r[i] < sum
  {
    seq(|weights|, i requires 0 <= i < |weights| => (total * weights[i]) % sum)
  }

  lemma {:induction false} PartsAddUp(total: nat, weights: seq<int>, sum: int)
    requires 0 < sum
    ensures total * Sum(weights) == sum * Sum(Floors(total, weights, sum)) + Sum(Remainders(total, weights, sum))
  {
    if weights != [] {
      var n := |weights| - 1;
      PartsAddUp(total, weights[..n], sum);
      assert Floors(total, weights, sum)[..n] == Floors(total, weights[..n], sum);
      assert Remainders(total, weights, sum)[..n] == Remainders(total, weights[..n], sum);
      OnePart(total, Sum(weights[..n]), weights[n], sum, Sum(Floors(total, weights[..n], sum)),
              Sum(Remainders(total, weights[..n], sum)));
    }
  }

  lemma OnePart(total: nat, before: int, weight: int, sum: int, floors: int, rests: int)
    requires 0 < sum && total * before == sum * floors + rests
    ensures total * (before + weight) == sum * (floors + (total * weight) / sum) + (rests + (total * weight) % sum)
  {
    var q, r := (total * weight) / sum, (total * weight) % sum;
    assert total * weight == sum * q + r;
    Distribute(total, before, weight);
    Distribute(sum, floors, q);
  }

  lemma Distribute(a: int, b: int, c: int)
    ensures a * (b + c) == a * b + a * c
  {
  }

  // ------------------------------------------------------------------ who gets the rest

  /** Comes before in the order of falling remainders, ties by place. */
  predicate Ahead(rem: seq<int>, i: nat, j: nat)
    requires i < |rem| && j < |rem|
  {
    rem[i] > rem[j] || (rem[i] == rem[j] && i < j)
  }

  predicate Ranked(rem: seq<int>, order: seq<nat>) {
    && (forall k :: 0 <= k < |order| ==> order[k] < |rem|)
    && (forall j, k :: 0 <= j < k < |order| ==> Ahead(rem, order[j], order[k]))
  }

  function Inserted(rem: seq<int>, order: seq<nat>, i: nat): (r: seq<nat>)
    requires i < |rem| && forall k :: 0 <= k < |order| ==> order[k] < i
    ensures |r| == |order| + 1 && forall k :: 0 <= k < |r| ==> r[k] <= i
    ensures forall j :: j in r <==> j in order || j == i
  {
    if order == [] || rem[order[|order| - 1]] >= rem[i] then order + [i]
    else Inserted(rem, order[..|order| - 1], i) + [order[|order| - 1]]
  }

  /** sorted() by falling remainder, which keeps ties in order. */
  function Order(rem: seq<int>, n: nat): (r: seq<nat>)
    requires n <= |rem|
    ensures |r| == n && forall k :: 0 <= k < n ==> r[k] < n
    ensures forall i: nat :: i < n ==> i in r
  {
    if n == 0 then [] else Inserted(rem, Order(rem, n - 1), n - 1)
  }

  lemma {:induction false} InsertedRanked(rem: seq<int>, order: seq<nat>, i: nat)
    requires Ranked(rem, order) && i < |rem| && forall k :: 0 <= k < |order| ==> order[k] < i
    ensures Ranked(rem, Inserted(rem, order, i))
  {
    var n := |order| - 1;
    if order != [] && rem[order[n]] < rem[i] {
      InsertedRanked(rem, order[..n], i);
      var before := Inserted(rem, order[..n], i);
      forall k | 0 <= k < |before|
        ensures Ahead(rem, before[k], order[n])
      {
        assert before[k] in order[..n] || before[k] == i;
      }
    }
  }

  lemma {:induction false} OrderRanked(rem: seq<int>, n: nat)
    requires n <= |rem|
    ensures Ranked(rem, Order(rem, n))
  {
    if n > 0 {
      OrderRanked(rem, n - 1);
      InsertedRanked(rem, Order(rem, n - 1), n - 1);
    }
  }

  /** The remainders of these entries together. */
  function SumOf(rem: seq<int>, order: seq<nat>): int
    requires forall k :: 0 <= k < |order| ==> order[k] < |rem|
  {
    if order == [] then 0 else SumOf(rem, order[..|order| - 1]) + rem[order[|order| - 1]]
  }

  lemma {:induction false} InsertedSum(rem: seq<int>, order: seq<nat>, i: nat)
    requires i < |rem| && forall k :: 0 <= k < |order| ==> order[k] < i
    ensures SumOf(rem, Inserted(rem, order, i)) == SumOf(rem, order) + rem[i]
  {
    var n := |order| - 1;
    if order == [] || rem[order[n]] >= rem[i] {
      assert (order + [i])[..|order|] == order;
    } else {
      InsertedSum(rem, order[..n], i);
      var before := Inserted(rem, order[..n], i);
      assert (before + [order[n]])[..|before|] == before;
    }
  }

  lemma SumPrefix(s: seq<int>, n: nat)
    requires 0 < n <= |s|
    ensures Sum(s[..n]) == Sum(s[..n - 1]) + s[n - 1]
  {
    assert s[..n][..n - 1] == s[..n - 1];
  }

  lemma {:induction false} OrderSum(rem: seq<int>, n: nat)
    requires n <= |rem|
    ensures SumOf(rem, Order(rem, n)) == Sum(rem[..n])
  {
    if n > 0 {
      var before := Order(rem, n - 1);
      OrderSum(rem, n - 1);
      InsertedSum(rem, before, n - 1);
      SumPrefix(rem, n);
    }
  }

  /** Fewer than a whole unit each: the sum of the first m, when the rest has nothing. */
  lemma {:induction false} SumOfBound(rem: seq<int>, order: seq<nat>, m: nat, unit: int)
    requires forall k :: 0 <= k < |order| ==> order[k] < |rem|
    requires 0 < unit && m <= |order| && forall i :: 0 <= i < |rem| ==> 0 <= rem[i] < unit
    requires forall k :: m <= k < |order| ==> rem[order[k]] == 0
    ensures SumOf(rem, order) <= m * (unit - 1)
    decreases |order|
  {
    if order != [] {
      var n := |order| - 1;
      if m <= n {
        SumOfBound(rem, order[..n], m, unit);
      } else {
        SumOfBound(rem, order[..n], n, unit);
        Distribute(unit - 1, n, 1);
      }
    }
  }

  function Rest(total: nat, weights: seq<int>): int
    requires 0 < Sum(weights)
  {
    total - Sum(Floors(total, weights, Sum(weights)))
  }

  function Ranking(total: nat, weights: seq<int>): (r: seq<nat>)
    requires 0 < Sum(weights)
    ensures |r| == |weights| && forall k :: 0 <= k < |r| ==> r[k] < |weights|
  {
    Order(Remainders(total, weights, Sum(weights)), |weights|)
  }

  lemma Remaining(total: int, sum: int, given: int, rest: int)
    requires total * sum == sum * given + rest
    ensures rest == sum * (total - given)
  {
  }

  /** The remainders make up exactly the units that are left. */
  lemma RestInRemainders(total: nat, weights: seq<int>)
    requires 0 < Sum(weights)
    ensures var rem := Remainders(total, weights, Sum(weights));
      0 <= Sum(rem) == Sum(weights) * Rest(total, weights) == SumOf(rem, Ranking(total, weights))
  {
    var sum := Sum(weights);
    var rem := Remainders(total, weights, sum);
    PartsAddUp(total, weights, sum);
    Remaining(total, sum, Sum(Floors(total, weights, sum)), Sum(rem));
    OrderSum(rem, |rem|);
    assert rem[..|rem|] == rem;
    SumBounds(rem);
  }

  lemma NothingAfter(rem: seq<int>, order: seq<nat>, k: nat)
    requires Ranked(rem, order) && k < |order| && rem[order[k]] == 0 && NonNegative(rem)
    ensures forall j :: k <= j < |order| ==> rem[order[j]] == 0
  {
    assert forall j :: k < j < |order| ==> Ahead(rem, order[k], order[j]);
  }

  /** The rest to hand out is at most one each, and the front of the ranking has something left of its share. */
  lemma RestIsSmall(total: nat, weights: seq<int>)
    requires 0 < Sum(weights)
    ensures 0 <= Rest(total, weights) <= |weights|
  {
    var rem := Remainders(total, weights, Sum(weights));
    RestInRemainders(total, weights);
    NonNegativeFactor(Sum(weights), Rest(total, weights));
    SumOfBound(rem, Ranking(total, weights), |rem|, Sum(weights));
    AtMost(Sum(weights), Rest(total, weights), |rem|);
  }

  /** Whoever has nothing left of its share, everybody after it has nothing left either: `rest` does not reach it. */
  lemma RestEndsBefore(rem: seq<int>, order: seq<nat>, k: nat, rest: int, unit: int)
    requires Ranked(rem, order) && k < |order| && rem[order[k]] == 0
    requires 0 < unit && SumOf(rem, order) == unit * rest && forall i :: 0 <= i < |rem| ==> 0 <= rem[i] < unit
    ensures rest <= k
  {
    NothingAfter(rem, order, k);
    SumOfBound(rem, order, k, unit);
    AtMost(unit, rest, k);
  }

  lemma FrontHasRemainder(total: nat, weights: seq<int>, rem: seq<int>, k: nat)
    requires 0 < Sum(weights) && k < |weights| && rem == Remainders(total, weights, Sum(weights))
    ensures k < Rest(total, weights) ==> 0 < rem[Ranking(total, weights)[k]]
  {
    if rem[Ranking(total, weights)[k]] == 0 {
      RestInRemainders(total, weights);
      OrderRanked(rem, |rem|);
      RestEndsBefore(rem, Ranking(total, weights), k, Rest(total, weights), Sum(weights));
    }
  }

  lemma NonNegativeFactor(a: int, b: int)
    requires 0 < a && 0 <= a * b
    ensures 0 <= b
  {
  }

  lemma NonPositiveFactor(a: int, b: int)
    requires 0 < a && a * b <= 0
    ensures b <= 0
  {
  }

  lemma AtMost(unit: int, rest: int, m: nat)
    requires 0 < unit && unit * rest <= m * (unit - 1)
    ensures rest <= m
  {
    Distribute(unit, rest - m, m);
    NonPositiveFactor(unit, rest - m);
  }

  // ------------------------------------------------------------------ the allocation

  function Raised(counts: seq<int>, order: seq<nat>): (r: seq<int>)
    requires forall k :: 0 <= k < |order| ==> order[k] < |counts|
    ensures |r| == |counts|
    decreases |order|
  {
    if order == [] then counts
    else
      var n := |order| - 1;
      var before := Raised(counts, order[..n]);
      before[order[n] := before[order[n]] + 1]
  }

  predicate GoodWeights(weights: seq<int>) {
    NonNegative(weights) && 0 < Sum(weights)
  }

  /** Those that get one more. */
  function First(total: nat, weights: seq<int>): (r: seq<nat>)
    requires 0 < Sum(weights)
    ensures |r| == Rest(total, weights) && |r| <= |weights| && forall k :: 0 <= k < |r| ==> r[k] < |weights|
    ensures forall k :: 0 <= k < |r| ==> r[k] == Ranking(total, weights)[k]
  {
    RestIsSmall(total, weights);
    Ranking(total, weights)[..Rest(total, weights)]
  }

  function Shares(total: nat, weights: seq<int>): (r: seq<int>)
    requires 0 < Sum(weights)
    ensures |r| == |weights|
  {
    Raised(Floors(total, weights, Sum(weights)), First(total, weights))
  }

  method Allocate(total: int, weights: seq<int>) returns (r: Result<seq<int>>)
    ensures r.Ok? <==> 1 <= total && GoodWeights(weights)
    ensures r.Ok? ==> r.value == Shares(total, weights)
    ensures r.Err? ==> r.error == if total < 1 then BadTotal else BadWeights
  {
    if total < 1 {
      return Err(BadTotal);
    }
    if weights == [] || exists i :: 0 <= i < |weights| && weights[i] < 0 {
      return Err(BadWeights);
    }
    SumBounds(weights);
    var sum := Sum(weights);
    if forall i :: 0 <= i < |weights| ==> weights[i] == 0 {
      AllZero(weights);
      return Err(BadWeights);
    }
    var counts := Floors(total, weights, sum);
    var order := Order(Remainders(total, weights, sum), |weights|);
    var rest := total - Sum(counts);
    RestIsSmall(total, weights);
    ghost var floors := counts;
    var k := 0;
    while k < rest
      invariant 0 <= k <= rest && counts == Raised(floors, order[..k])
    {
      assert order[..k + 1][..k] == order[..k];
      counts := counts[order[k] := counts[order[k]] + 1];
      k := k + 1;
    }
    r := Ok(counts);
  }

  lemma {:induction false} AllZero(s: seq<int>)
    requires forall i :: 0 <= i < |s| ==> s[i] == 0
    ensures Sum(s) == 0
  {
    if s != [] {
      AllZero(s[..|s| - 1]);
    }
  }

  predicate DistinctPlaces(order: seq<nat>) {
    forall j, k :: 0 <= j < k < |order| ==> order[j] != order[k]
  }

  lemma {:induction false} RaisedSum(counts: seq<int>, order: seq<nat>)
    requires forall k :: 0 <= k < |order| ==> order[k] < |counts|
    ensures Sum(Raised(counts, order)) == Sum(counts) + |order|
    decreases |order|
  {
    if order != [] {
      var n := |order| - 1;
      RaisedSum(counts, order[..n]);
      var before := Raised(counts, order[..n]);
      SumUpdate(before, order[n], before[order[n]] + 1);
    }
  }

  lemma {:induction false} RaisedAt(counts: seq<int>, order: seq<nat>, i: nat)
    requires (forall k :: 0 <= k < |order| ==> order[k] < |counts|) && DistinctPlaces(order) && i < |counts|
    ensures Raised(counts, order)[i] == counts[i] + if i in order then 1 else 0
    decreases |order|
  {
    if order != [] {
      var n := |order| - 1;
      RaisedAt(counts, order[..n], i);
    }
  }

  /** The allocation gives out the whole total. */
  lemma AllocatesAll(total: nat, weights: seq<int>)
    requires 0 < Sum(weights)
    ensures Sum(Shares(total, weights)) == total
  {
    RaisedSum(Floors(total, weights, Sum(weights)), First(total, weights));
  }

  lemma RankingDistinct(total: nat, weights: seq<int>)
    requires 0 < Sum(weights)
    ensures DistinctPlaces(First(total, weights))
  {
    var rem := Remainders(total, weights, Sum(weights));
    OrderRanked(rem, |rem|);
    RestIsSmall(total, weights);
    RankedDistinct(rem, Ranking(total, weights), |First(total, weights)|);
  }

  lemma RankedDistinct(rem: seq<int>, order: seq<nat>, n: nat)
    requires Ranked(rem, order) && n <= |order|
    ensures DistinctPlaces(order[..n])
  {
    forall j, k | 0 <= j < k < n
      ensures order[j] != order[k]
    {
      assert Ahead(rem, order[j], order[k]);
    }
  }

  /** Each entry gets its exact share rounded down, or up when that is not whole. */
  lemma SharesAreRounded(total: nat, weights: seq<int>, i: nat)
    requires GoodWeights(weights) && i < |weights|
    ensures var floors, rem := Floors(total, weights, Sum(weights)), Remainders(total, weights, Sum(weights));
      && Shares(total, weights)[i] == floors[i] + (if i in First(total, weights) then 1 else 0)
      && total * weights[i] == Sum(weights) * floors[i] + rem[i] && 0 <= floors[i]
      && (i in First(total, weights) ==> 0 < rem[i])
  {
    RankingDistinct(total, weights);
    RaisedAt(Floors(total, weights, Sum(weights)), First(total, weights), i);
    NonNegativeShare(total, weights[i], Sum(weights));
    if i in First(total, weights) {
      FirstHasRemainder(total, weights, Remainders(total, weights, Sum(weights)), i);
    }
  }

  lemma FirstHasRemainder(total: nat, weights: seq<int>, rem: seq<int>, i: nat)
    requires 0 < Sum(weights) && i < |weights| && i in First(total, weights)
    requires rem == Remainders(total, weights, Sum(weights))
    ensures 0 < rem[i]
  {
    var first := First(total, weights);
    var k :| 0 <= k < |first| && first[k] == i;
    FrontHasRemainder(total, weights, rem, k);
  }

  /** Those rounded up have the largest remainders, ties in order. */
  lemma LargestRemaindersFirst(total: nat, weights: seq<int>, i: nat, j: nat)
    requires GoodWeights(weights) && i < |weights| && j < |weights|
    requires i in First(total, weights) && j !in First(total, weights)
    ensures Ahead(Remainders(total, weights, Sum(weights)), i, j)
  {
    var rem := Remainders(total, weights, Sum(weights));
    OrderRanked(rem, |rem|);
    RestIsSmall(total, weights);
    FirstAhead(rem, Ranking(total, weights), Rest(total, weights), i, j);
  }

  lemma FirstAhead(rem: seq<int>, order: seq<nat>, rest: nat, i: nat, j: nat)
    requires Ranked(rem, order) && rest <= |order| && i in order[..rest] && j !in order[..rest] && j in order
    requires i < |rem| && j < |rem|
    ensures Ahead(rem, i, j)
  {
    assert order == order[..rest] + order[rest..];
    var a :| 0 <= a < rest && order[a] == i;
    var b :| 0 <= b < |order[rest..]| && order[rest..][b] == j;
    assert order[rest + b] == j;
  }

  lemma NonNegativeShare(total: nat, weight: int, sum: int)
    requires 0 <= weight && 0 < sum
    ensures 0 <= (total * weight) / sum && (weight == 0 ==> (total * weight) / sum == 0 && (total * weight) % sum == 0)
    ensures total * weight == sum * ((total * weight) / sum) + (total * weight) % sum
  {
    assert 0 <= total * weight;
  }

  /** Nobody gets less than nothing, and an entry without weight nothing at all. */
  lemma ZeroWeightGetsNothing(total: nat, weights: seq<int>)
    requires GoodWeights(weights)
    ensures NonNegative(Shares(total, weights))
    ensures forall i :: 0 <= i < |weights| && weights[i] == 0 ==> Shares(total, weights)[i] == 0
  {
    forall i | 0 <= i < |weights|
      ensures 0 <= Shares(total, weights)[i] && (weights[i] == 0 ==> Shares(total, weights)[i] == 0)
    {
      SharesAreRounded(total, weights, i);
      NonNegativeShare(total, weights[i], Sum(weights));
    }
  }
}
