/** How many sources of each kind an instance is asked for: shares of a total under four caps at once. */
module SourceCounts {
  import opened Allocation

  /** What an instance carries at the chosen rate. */
  datatype Profile = Profile(hlgV210: int, browserWindows: int, nvdecDecodes: int, rawUploadUnits: int)

  /** Places in the weighted mix, what one source at each costs, and the limit on the cost. */
  datatype Group = Group(places: seq<nat>, costs: seq<nat>, limit: int)

  predicate GoodGroup(g: Group) {
    && |g.places| == |g.costs|
    && (forall j, k :: 0 <= j < k < |g.places| ==> g.places[j] < g.places[k])
  }

  function Groups(p: Profile, reservedBrowsers: int): (r: seq<Group>)
    ensures |r| == 4 && forall g :: 0 <= g < 4 ==> GoodGroup(r[g])
    ensures forall g, h, i :: 0 <= g < h < 4 && i in r[g].places ==> i !in r[h].places
  {
    [Group([2, 3], [1, 1], p.hlgV210),
     Group([4], [1], p.browserWindows - reservedBrowsers),
     Group([0, 1], [1, 1], p.nvdecDecodes),
     Group([5, 6], [1, 2], p.rawUploadUnits)]
  }

  /** The group's places that the mix has. */
  function Present(g: Group, n: nat): (r: Group)
    requires GoodGroup(g)
    ensures GoodGroup(r) && r.limit == g.limit && |r.places| <= |g.places|
    ensures forall k :: 0 <= k < |r.places| ==> r.places[k] < n && r.places[k] == g.places[k] && r.costs[k] == g.costs[k]
    ensures forall k :: |r.places| <= k < |g.places| ==> n <= g.places[k]
    decreases |g.places|
  {
    if g.places == [] || g.places[|g.places| - 1] < n then g
    else
      var m := |g.places| - 1;
      Present(Group(g.places[..m], g.costs[..m], g.limit), n)
  }

  /** What the counts at the group's places cost. */
  function Cost(counts: seq<int>, g: Group): int
    requires GoodGroup(g) && forall k :: 0 <= k < |g.places| ==> g.places[k] < |counts|
    decreases |g.places|
  {
    if g.places == [] then 0
    else
      var m := |g.places| - 1;
      Cost(counts, Group(g.places[..m], g.costs[..m], g.limit)) + counts[g.places[m]] * g.costs[m]
  }

  function At(s: seq<int>, places: seq<nat>): (r: seq<int>)
    requires forall k :: 0 <= k < |places| ==> places[k] < |s|
    ensures |r| == |places|
  {
    seq(|places|, k requires 0 <= k < |places| => s[places[k]])
  }

  /** What a list of counts, one per place of the group, costs. */
  function CostOf(counts: seq<int>, costs: seq<nat>): int
    requires |counts| == |costs|
  {
    if counts == [] then 0
    else CostOf(counts[..|counts| - 1], costs[..|costs| - 1]) + counts[|counts| - 1] * costs[|costs| - 1]
  }

  lemma {:induction false} CostAt(counts: seq<int>, g: Group)
    requires GoodGroup(g) && forall k :: 0 <= k < |g.places| ==> g.places[k] < |counts|
    ensures Cost(counts, g) == CostOf(At(counts, g.places), g.costs)
    decreases |g.places|
  {
    if g.places != [] {
      var m := |g.places| - 1;
      CostAt(counts, Group(g.places[..m], g.costs[..m], g.limit));
      assert At(counts, g.places)[..m] == At(counts, g.places[..m]);
    }
  }

  predicate Meets(counts: seq<int>, g: Group)
    requires GoodGroup(g)
  {
    Cost(counts, Present(g, |counts|)) <= g.limit
  }

  predicate MeetsAll(counts: seq<int>, p: Profile, reserved: int) {
    forall g :: 0 <= g < 4 ==> Meets(counts, Groups(p, reserved)[g])
  }

  function PositiveCount(weights: seq<int>): nat {
    if weights == [] then 0
    else PositiveCount(weights[..|weights| - 1]) + if weights[|weights| - 1] > 0 then 1 else 0
  }

  /** The weights without those of a group. */
  function Remaining(weights: seq<int>, g: Group): (r: seq<int>)
    ensures |r| == |weights| && forall i :: 0 <= i < |r| ==> r[i] == if i in g.places then 0 else weights[i]
  {
    seq(|weights|, i requires 0 <= i < |weights| => if i in g.places then 0 else weights[i])
  }

  lemma {:induction false} FewerPositive(a: seq<int>, b: seq<int>, i: nat)
    requires |a| == |b| && i < |a| && a[i] == 0 && 0 < b[i]
    requires forall k :: 0 <= k < |a| ==> a[k] == b[k] || a[k] == 0
    ensures PositiveCount(a) < PositiveCount(b)
  {
    var n := |a| - 1;
    if i < n {
      FewerPositive(a[..n], b[..n], i);
    } else {
      NoMorePositive(a[..n], b[..n]);
    }
  }

  lemma {:induction false} NoMorePositive(a: seq<int>, b: seq<int>)
    requires |a| == |b| && forall k :: 0 <= k < |a| ==> a[k] == b[k] || a[k] == 0
    ensures PositiveCount(a) <= PositiveCount(b)
  {
    if a != [] {
      NoMorePositive(a[..|a| - 1], b[..|b| - 1]);
    }
  }

  // ------------------------------------------------------------------ putting a capped group in

  /** `counts` with the group's places set to `capped`. */
  function Placed(counts: seq<int>, places: seq<nat>, capped: seq<int>): (r: seq<int>)
    requires |places| == |capped| && forall k :: 0 <= k < |places| ==> places[k] < |counts|
    ensures |r| == |counts| && forall i :: 0 <= i < |r| && i !in places ==> r[i] == counts[i]
    decreases |places|
  {
    if places == [] then counts
    else
      var m := |places| - 1;
      Placed(counts, places[..m], capped[..m])[places[m] := capped[m]]
  }

  lemma {:induction false} PlacedOne(counts: seq<int>, places: seq<nat>, capped: seq<int>, k: nat)
    requires |places| == |capped| && forall j :: 0 <= j < |places| ==> places[j] < |counts|
    requires forall i, j :: 0 <= i < j < |places| ==> places[i] < places[j]
    requires k < |places|
    ensures Placed(counts, places, capped)[places[k]] == capped[k]
    decreases |places|
  {
    var m := |places| - 1;
    if k < m {
      assert places[k] < places[m];
      PlacedOne(counts, places[..m], capped[..m], k);
    }
  }

  lemma PlacedAt(counts: seq<int>, places: seq<nat>, capped: seq<int>)
    requires |places| == |capped| && forall k :: 0 <= k < |places| ==> places[k] < |counts|
    requires forall j, k :: 0 <= j < k < |places| ==> places[j] < places[k]
    ensures At(Placed(counts, places, capped), places) == capped
  {
    forall k | 0 <= k < |places|
      ensures Placed(counts, places, capped)[places[k]] == capped[k]
    {
      PlacedOne(counts, places, capped, k);
    }
  }

  lemma {:induction false} PlacedSum(counts: seq<int>, places: seq<nat>, capped: seq<int>)
    requires |places| == |capped| && forall k :: 0 <= k < |places| ==> places[k] < |counts| && counts[places[k]] == 0
    requires forall j, k :: 0 <= j < k < |places| ==> places[j] < places[k]
    ensures Sum(Placed(counts, places, capped)) == Sum(counts) + Sum(capped)
    decreases |places|
  {
    if places != [] {
      var m := |places| - 1;
      PlacedSum(counts, places[..m], capped[..m]);
      var before := Placed(counts, places[..m], capped[..m]);
      assert places[m] !in places[..m];
      SumUpdate(before, places[m], capped[m]);
    }
  }

  lemma {:induction false} CostSame(a: seq<int>, b: seq<int>, g: Group)
    requires GoodGroup(g) && |a| == |b|
    requires forall k :: 0 <= k < |g.places| ==> g.places[k] < |a| && a[g.places[k]] == b[g.places[k]]
    ensures Cost(a, g) == Cost(b, g)
    decreases |g.places|
  {
    if g.places != [] {
      var m := |g.places| - 1;
      CostSame(a, b, Group(g.places[..m], g.costs[..m], g.limit));
    }
  }

  // ------------------------------------------------------------------ the recursion

  predicate GoodCounts(counts: seq<int>, weights: seq<int>, total: int) {
    && |counts| == |weights| && Sum(counts) == total && NonNegative(counts)
    && forall i :: 0 <= i < |weights| && weights[i] == 0 ==> counts[i] == 0
  }

  lemma {:induction false} PositiveCostHasWeight(counts: seq<int>, weights: seq<int>, total: int, g: Group) returns (k: nat)
    requires GoodCounts(counts, weights, total) && NonNegative(weights)
    requires GoodGroup(g) && (forall j :: 0 <= j < |g.places| ==> g.places[j] < |counts|) && 0 < Cost(counts, g)
    ensures k < |g.places| && 0 < weights[g.places[k]]
    decreases |g.places|
  {
    var m := |g.places| - 1;
    if counts[g.places[m]] > 0 {
      k := m;
    } else {
      k := PositiveCostHasWeight(counts, weights, total, Group(g.places[..m], g.costs[..m], g.limit));
    }
  }

  lemma AllocationGood(total: nat, weights: seq<int>)
    requires GoodWeights(weights)
    ensures GoodCounts(Shares(total, weights), weights, total)
  {
    AllocatesAll(total, weights);
    ZeroWeightGetsNothing(total, weights);
  }

  lemma {:induction false} ZerosCostNothing(counts: seq<int>, costs: seq<nat>)
    requires |counts| == |costs| && forall k :: 0 <= k < |counts| ==> counts[k] == 0
    ensures CostOf(counts, costs) == 0 && Sum(counts) == 0
  {
    if counts != [] {
      ZerosCostNothing(counts[..|counts| - 1], costs[..|costs| - 1]);
    }
  }

  // ------------------------------------------------------------------ which totals can be carried

  function C(s: seq<int>, i: nat): int { if i < |s| then s[i] else 0 }

  /** What a group's places hold, and what that costs it. */
  function Holding(s: seq<int>, g: nat): int {
    if g == 0 then C(s, 2) + C(s, 3) else if g == 1 then C(s, 4) else if g == 2 then C(s, 0) + C(s, 1) else C(s, 5) + C(s, 6)
  }

  function Costing(s: seq<int>, g: nat): int {
    if g == 3 then C(s, 5) + 2 * C(s, 6) else Holding(s, g)
  }

  /** What lies at places that no group limits. */
  function Tail(s: seq<int>): int {
    if |s| <= 7 then 0 else Tail(s[..|s| - 1]) + s[|s| - 1]
  }

  lemma {:induction false} SumParts(s: seq<int>)
    ensures Sum(s) == Holding(s, 0) + Holding(s, 1) + Holding(s, 2) + Holding(s, 3) + Tail(s)
  {
    if s != [] {
      var n := |s| - 1;
      SumParts(s[..n]);
      assert forall i: nat :: i < n ==> C(s, i) == C(s[..n], i);
    }
  }

  lemma {:induction false} TailBounds(s: seq<int>)
    requires NonNegative(s)
    ensures 0 <= Tail(s) && (Tail(s) == 0 <==> forall i :: 7 <= i < |s| ==> s[i] == 0)
  {
    if |s| > 7 {
      TailBounds(s[..|s| - 1]);
    }
  }

  lemma {:induction false} TailSame(a: seq<int>, b: seq<int>)
    requires |a| == |b| && forall i :: 7 <= i < |a| ==> a[i] == b[i]
    ensures Tail(a) == Tail(b)
  {
    if |a| > 7 {
      TailSame(a[..|a| - 1], b[..|b| - 1]);
    }
  }

  function Limit(p: Profile, reserved: int, g: nat): int
    requires g < 4
  {
    Groups(p, reserved)[g].limit
  }

  lemma SmallSums(s: seq<int>)
    requires |s| <= 2
    ensures Sum(s) == C(s, 0) + C(s, 1)
  {
    if |s| == 2 {
      assert s[..1] == [s[0]];
    }
  }

  lemma SmallCosts(counts: seq<int>, costs: seq<nat>)
    requires |counts| == |costs| <= 2
    ensures CostOf(counts, costs) ==
      (if |counts| > 0 then counts[0] * costs[0] else 0) + (if |counts| > 1 then counts[1] * costs[1] else 0)
  {
    if |counts| == 2 {
      assert counts[..1] == [counts[0]] && costs[..1] == [costs[0]];
      SmallCosts(counts[..1], costs[..1]);
    }
  }

  lemma PresentPair(a: nat, b: nat, cost: nat, limit: int, n: nat)
    requires a < b
    ensures Present(Group([a, b], [1, cost], limit), n) == Pair(a, b, cost, limit, n)
  {
    assert [a, b][..1] == [a] && [1, cost][..1] == [1];
    PresentSingle(a, limit, n);
  }

  lemma PresentSingle(a: nat, limit: int, n: nat)
    ensures Present(Group([a], [1], limit), n) == if a < n then Group([a], [1], limit) else Group([], [], limit)
  {
    assert [a][..0] == [] && [1][..0] == [];
  }

  lemma SmallGroup(s: seq<int>, group: Group)
    requires GoodGroup(group) && |group.places| <= 2 && forall k :: 0 <= k < |group.places| ==> group.places[k] < |s|
    ensures Cost(s, group) ==
      (if |group.places| > 0 then s[group.places[0]] * group.costs[0] else 0)
      + (if |group.places| > 1 then s[group.places[1]] * group.costs[1] else 0)
    ensures Sum(At(s, group.places)) ==
      (if |group.places| > 0 then s[group.places[0]] else 0) + (if |group.places| > 1 then s[group.places[1]] else 0)
  {
    var own := At(s, group.places);
    CostAt(s, group);
    SmallCosts(own, group.costs);
    SmallSums(own);
  }

  /** A pair of places, as far as the mix has them. */
  function Pair(a: nat, b: nat, cost: nat, limit: int, n: nat): Group {
    if b < n then Group([a, b], [1, cost], limit) else if a < n then Group([a], [1], limit) else Group([], [], limit)
  }

  lemma PairIs(s: seq<int>, a: nat, b: nat, cost: nat, limit: int, group: Group)
    requires a < b && group == Pair(a, b, cost, limit, |s|)
    ensures GoodGroup(group) && forall k :: 0 <= k < |group.places| ==> group.places[k] < |s|
    ensures Cost(s, group) == C(s, a) + C(s, b) * cost && Sum(At(s, group.places)) == C(s, a) + C(s, b)
  {
    SmallGroup(s, group);
  }

  /** The group at g, as far as the mix has it. */
  function Shape(p: Profile, reserved: int, g: nat, n: nat): Group
    requires g < 4
  {
    if g == 0 then Pair(2, 3, 1, p.hlgV210, n)
    else if g == 1 then
      if 4 < n then Group([4], [1], p.browserWindows - reserved) else Group([], [], p.browserWindows - reserved)
    else if g == 2 then Pair(0, 1, 1, p.nvdecDecodes, n)
    else Pair(5, 6, 2, p.rawUploadUnits, n)
  }

  lemma PresentShape(p: Profile, reserved: int, g: nat, n: nat)
    requires g < 4
    ensures Present(Groups(p, reserved)[g], n) == Shape(p, reserved, g, n)
  {
    if g == 0 {
      PresentPair(2, 3, 1, p.hlgV210, n);
    } else if g == 1 {
      PresentSingle(4, p.browserWindows - reserved, n);
    } else if g == 2 {
      PresentPair(0, 1, 1, p.nvdecDecodes, n);
    } else {
      PresentPair(5, 6, 2, p.rawUploadUnits, n);
    }
  }

  lemma ShapeIs(p: Profile, reserved: int, s: seq<int>, g: nat, group: Group)
    requires g < 4 && group == Shape(p, reserved, g, |s|)
    ensures GoodGroup(group) && forall k :: 0 <= k < |group.places| ==> group.places[k] < |s|
    ensures Cost(s, group) == Costing(s, g) && Sum(At(s, group.places)) == Holding(s, g)
    ensures group.limit == Limit(p, reserved, g)
  {
    if g == 0 {
      PairIs(s, 2, 3, 1, p.hlgV210, group);
    } else if g == 1 {
      SmallGroup(s, group);
    } else if g == 2 {
      PairIs(s, 0, 1, 1, p.nvdecDecodes, group);
    } else {
      PairIs(s, 5, 6, 2, p.rawUploadUnits, group);
    }
  }

  lemma PresentIs(p: Profile, reserved: int, s: seq<int>, g: nat, group: Group)
    requires g < 4 && group == Present(Groups(p, reserved)[g], |s|)
    ensures Cost(s, group) == Costing(s, g) && Sum(At(s, group.places)) == Holding(s, g)
    ensures group.limit == Limit(p, reserved, g)
  {
    PresentShape(p, reserved, g, |s|);
    ShapeIs(p, reserved, s, g, group);
  }

  /** At most one of the two raw kinds, which cost their group differently, is in the mix. */
  predicate OneRawKind(weights: seq<int>) {
    C(weights, 5) == 0 || C(weights, 6) == 0
  }

  /** What one item of a group costs it then. */
  function UnitCost(weights: seq<int>, g: nat): nat {
    if g == 3 && C(weights, 6) > 0 then 2 else 1
  }

  /** How many a group carries: none without a weight. */
  function Room(p: Profile, reserved: int, weights: seq<int>, g: nat): int
    requires g < 4
  {
    if Holding(weights, g) == 0 then 0 else Limit(p, reserved, g) / UnitCost(weights, g)
  }

  function Capacity(p: Profile, reserved: int, weights: seq<int>): int {
    Room(p, reserved, weights, 0) + Room(p, reserved, weights, 1) + Room(p, reserved, weights, 2) + Room(p, reserved, weights, 3)
  }

  /** No limit is negative, and the groups in the mix together carry the total, or some of it need not be carried. */
  predicate Carried(p: Profile, total: int, weights: seq<int>, reserved: int) {
    && 1 <= total && GoodWeights(weights) && (forall g :: 0 <= g < 4 ==> 0 <= Limit(p, reserved, g))
    && (Tail(weights) > 0 || total <= Capacity(p, reserved, weights))
  }

  lemma HoldingGood(counts: seq<int>, weights: seq<int>, total: int, g: nat)
    requires GoodCounts(counts, weights, total) && NonNegative(weights) && OneRawKind(weights) && g < 4
    ensures 0 <= Holding(counts, g) <= total && Costing(counts, g) == UnitCost(weights, g) * Holding(counts, g)
    ensures Holding(weights, g) == 0 ==> Holding(counts, g) == 0
    ensures 0 <= Holding(weights, g)
  {
    assert forall i: nat :: 0 <= C(counts, i) && 0 <= C(weights, i) && (C(weights, i) == 0 ==> C(counts, i) == 0);
    SumParts(counts);
    TailBounds(counts);
  }

  /** What a group holds within its limit is within its room. */
  lemma WithinRoom(p: Profile, reserved: int, counts: seq<int>, weights: seq<int>, total: int, g: nat)
    requires GoodCounts(counts, weights, total) && NonNegative(weights) && OneRawKind(weights) && g < 4
    ensures Meets(counts, Groups(p, reserved)[g]) <==> Costing(counts, g) <= Limit(p, reserved, g)
    ensures Meets(counts, Groups(p, reserved)[g]) ==>
      0 <= Limit(p, reserved, g) && Holding(counts, g) <= Room(p, reserved, weights, g)
  {
    PresentIs(p, reserved, counts, g, Present(Groups(p, reserved)[g], |counts|));
    HoldingGood(counts, weights, total, g);
  }

  lemma TailGood(counts: seq<int>, weights: seq<int>, total: int)
    requires GoodCounts(counts, weights, total) && NonNegative(weights)
    ensures 0 <= Tail(counts) && 0 <= Tail(weights) && (Tail(weights) == 0 ==> Tail(counts) == 0)
  {
    TailBounds(counts);
    TailBounds(weights);
  }

  /** Whatever meets all caps was carried. */
  lemma PromisedIsCarried(p: Profile, total: int, weights: seq<int>, reserved: int, counts: seq<int>)
    requires Promises(counts, p, total, weights, reserved) && 1 <= total && GoodWeights(weights) && OneRawKind(weights)
    ensures Carried(p, total, weights, reserved)
  {
    forall g | 0 <= g < 4
      ensures 0 <= Limit(p, reserved, g) && Holding(counts, g) <= Room(p, reserved, weights, g)
    {
      assert Meets(counts, Groups(p, reserved)[g]);
      WithinRoom(p, reserved, counts, weights, total, g);
    }
    SumParts(counts);
    TailGood(counts, weights, total);
    assert Holding(counts, 0) <= Room(p, reserved, weights, 0) && Holding(counts, 1) <= Room(p, reserved, weights, 1);
    assert Holding(counts, 2) <= Room(p, reserved, weights, 2) && Holding(counts, 3) <= Room(p, reserved, weights, 3);
  }

  lemma SameCost(count: int, cost: nat, unit: nat)
    requires count == 0 || cost == unit
    ensures count * cost == unit * count
  {
  }

  lemma TimesSum(unit: nat, a: int, b: int)
    ensures unit * a + unit * b == unit * (a + b)
  {
  }

  lemma OwnCost(weights: seq<int>, places: seq<nat>, costs: seq<nat>, counts: seq<int>, n: int, unit: nat)
    requires |places| == |costs| <= 2 && forall k :: 0 <= k < |places| ==> places[k] < |weights|
    requires forall k :: 0 <= k < |places| ==> weights[places[k]] == 0 || costs[k] == unit
    requires GoodCounts(counts, At(weights, places), n)
    ensures CostOf(counts, costs) == unit * n
  {
    SmallCosts(counts, costs);
    SmallSums(counts);
    forall k | 0 <= k < |counts|
      ensures counts[k] == 0 || costs[k] == unit
    {
      assert At(weights, places)[k] == weights[places[k]];
    }
    if |counts| > 0 {
      SameCost(counts[0], costs[0], unit);
    }
    if |counts| > 1 {
      SameCost(counts[1], costs[1], unit);
      TimesSum(unit, counts[0], counts[1]);
    }
  }

  /** The same of a group's own shares. */
  lemma GroupCost(p: Profile, reserved: int, weights: seq<int>, g: nat, counts: seq<int>, n: int)
    requires g < 4 && NonNegative(weights) && OneRawKind(weights)
    requires GoodCounts(counts, At(weights, Present(Groups(p, reserved)[g], |weights|).places), n)
    ensures CostOf(counts, Present(Groups(p, reserved)[g], |weights|).costs) == UnitCost(weights, g) * n
  {
    var group := Present(Groups(p, reserved)[g], |weights|);
    var unit := UnitCost(weights, g);
    PresentShape(p, reserved, g, |weights|);
    assert forall k :: 0 <= k < |group.places| ==> weights[group.places[k]] == 0 || group.costs[k] == unit;
    OwnCost(weights, group.places, group.costs, counts, n, unit);
  }

  /** allocate(), or nothing for everybody when there is nothing to give. */
  method GroupShares(size: int, weights: seq<int>) returns (r: Result<seq<int>>)
    ensures r.Ok? <==> size == 0 || (1 <= size && GoodWeights(weights))
    ensures r.Ok? ==> GoodCounts(r.value, weights, size)
    ensures r.Ok? && size != 0 ==> r.value == Shares(size, weights)
    ensures r.Ok? && size == 0 ==> forall costs: seq<nat> :: |costs| == |weights| ==> CostOf(r.value, costs) == 0
  {
    if size != 0 {
      r := Allocate(size, weights);
      if r.Ok? {
        AllocationGood(size, weights);
      }
    } else {
      var zeros := seq(|weights|, _ => 0);
      forall costs: seq<nat> | |costs| == |weights|
        ensures CostOf(zeros, costs) == 0
      {
        ZerosCostNothing(zeros, costs);
      }
      AllZero(zeros);
      r := Ok(zeros);
    }
  }

  ghost predicate TooCostly(n: int, weights: seq<int>, costs: seq<nat>, limit: int) {
    0 < n && GoodWeights(weights) && |costs| == |weights| && CostOf(Shares(n, weights), costs) > limit
  }

  /** The largest allocation within the group, from `most` down, that its limit carries. */
  method CappedGroup(most: int, weights: seq<int>, costs: seq<nat>, limit: int) returns (r: Result<(int, seq<int>)>)
    requires |weights| == |costs| && most <= limit
    ensures r.Ok? <==> most == 0 || (1 <= most && GoodWeights(weights))
    ensures r.Ok? ==> var (size, capped) := r.value;
      && 0 <= size <= most && GoodCounts(capped, weights, size) && CostOf(capped, costs) <= limit
      && forall n :: size < n <= most ==> TooCostly(n, weights, costs, limit)
  {
    var size := most;
    while true
      invariant size <= most && (0 <= most ==> 0 <= size) && (size < most ==> GoodWeights(weights) && 0 <= size)
      invariant forall n :: size < n <= most ==> TooCostly(n, weights, costs, limit)
      decreases size
    {
      var capped := GroupShares(size, weights);
      if capped.Err? {
        return Err(capped.error);
      }
      if CostOf(capped.value, costs) <= limit {
        return Ok((size, capped.value));
      }
      assert TooCostly(size, weights, costs, limit);
      size := size - 1;
    }
  }

  /** A group that is cut down keeps exactly as many as it has room for. */
  lemma CutToRoom(p: Profile, reserved: int, weights: seq<int>, g: nat, held: int, most: int, size: int, capped: seq<int>)
    requires g < 4 && GoodWeights(weights) && OneRawKind(weights) && 0 < Holding(weights, g) && 0 <= Limit(p, reserved, g)
    requires held * UnitCost(weights, g) > Limit(p, reserved, g)
    requires most == if Limit(p, reserved, g) < held then Limit(p, reserved, g) else held
    requires var group := Present(Groups(p, reserved)[g], |weights|); var own := At(weights, group.places);
      && 0 <= size <= most && GoodCounts(capped, own, size) && CostOf(capped, group.costs) <= group.limit
      && forall n :: size < n <= most ==> TooCostly(n, own, group.costs, group.limit)
    ensures size == Room(p, reserved, weights, g) < held
  {
    var group := Present(Groups(p, reserved)[g], |weights|);
    var own := At(weights, group.places);
    GroupCost(p, reserved, weights, g, capped, size);
    if size < most {
      var n := size + 1;
      assert TooCostly(n, own, group.costs, group.limit);
      AllocationGood(n, own);
      GroupCost(p, reserved, weights, g, Shares(n, own), n);
    }
  }

  lemma RemainingRoom(weights: seq<int>, rest: seq<int>, p: Profile, reserved: int, g: nat, h: nat)
    requires g < 4 && h < 4 && rest == Remaining(weights, Groups(p, reserved)[g])
    ensures Room(p, reserved, rest, h) == if h == g then 0 else Room(p, reserved, weights, h)
  {
    assert forall i: nat :: C(rest, i) == if i in Groups(p, reserved)[g].places then 0 else C(weights, i);
  }

  lemma RemainingParts(weights: seq<int>, p: Profile, reserved: int, g: nat)
    requires g < 4 && NonNegative(weights)
    ensures var rest := Remaining(weights, Groups(p, reserved)[g]);
      NonNegative(rest) && Tail(rest) == Tail(weights) && (OneRawKind(weights) ==> OneRawKind(rest))
  {
    TailSame(Remaining(weights, Groups(p, reserved)[g]), weights);
  }

  lemma RemainingCapacity(weights: seq<int>, p: Profile, reserved: int, g: nat)
    requires g < 4 && NonNegative(weights)
    ensures Capacity(p, reserved, Remaining(weights, Groups(p, reserved)[g])) ==
      Capacity(p, reserved, weights) - Room(p, reserved, weights, g)
  {
    var rest := Remaining(weights, Groups(p, reserved)[g]);
    RemainingRoom(weights, rest, p, reserved, g, 0);
    RemainingRoom(weights, rest, p, reserved, g, 1);
    RemainingRoom(weights, rest, p, reserved, g, 2);
    RemainingRoom(weights, rest, p, reserved, g, 3);
  }

  lemma GoodRemaining(weights: seq<int>, i: nat)
    requires NonNegative(weights) && i < |weights| && weights[i] != 0
    ensures GoodWeights(weights)
  {
    SumBounds(weights);
  }

  /** Cutting a group down leaves as much to carry as the others can. */
  lemma CarriedOn(p: Profile, total: int, weights: seq<int>, reserved: int, g: nat, held: int, size: int, i: nat)
    requires g < 4 && GoodWeights(weights) && size == Room(p, reserved, weights, g) < held <= total
    requires i < |weights| && Remaining(weights, Groups(p, reserved)[g])[i] != 0
    ensures Carried(p, total, weights, reserved) <==>
            Carried(p, total - size, Remaining(weights, Groups(p, reserved)[g]), reserved) && 1 <= total
  {
    RemainingParts(weights, p, reserved, g);
    RemainingCapacity(weights, p, reserved, g);
    GoodRemaining(Remaining(weights, Groups(p, reserved)[g]), i);
  }

  /** With nothing else in the mix there is nowhere to put the rest. */
  lemma NotCarried(p: Profile, total: int, weights: seq<int>, reserved: int, g: nat, held: int)
    requires g < 4 && GoodWeights(weights) && Room(p, reserved, weights, g) < held <= total
    requires forall i :: 0 <= i < |weights| ==> Remaining(weights, Groups(p, reserved)[g])[i] == 0
    ensures !Carried(p, total, weights, reserved)
  {
    var rest := Remaining(weights, Groups(p, reserved)[g]);
    RemainingParts(weights, p, reserved, g);
    RemainingCapacity(weights, p, reserved, g);
    TailBounds(rest);
    assert forall i: nat :: C(rest, i) == 0;
    assert Capacity(p, reserved, rest) == 0;
  }

  lemma OverLimit(p: Profile, total: int, weights: seq<int>, reserved: int, counts: seq<int>, g: nat)
    requires g < 4 && GoodWeights(weights) && GoodCounts(counts, weights, total) && OneRawKind(weights)
    requires !Meets(counts, Groups(p, reserved)[g])
    ensures Holding(counts, g) <= total && Holding(counts, g) * UnitCost(weights, g) > Limit(p, reserved, g)
    ensures 0 <= Limit(p, reserved, g) ==> 0 < Holding(weights, g) && 0 < Holding(counts, g)
  {
    WithinRoom(p, reserved, counts, weights, total, g);
    HoldingGood(counts, weights, total, g);
  }

  /** After the cut: nothing is left to share the rest among, or the others carry it exactly if all did. */
  lemma AfterCut(p: Profile, total: int, weights: seq<int>, reserved: int, g: nat, held: int, size: int, rest: seq<int>)
    requires g < 4 && GoodWeights(weights) && OneRawKind(weights) && rest == Remaining(weights, Groups(p, reserved)[g])
    requires size == Room(p, reserved, weights, g) < held <= total
    ensures if forall i :: 0 <= i < |rest| ==> rest[i] == 0 then !Carried(p, total, weights, reserved)
            else OneRawKind(rest) && (Carried(p, total, weights, reserved) <==> Carried(p, total - size, rest, reserved))
  {
    if i :| 0 <= i < |rest| && rest[i] != 0 {
      CarriedOn(p, total, weights, reserved, g, held, size, i);
      RemainingParts(weights, p, reserved, g);
    } else {
      NotCarried(p, total, weights, reserved, g, held);
    }
  }

  /** What the group held, what it may hold at most, and that it has weights to share that by. */
  lemma GroupHeld(p: Profile, weights: seq<int>, reserved: int, counts: seq<int>, g: nat, group: Group)
    requires g < 4 && |counts| == |weights| && NonNegative(weights) && group == Present(Groups(p, reserved)[g], |weights|)
    ensures Sum(At(counts, group.places)) == Holding(counts, g) && group.limit == Limit(p, reserved, g)
    ensures 0 < Holding(weights, g) ==> GoodWeights(At(weights, group.places))
  {
    PresentIs(p, reserved, counts, g, group);
    PresentIs(p, reserved, weights, g, group);
  }

  /** The group could not be cut down: its limit is negative. */
  lemma NotCut(p: Profile, total: int, weights: seq<int>, reserved: int, counts: seq<int>, g: nat, group: Group, most: int)
    requires g < 4 && GoodWeights(weights) && GoodCounts(counts, weights, total) && OneRawKind(weights)
    requires !Meets(counts, Groups(p, reserved)[g]) && group == Present(Groups(p, reserved)[g], |weights|)
    requires var held := Sum(At(counts, group.places)); most == if group.limit < held then group.limit else held
    requires !(most == 0 || (1 <= most && GoodWeights(At(weights, group.places))))
    ensures !Carried(p, total, weights, reserved)
  {
    OverLimit(p, total, weights, reserved, counts, g);
    GroupHeld(p, weights, reserved, counts, g, group);
  }

  lemma CutIs(p: Profile, total: int, weights: seq<int>, reserved: int, counts: seq<int>, g: nat, group: Group, most: int,
              size: int, capped: seq<int>)
    requires g < 4 && GoodWeights(weights) && GoodCounts(counts, weights, total) && OneRawKind(weights)
    requires !Meets(counts, Groups(p, reserved)[g]) && group == Present(Groups(p, reserved)[g], |weights|)
    requires var held := Sum(At(counts, group.places)); most == if group.limit < held then group.limit else held
    requires 0 <= size <= most && GoodCounts(capped, At(weights, group.places), size)
    requires CostOf(capped, group.costs) <= group.limit
    requires forall n :: size < n <= most ==> TooCostly(n, At(weights, group.places), group.costs, group.limit)
    ensures size == Room(p, reserved, weights, g) < Holding(counts, g) <= total
  {
    OverLimit(p, total, weights, reserved, counts, g);
    GroupHeld(p, weights, reserved, counts, g, group);
    CutToRoom(p, reserved, weights, g, Holding(counts, g), most, size, capped);
  }

  /**
    The raw kinds hold the whole total, at too high a cost, though among themselves they would share it at a lower
    one: cut down they keep all of it, and nothing is left for the rest of the mix.
   */
  ghost predicate CorneredBy(p: Profile, total: int, weights: seq<int>, reserved: int, counts: seq<int>) {
    && |counts| == |weights| && !Meets(counts, Groups(p, reserved)[3])
    && Holding(counts, 3) == total <= Limit(p, reserved, 3)
    && var group := Present(Groups(p, reserved)[3], |weights|);
    !TooCostly(total, At(weights, group.places), group.costs, group.limit)
  }

  /** ... which the code meets when the other groups are within their limits. */
  ghost predicate Cornered(p: Profile, total: int, weights: seq<int>, reserved: int) {
    && 1 <= total && GoodWeights(weights) && CorneredBy(p, total, weights, reserved, Shares(total, weights))
    && forall g :: 0 <= g < 3 ==> Meets(Shares(total, weights), Groups(p, reserved)[g])
  }

  lemma CorneredCut(p: Profile, total: int, weights: seq<int>, reserved: int, counts: seq<int>, group: Group, most: int,
                    size: int)
    requires CorneredBy(p, total, weights, reserved, counts) && NonNegative(weights)
    requires group == Present(Groups(p, reserved)[3], |weights|)
    requires var held := Sum(At(counts, group.places)); most == if group.limit < held then group.limit else held
    requires 0 <= size <= most && forall n :: size < n <= most ==> TooCostly(n, At(weights, group.places), group.costs, group.limit)
    ensures size == total
  {
    GroupHeld(p, weights, reserved, counts, 3, group);
  }

  lemma MixShares(weights: seq<int>)
    requires weights == [0, 0, 0, 0, 6, 251, 49]
    ensures Sum(weights) == 306 && Shares(3, weights) == [0, 0, 0, 0, 0, 2, 1]
  {
    SumParts(weights);
    assert GoodWeights(weights);
    var shares := Shares(3, weights);
    AllocatesAll(3, weights);
    ZeroWeightGetsNothing(3, weights);
    SumParts(shares);
    SharesAreRounded(3, weights, 4);
    SharesAreRounded(3, weights, 5);
    SharesAreRounded(3, weights, 6);
    if 6 !in First(3, weights) {
      if 5 in First(3, weights) {
        LargestRemaindersFirst(3, weights, 5, 6);
      } else {
        assert 4 in First(3, weights);
        LargestRemaindersFirst(3, weights, 4, 6);
      }
    }
  }

  lemma RawShares(own: seq<int>)
    requires own == [251, 49]
    ensures Sum(own) == 300 && Shares(3, own) == [3, 0]
  {
    SmallSums(own);
    assert GoodWeights(own);
    AllocatesAll(3, own);
    SmallSums(Shares(3, own));
    SharesAreRounded(3, own, 0);
    SharesAreRounded(3, own, 1);
    if 0 !in First(3, own) {
      LargestRemaindersFirst(3, own, 1, 0);
    }
  }

  lemma MeetsIs(p: Profile, reserved: int, counts: seq<int>, g: nat)
    requires g < 4
    ensures Meets(counts, Groups(p, reserved)[g]) <==> Costing(counts, g) <= Limit(p, reserved, g)
  {
    PresentIs(p, reserved, counts, g, Present(Groups(p, reserved)[g], |counts|));
  }

  lemma GoodMix(p: Profile, weights: seq<int>, good: seq<int>)
    requires p == Profile(0, 1, 0, 3) && weights == [0, 0, 0, 0, 6, 251, 49] && good == [0, 0, 0, 0, 0, 3, 0]
    ensures Promises(good, p, 3, weights, 0)
  {
    SumParts(good);
    forall g | 0 <= g < 4
      ensures Meets(good, Groups(p, 0)[g])
    {
      MeetsIs(p, 0, good, g);
    }
  }

  lemma RawCosts(own: seq<int>, costs: seq<nat>)
    requires own == [251, 49] && |costs| == 2 && costs[0] == 1
    ensures 0 < Sum(own) && CostOf(Shares(3, own), costs) == 3
  {
    RawShares(own);
    var shares := Shares(3, own);
    SmallCosts(shares, costs);
    assert shares[0] == 3 && shares[1] == 0;
  }

  lemma RawFits(p: Profile, weights: seq<int>, group: Group)
    requires p == Profile(0, 1, 0, 3) && weights == [0, 0, 0, 0, 6, 251, 49] && group == Present(Groups(p, 0)[3], |weights|)
    ensures !TooCostly(3, At(weights, group.places), group.costs, group.limit)
  {
    PresentShape(p, 0, 3, |weights|);
    var own := At(weights, group.places);
    assert own == [251, 49];
    RawCosts(own, group.costs);
  }

  lemma MixCosts(p: Profile, counts: seq<int>)
    requires 0 <= p.hlgV210 && 0 <= p.browserWindows && 0 <= p.nvdecDecodes && p.rawUploadUnits == 3
    requires Holding(counts, 0) == 0 && Holding(counts, 1) == 0 && Holding(counts, 2) == 0 && Costing(counts, 3) == 4
    ensures !Meets(counts, Groups(p, 0)[3]) && forall g :: 0 <= g < 3 ==> Meets(counts, Groups(p, 0)[g])
  {
    MeetsIs(p, 0, counts, 3);
    forall g | 0 <= g < 3
      ensures Meets(counts, Groups(p, 0)[g])
    {
      MeetsIs(p, 0, counts, g);
    }
  }

  /** It happens, though the caps would carry the total. */
  lemma CorneredExample(p: Profile, weights: seq<int>)
    requires p == Profile(0, 1, 0, 3) && weights == [0, 0, 0, 0, 6, 251, 49]
    ensures Cornered(p, 3, weights, 0) && Promises([0, 0, 0, 0, 0, 3, 0], p, 3, weights, 0)
  {
    MixShares(weights);
    GoodMix(p, weights, [0, 0, 0, 0, 0, 3, 0]);
    RawFits(p, weights, Present(Groups(p, 0)[3], |weights|));
    MixCosts(p, Shares(3, weights));
  }

  /** Everything a result promises: the total is given out and all four caps are met. */
  predicate Promises(counts: seq<int>, p: Profile, total: int, weights: seq<int>, reserved: int) {
    GoodCounts(counts, weights, total) && MeetsAll(counts, p, reserved)
  }

  method Counts(p: Profile, total: int, weights: seq<int>, reserved: int) returns (r: Result<seq<int>>)
    ensures r.Ok? ==> Promises(r.value, p, total, weights, reserved)
    ensures r.Ok? ==> 1 <= total && GoodWeights(weights)
    ensures 1 <= total && GoodWeights(weights) && MeetsAll(Shares(total, weights), p, reserved) ==>
      r == Ok(Shares(total, weights))
    ensures OneRawKind(weights) ==> (r.Ok? <==> Carried(p, total, weights, reserved))
    ensures Cornered(p, total, weights, reserved) ==> r.Err?
    decreases PositiveCount(weights)
  {
    var first := Allocate(total, weights);
    if first.Err? {
      return first;
    }
    var counts := first.value;
    AllocationGood(total, weights);
    var groups := Groups(p, reserved);
    var g := 0;
    while g < 4
      invariant 0 <= g <= 4
      invariant forall h :: 0 <= h < g ==> Meets(counts, groups[h])
    {
      var group := Present(groups[g], |weights|);
      if Cost(counts, group) > group.limit {
        r := CapGroup(p, total, weights, reserved, counts, g);
        return;
      }
      g := g + 1;
    }
    if OneRawKind(weights) {
      PromisedIsCarried(p, total, weights, reserved, counts);
    }
    r := Ok(counts);
  }

  /** The largest part of what the group at `g` holds that its limit carries. */
  method CutDown(p: Profile, total: int, weights: seq<int>, reserved: int, counts: seq<int>, g: nat)
    returns (r: Result<(int, seq<int>)>)
    requires g < 4 && GoodWeights(weights) && GoodCounts(counts, weights, total) && !Meets(counts, Groups(p, reserved)[g])
    ensures r.Ok? ==> var (size, capped) := r.value; var group := Present(Groups(p, reserved)[g], |weights|);
      && 0 <= size && GoodCounts(capped, At(weights, group.places), size) && CostOf(capped, group.costs) <= group.limit
    ensures OneRawKind(weights) ==>
      if r.Ok? then r.value.0 == Room(p, reserved, weights, g) < Holding(counts, g) <= total
      else !Carried(p, total, weights, reserved)
    ensures g == 3 && CorneredBy(p, total, weights, reserved, counts) && r.Ok? ==> r.value.0 == total
  {
    var group := Present(Groups(p, reserved)[g], |weights|);
    var held := Sum(At(counts, group.places));
    var most := if group.limit < held then group.limit else held;
    r := CappedGroup(most, At(weights, group.places), group.costs, group.limit);
    if r.Err? {
      if OneRawKind(weights) {
        NotCut(p, total, weights, reserved, counts, g, group, most);
      }
    } else {
      if OneRawKind(weights) {
        CutIs(p, total, weights, reserved, counts, g, group, most, r.value.0, r.value.1);
      }
      if g == 3 && CorneredBy(p, total, weights, reserved, counts) {
        CorneredCut(p, total, weights, reserved, counts, group, most, r.value.0);
      }
    }
  }

  /** A group that was cut down had a weight, which the rest is without. */
  lemma FewerRemain(p: Profile, total: int, weights: seq<int>, reserved: int, counts: seq<int>, g: nat, own: seq<int>)
    requires g < 4 && NonNegative(weights) && GoodCounts(counts, weights, total) && !Meets(counts, Groups(p, reserved)[g])
    requires var group := Present(Groups(p, reserved)[g], |weights|);
      NonNegative(own) && |own| == |group.costs| && CostOf(own, group.costs) <= group.limit
    ensures PositiveCount(Remaining(weights, Groups(p, reserved)[g])) < PositiveCount(weights)
  {
    var group := Present(Groups(p, reserved)[g], |weights|);
    LimitNonNegative(own, group.costs);
    var k := PositiveCostHasWeight(counts, weights, total, group);
    FewerPositive(Remaining(weights, Groups(p, reserved)[g]), weights, group.places[k]);
  }

  /** The group at `g` costs too much: it is cut down, and the rest shared among the others. */
  method CapGroup(p: Profile, total: int, weights: seq<int>, reserved: int, counts: seq<int>, g: nat)
    returns (r: Result<seq<int>>)
    requires g < 4 && GoodWeights(weights) && GoodCounts(counts, weights, total) && !Meets(counts, Groups(p, reserved)[g])
    ensures r.Ok? ==> Promises(r.value, p, total, weights, reserved)
    ensures OneRawKind(weights) && 1 <= total ==> (r.Ok? <==> Carried(p, total, weights, reserved))
    ensures g == 3 && CorneredBy(p, total, weights, reserved, counts) ==> r.Err?
    decreases PositiveCount(weights), 0
  {
    var capped := CutDown(p, total, weights, reserved, counts, g);
    if capped.Err? {
      return Err(capped.error);
    }
    var (size, own) := capped.value;
    var group := Present(Groups(p, reserved)[g], |weights|);
    var remaining := Remaining(weights, Groups(p, reserved)[g]);
    if OneRawKind(weights) {
      AfterCut(p, total, weights, reserved, g, Holding(counts, g), size, remaining);
    }
    if forall i :: 0 <= i < |remaining| ==> remaining[i] == 0 {
      return Err(Limited);
    }
    FewerRemain(p, total, weights, reserved, counts, g, own);
    var others := Counts(p, total - size, remaining, reserved);
    if others.Err? {
      return others;
    }
    PlacedPromises(p, total, weights, reserved, others.value, g, size, own);
    r := Ok(Placed(others.value, group.places, own));
  }

  lemma {:induction false} LimitNonNegative(capped: seq<int>, costs: seq<nat>)
    requires |capped| == |costs| && NonNegative(capped)
    ensures 0 <= CostOf(capped, costs)
  {
    if capped != [] {
      LimitNonNegative(capped[..|capped| - 1], costs[..|costs| - 1]);
    }
  }

  /** Putting the capped group in keeps the other caps and meets its own. */
  lemma PlacedMeets(p: Profile, reserved: int, others: seq<int>, g: nat, h: nat, capped: seq<int>)
    requires g < 4 && h < 4 && MeetsAll(others, p, reserved)
    requires var group := Present(Groups(p, reserved)[g], |others|);
      |capped| == |group.places| && CostOf(capped, group.costs) <= group.limit
    ensures Meets(Placed(others, Present(Groups(p, reserved)[g], |others|).places, capped), Groups(p, reserved)[h])
  {
    var groups := Groups(p, reserved);
    var group, other := Present(groups[g], |others|), Present(groups[h], |others|);
    var placed := Placed(others, group.places, capped);
    if h == g {
      PlacedAt(others, group.places, capped);
      CostAt(placed, group);
    } else {
      forall k | 0 <= k < |other.places|
        ensures placed[other.places[k]] == others[other.places[k]]
      {
        PresentApart(groups[g], groups[h], |others|, k);
      }
      CostSame(placed, others, other);
      assert Meets(others, groups[h]);
    }
  }

  lemma PresentApart(a: Group, b: Group, n: nat, k: nat)
    requires GoodGroup(a) && GoodGroup(b) && (forall i :: i in a.places ==> i !in b.places) && k < |Present(b, n).places|
    ensures Present(b, n).places[k] !in Present(a, n).places
  {
    var i := Present(b, n).places[k];
    assert i in b.places;
    var present := Present(a, n).places;
    forall j | 0 <= j < |present|
      ensures present[j] != i
    {
      assert present[j] == a.places[j] && a.places[j] in a.places;
    }
  }

  /** ... and gives the whole total out. */
  lemma PlacedGood(weights: seq<int>, remaining: seq<int>, others: seq<int>, rest: int, places: seq<nat>,
                   capped: seq<int>, size: int)
    requires |others| == |weights| == |remaining| && |capped| == |places|
    requires forall k :: 0 <= k < |places| ==> places[k] < |weights|
    requires forall j, k :: 0 <= j < k < |places| ==> places[j] < places[k]
    requires forall i :: 0 <= i < |weights| ==> remaining[i] == if i in places then 0 else weights[i]
    requires GoodCounts(others, remaining, rest) && GoodCounts(capped, At(weights, places), size)
    ensures GoodCounts(Placed(others, places, capped), weights, rest + size)
  {
    var placed := Placed(others, places, capped);
    PlacedSum(others, places, capped);
    PlacedAt(others, places, capped);
    forall i | 0 <= i < |placed|
      ensures 0 <= placed[i] && (weights[i] == 0 ==> placed[i] == 0)
    {
      if i in places {
        var k :| 0 <= k < |places| && places[k] == i;
        assert At(placed, places)[k] == placed[i] && At(weights, places)[k] == weights[i];
      }
    }
  }

  lemma RemainingAt(weights: seq<int>, g: Group, i: nat)
    requires GoodGroup(g) && i < |weights|
    ensures i in g.places <==> i in Present(g, |weights|).places
  {
    var present := Present(g, |weights|);
    if i in g.places {
      var k :| 0 <= k < |g.places| && g.places[k] == i;
      assert k < |present.places| && present.places[k] == i;
    }
    if i in present.places {
      var k :| 0 <= k < |present.places| && present.places[k] == i;
      assert g.places[k] == i;
    }
  }

  lemma PlacedPromises(p: Profile, total: int, weights: seq<int>, reserved: int, others: seq<int>, g: nat, size: int,
                       capped: seq<int>)
    requires g < 4
    requires Promises(others, p, total - size, Remaining(weights, Groups(p, reserved)[g]), reserved)
    requires var group := Present(Groups(p, reserved)[g], |weights|);
      && GoodCounts(capped, At(weights, group.places), size) && CostOf(capped, group.costs) <= group.limit
    ensures Promises(Placed(others, Present(Groups(p, reserved)[g], |weights|).places, capped), p, total, weights, reserved)
  {
    PlacedInGroup(weights, Groups(p, reserved)[g], others, total, size, capped);
    PlacedMeetsAll(p, reserved, others, g, capped);
  }

  lemma PlacedInGroup(weights: seq<int>, whole: Group, others: seq<int>, total: int, size: int, capped: seq<int>)
    requires GoodGroup(whole) && GoodCounts(others, Remaining(weights, whole), total - size)
    requires GoodCounts(capped, At(weights, Present(whole, |weights|).places), size)
    ensures GoodCounts(Placed(others, Present(whole, |weights|).places, capped), weights, total)
  {
    var places := Present(whole, |weights|).places;
    forall i | 0 <= i < |weights|
      ensures i in whole.places <==> i in places
    {
      RemainingAt(weights, whole, i);
    }
    PlacedGood(weights, Remaining(weights, whole), others, total - size, places, capped, size);
  }

  lemma PlacedMeetsAll(p: Profile, reserved: int, others: seq<int>, g: nat, capped: seq<int>)
    requires g < 4 && MeetsAll(others, p, reserved)
    requires var group := Present(Groups(p, reserved)[g], |others|);
      |capped| == |group.places| && CostOf(capped, group.costs) <= group.limit
    ensures MeetsAll(Placed(others, Present(Groups(p, reserved)[g], |others|).places, capped), p, reserved)
  {
    forall h | 0 <= h < 4
      ensures Meets(Placed(others, Present(Groups(p, reserved)[g], |others|).places, capped), Groups(p, reserved)[h])
    {
      PlacedMeets(p, reserved, others, g, h, capped);
    }
  }
}
