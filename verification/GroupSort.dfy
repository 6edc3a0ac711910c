/**
  The order in which a group starts its nodes: a depth-first topological sort by the edges each
  node offers and needs. The visit skips every node that already has a mark, so it never meets the
  temporary mark its cycle check looks for.
 */
module GroupSort {
  import opened Options

  /** The parameters of a node that name edges. */
  datatype Parameters = Parameters(routing: Option<seq<string>>, dst: Option<seq<string>>, src: Option<seq<string>>)

  type Graph = seq<Parameters>

  /** A node that names its edges in both ways offers those of `dst`. */
  function Offers(p: Parameters): (r: seq<string>)
    ensures p.dst.Some? ==> r == p.dst.value
    ensures p.dst.None? ==> r == if p.routing.None? then [] else p.routing.value
  {
    if p.routing.Some? && p.dst.None? then p.routing.value
    else if p.dst.Some? then p.dst.value
    else []
  }

  function Needs(p: Parameters): seq<string> {
    if p.src.Some? then p.src.value else []
  }

  /** Node j consumes an edge node i produces. */
  ghost predicate Edge(g: Graph, i: nat, j: nat) {
    i < |g| && j < |g| && exists name :: name in Offers(g[i]) && name in Needs(g[j])
  }

  /** The loop in the loop. */
  method HasEdge(offers: seq<string>, needs: seq<string>) returns (has: bool)
    ensures has <==> exists name :: name in offers && name in needs
  {
    has := false;
    for i := 0 to |offers|
      invariant !has
      invariant forall k :: 0 <= k < i ==> offers[k] !in needs
    {
      for j := 0 to |needs|
        invariant !has
        invariant offers[i] !in needs[..j]
      {
        if offers[i] == needs[j] {
          assert offers[i] in offers && offers[i] in needs;
          has := true;
          break;
        }
      }
      if has {
        break;
      }
    }
  }

  // ------------------------------------------------------------------ paths and order

  ghost predicate IsPath(g: Graph, p: seq<nat>) {
    forall k :: 0 <= k < |p| - 1 ==> Edge(g, p[k], p[k + 1])
  }

  /** There is a path of at least one edge. */
  ghost predicate Reaches(g: Graph, a: nat, b: nat) {
    exists p: seq<nat> :: |p| >= 2 && p[0] == a && p[|p| - 1] == b && IsPath(g, p)
  }

  ghost predicate Acyclic(g: Graph) {
    forall x: nat :: !Reaches(g, x, x)
  }

  lemma EdgeReaches(g: Graph, a: nat, b: nat)
    requires Edge(g, a, b)
    ensures Reaches(g, a, b)
  {
    assert IsPath(g, [a, b]);
  }

  lemma ReachesOn(g: Graph, a: nat, b: nat, c: nat)
    requires Reaches(g, a, b) && Edge(g, b, c)
    ensures Reaches(g, a, c)
  {
    var p: seq<nat> :| |p| >= 2 && p[0] == a && p[|p| - 1] == b && IsPath(g, p);
    assert IsPath(g, p + [c]);
  }

  predicate Distinct(target: seq<nat>) {
    forall i, j :: 0 <= i < j < |target| ==> target[i] != target[j]
  }

  /** Whatever consumes a node's edges comes after it. */
  ghost predicate Ordered(g: Graph, target: seq<nat>) {
    forall i, v: nat :: 0 <= i < |target| && Edge(g, target[i], v) ==> v in target[i + 1..]
  }

  /** Everything exactly once. */
  ghost predicate Permutation(g: Graph, target: seq<nat>) {
    Distinct(target) && forall x: nat :: x in target <==> x < |g|
  }

  /** Along a path positions grow, so an ordered list proves there is no cycle. */
  lemma {:induction false} PathGoesRight(g: Graph, target: seq<nat>, p: seq<nat>, i: nat) returns (j: nat)
    requires Ordered(g, target) && |p| >= 1 && IsPath(g, p) && i < |target| && target[i] == p[0]
    ensures i + |p| - 1 <= j < |target| && target[j] == p[|p| - 1]
  {
    if |p| == 1 {
      j := i;
    } else {
      assert Edge(g, p[0], p[1]);
      var k :| 0 <= k < |target[i + 1..]| && target[i + 1..][k] == p[1];
      assert IsPath(g, p[1..]);
      j := PathGoesRight(g, target, p[1..], i + 1 + k);
    }
  }

  lemma OrderedIsAcyclic(g: Graph, target: seq<nat>)
    requires Permutation(g, target) && Ordered(g, target)
    ensures Acyclic(g)
  {
    forall x: nat | Reaches(g, x, x)
      ensures false
    {
      var p: seq<nat> :| |p| >= 2 && p[0] == x && p[|p| - 1] == x && IsPath(g, p);
      assert Edge(g, p[0], p[1]);
      assert x in target;
      var i :| 0 <= i < |target| && target[i] == x;
      var j := PathGoesRight(g, target, p, i);
    }
  }

  /** Two nodes that need each other's edges: no order exists, and no list of the sort's is ordered. */
  lemma TwoNodeCycle() returns (g: Graph)
    ensures |g| == 2 && Edge(g, 0, 1) && Edge(g, 1, 0) && !Acyclic(g)
    ensures forall target :: Permutation(g, target) ==> !Ordered(g, target)
  {
    g := [Parameters(None, Some(["a"]), Some(["b"])), Parameters(None, Some(["b"]), Some(["a"]))];
    assert "a" in Offers(g[0]) && "a" in Needs(g[1]) && "b" in Offers(g[1]) && "b" in Needs(g[0]);
    EdgeReaches(g, 0, 1);
    ReachesOn(g, 0, 1, 0);
    forall target | Permutation(g, target)
      ensures !Ordered(g, target)
    {
      if Ordered(g, target) {
        OrderedIsAcyclic(g, target);
      }
    }
  }

  // ------------------------------------------------------------------ the visit

  datatype Mark = Unmarked | Temporary | Permanent

  function UnmarkedNodes(marks: seq<Mark>): set<nat> {
    set i: nat | i < |marks| && marks[i] == Unmarked
  }

  /** The list holds exactly the nodes with the permanent mark, each once. */
  ghost predicate Consistent(g: Graph, marks: seq<Mark>, target: seq<nat>) {
    && |marks| == |g| && Distinct(target)
    && (forall x: nat :: x in target <==> x < |g| && marks[x] == Permanent)
  }

  /** A visit gives unmarked nodes the permanent mark and touches no other. */
  predicate Extends(before: seq<Mark>, after: seq<Mark>) {
    && |before| == |after|
    && forall x :: 0 <= x < |before| ==> after[x] == before[x] || (before[x] == Unmarked && after[x] == Permanent)
  }

  /** The nodes being visited lead to this one. */
  ghost predicate AncestorsReach(g: Graph, marks: seq<Mark>, n: nat) {
    forall t: nat :: t < |marks| && marks[t] == Temporary ==> Reaches(g, t, n)
  }

  /** In an acyclic graph a node whose successors are all marked has them all in the list. */
  lemma SuccessorsPlaced(g: Graph, marks: seq<Mark>, target: seq<nat>, n: nat)
    requires Acyclic(g) && Consistent(g, marks, target) && n < |g|
    requires forall t: nat :: t < |marks| && marks[t] == Temporary && t != n ==> Reaches(g, t, n)
    requires forall v: nat :: Edge(g, n, v) ==> marks[v] != Unmarked
    ensures forall v: nat :: Edge(g, n, v) ==> v in target
  {
    forall v: nat | Edge(g, n, v)
      ensures v in target
    {
      if v == n {
        EdgeReaches(g, n, n);
      } else if marks[v] == Temporary {
        ReachesOn(g, v, n, v);
      }
    }
  }

  lemma OrderedPush(g: Graph, target: seq<nat>, n: nat)
    requires Ordered(g, target) && forall v: nat :: Edge(g, n, v) ==> v in target
    ensures Ordered(g, [n] + target)
  {
    var r := [n] + target;
    forall i, v: nat | 0 <= i < |r| && Edge(g, r[i], v)
      ensures v in r[i + 1..]
    {
      if i == 0 {
        assert r[1..] == target;
      } else {
        assert r[i + 1..] == target[i..] && r[i] == target[i - 1];
      }
    }
  }

  lemma ConsistentPush(g: Graph, marks: seq<Mark>, target: seq<nat>, n: nat)
    requires Consistent(g, marks, target) && n < |g| && marks[n] != Permanent
    ensures Consistent(g, marks[n := Permanent], [n] + target)
  {
    assert n !in target;
  }

  lemma AncestorsStep(g: Graph, marks: seq<Mark>, n: nat, m: nat)
    requires n < |marks| && marks[n] == Temporary && Edge(g, n, m)
    requires forall t: nat :: t < |marks| && marks[t] == Temporary && t != n ==> Reaches(g, t, n)
    ensures AncestorsReach(g, marks, m)
  {
    forall t: nat | t < |marks| && marks[t] == Temporary
      ensures Reaches(g, t, m)
    {
      if t == n {
        EdgeReaches(g, n, m);
      } else {
        ReachesOn(g, t, n, m);
      }
    }
  }

  /** Fails, as the source throws, exactly on a node that is being visited. */
  method SortVisit(g: Graph, n: nat, marks: array<Mark>, target: seq<nat>) returns (failed: bool, result: seq<nat>)
    requires marks.Length == |g| && n < |g|
    requires Consistent(g, marks[..], target) && (marks[n] != Temporary ==> AncestorsReach(g, marks[..], n))
    modifies marks
    ensures failed <==> old(marks[n]) == Temporary
    ensures !failed ==> Consistent(g, marks[..], result) && Extends(old(marks[..]), marks[..]) && marks[n] == Permanent
    ensures !failed && Acyclic(g) && Ordered(g, target) ==> Ordered(g, result)
    decreases UnmarkedNodes(marks[..]), 0
  {
    failed, result := false, target;
    if marks[n] == Permanent {
      return;
    }
    if marks[n] == Temporary {
      failed := true;
      return;
    }
    var offers := Offers(g[n]);
    if offers != [] {
      marks[n] := Temporary;
      assert n in UnmarkedNodes(old(marks[..])) && n !in UnmarkedNodes(marks[..]);
      assert UnmarkedNodes(marks[..]) < UnmarkedNodes(old(marks[..]));
      result := VisitConsumers(g, n, marks, target);
    }
    ghost var seen := marks[..];
    assert forall v: nat :: Edge(g, n, v) ==> seen[v] != Unmarked;
    if Acyclic(g) && Ordered(g, target) {
      SuccessorsPlaced(g, seen, result, n);
      OrderedPush(g, result, n);
    }
    ConsistentPush(g, seen, result, n);
    marks[n] := Permanent;
    assert marks[..] == seen[n := Permanent];
    result := [n] + result;
  }

  /** The loop over all nodes: visits those without a mark that need an edge of node n. */
  method VisitConsumers(g: Graph, n: nat, marks: array<Mark>, target: seq<nat>) returns (result: seq<nat>)
    requires marks.Length == |g| && n < |g| && marks[n] == Temporary
    requires Consistent(g, marks[..], target)
    requires forall t: nat :: t < |g| && marks[t] == Temporary && t != n ==> Reaches(g, t, n)
    modifies marks
    ensures Consistent(g, marks[..], result) && Extends(old(marks[..]), marks[..])
    ensures forall v: nat :: Edge(g, n, v) ==> marks[v] != Unmarked
    ensures Acyclic(g) && Ordered(g, target) ==> Ordered(g, result)
    decreases UnmarkedNodes(marks[..]), 1
  {
    result := target;
    for m := 0 to |g|
      invariant Consistent(g, marks[..], result) && Extends(old(marks[..]), marks[..])
      invariant forall v: nat :: v < m && Edge(g, n, v) ==> marks[v] != Unmarked
      invariant Acyclic(g) && Ordered(g, target) ==> Ordered(g, result)
    {
      if marks[m] == Unmarked {
        var has := HasEdge(Offers(g[n]), Needs(g[m]));
        if has {
          assert Edge(g, n, m);
          AncestorsStep(g, marks[..], n, m);
          assert UnmarkedNodes(marks[..]) <= UnmarkedNodes(old(marks[..]));
          var failed;
          failed, result := SortVisit(g, m, marks, result);
        }
      }
    }
  }

  /**
    The whole sort: it never fails, cyclic graph or not; it returns every node exactly once; and
    every producer stands before all its consumers exactly if the graph has no cycle.
   */
  method Sort(g: Graph) returns (failed: bool, target: seq<nat>)
    ensures !failed
    ensures Permutation(g, target)
    ensures Ordered(g, target) <==> Acyclic(g)
  {
    var marks := new Mark[|g|](_ => Unmarked);
    failed, target := false, [];
    assert Ordered(g, target);
    for n := 0 to |g|
      invariant !failed
      invariant Consistent(g, marks[..], target)
      invariant forall x :: 0 <= x < |g| ==> marks[x] != Temporary && (x < n ==> marks[x] == Permanent)
      invariant Acyclic(g) ==> Ordered(g, target)
    {
      failed, target := SortVisit(g, n, marks, target);
    }
    if Ordered(g, target) {
      OrderedIsAcyclic(g, target);
    }
  }
}
