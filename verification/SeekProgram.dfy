/**
  The order of a team's seek: which pause, flush, lock, clear, seek and resume actions the calling
  thread performs, target by target and phase by phase, over the chain of nodes above each target.
 */
module SeekProgram {
  import opened Options

  /**
    A node with its source edge, if it has one, and the producer of that edge, if it is attached.
    A node has at most one source edge, so edge n is the source edge of node n. `isInput` marks the
    nodes that can be positioned.
   */
  datatype Node = Node(hasSource: bool, producer: Option<nat>, isInput: bool)

  type Graph = seq<Node>

  /** Acyclic, producers numbered above their consumers; an input has no source edge. */
  predicate WellFormed(g: Graph) {
    forall n :: 0 <= n < |g| ==>
      && (g[n].producer.Some? ==> g[n].hasSource && n < g[n].producer.value < |g|)
      && (g[n].isInput ==> !g[n].hasSource)
  }

  /** A target consumes from an edge. */
  predicate Targets(g: Graph, ts: seq<nat>) {
    forall i :: 0 <= i < |ts| ==> ts[i] < |g| && g[ts[i]].hasSource
  }

  // ------------------------------------------------------------------ the chain above a node

  function Producers(g: Graph, n: nat): seq<nat>
    requires WellFormed(g) && n < |g|
    decreases |g| - n
  {
    match g[n].producer
    case None => []
    case Some(p) => [p] + Producers(g, p)
  }

  function Edges(g: Graph, n: nat): seq<nat>
    requires WellFormed(g) && n < |g|
    decreases |g| - n
  {
    if !g[n].hasSource then []
    else [n] + (match g[n].producer case None => [] case Some(p) => Edges(g, p))
  }

  /** executeUpstream(): the edges and nodes its callback sees. */
  method ExecuteUpstream(g: Graph, n: nat) returns (edges: seq<nat>, nodes: seq<nat>)
    requires WellFormed(g) && n < |g|
    ensures edges == Edges(g, n) && nodes == Producers(g, n)
  {
    edges, nodes := [], [];
    var edge := if g[n].hasSource then Some(n) else None;
    while edge.Some?
      invariant edge.Some? ==> edge.value < |g| && g[edge.value].hasSource
      invariant edges + EdgesFrom(g, edge) == Edges(g, n)
      invariant nodes + ProducersFrom(g, edge) == Producers(g, n)
      decreases if edge.Some? then |g| - edge.value else -1
    {
      ChainUnfolds(g, edge.value);
      var node := g[edge.value].producer;
      Reassociate(edges, edge.value, EdgesFrom(g, node));
      edges := edges + [edge.value];
      if node.Some? {
        Reassociate(nodes, node.value, Producers(g, node.value));
        nodes := nodes + [node.value];
      }
      edge := if node.Some? && g[node.value].hasSource then node else None;
    }
  }

  lemma Reassociate(a: seq<nat>, x: nat, b: seq<nat>)
    ensures a + ([x] + b) == (a + [x]) + b
  {
  }

  lemma ChainUnfolds(g: Graph, e: nat)
    requires WellFormed(g) && e < |g| && g[e].hasSource
    ensures var node := g[e].producer;
      && Edges(g, e) == [e] + EdgesFrom(g, node)
      && (node.Some? ==> Producers(g, e) == [node.value] + Producers(g, node.value))
      && (node.Some? && !g[node.value].hasSource ==> EdgesFrom(g, node) == [] && Producers(g, node.value) == [])
      && (node.None? ==> Producers(g, e) == [])
  {
  }

  function ProducersFrom(g: Graph, n: Option<nat>): seq<nat>
    requires WellFormed(g) && (n.Some? ==> n.value < |g|)
  {
    match n case None => [] case Some(p) => Producers(g, p)
  }

  function EdgesFrom(g: Graph, n: Option<nat>): seq<nat>
    requires WellFormed(g) && (n.Some? ==> n.value < |g|)
  {
    match n case None => [] case Some(p) => Edges(g, p)
  }

  lemma {:induction false} ChainShape(g: Graph, n: nat)
    requires WellFormed(g) && n < |g|
    ensures forall i :: 0 <= i < |Producers(g, n)| ==> n < Producers(g, n)[i] < |g|
    ensures forall i, j :: 0 <= i < j < |Producers(g, n)| ==> Producers(g, n)[i] < Producers(g, n)[j]
    ensures forall e :: e in Edges(g, n) <==> (e == n || e in Producers(g, n)) && e < |g| && g[e].hasSource
    decreases |g| - n
  {
    if g[n].producer.Some? {
      ChainShape(g, g[n].producer.value);
    }
  }

  /** A chain contains the chains of its members. */
  lemma {:induction false} ChainClosed(g: Graph, n: nat, x: nat)
    requires WellFormed(g) && n < |g| && x in Producers(g, n)
    ensures x < |g|
    ensures forall m :: m in Producers(g, x) ==> m in Producers(g, n)
    decreases |g| - n
  {
    ChainShape(g, n);
    var p := g[n].producer.value;
    if x != p {
      ChainClosed(g, p, x);
    }
  }

  ghost predicate Member(g: Graph, ts: seq<nat>, x: nat)
    requires WellFormed(g) && Targets(g, ts)
  {
    exists i :: 0 <= i < |ts| && (x == ts[i] || x in Producers(g, ts[i]))
  }

  ghost predicate FlushedEdge(g: Graph, ts: seq<nat>, e: nat)
    requires WellFormed(g) && Targets(g, ts)
  {
    Member(g, ts, e) && e < |g| && g[e].hasSource
  }

  lemma MembersClosed(g: Graph, ts: seq<nat>, x: nat)
    requires WellFormed(g) && Targets(g, ts) && Member(g, ts, x)
    ensures x < |g|
    ensures forall m :: m in Producers(g, x) ==> Member(g, ts, m)
    ensures g[x].producer.Some? ==> Member(g, ts, g[x].producer.value)
  {
    var i :| 0 <= i < |ts| && (x == ts[i] || x in Producers(g, ts[i]));
    var t := ts[i];
    ChainShape(g, t);
    if x != t {
      ChainClosed(g, t, x);
    }
    ChainShape(g, x);
    assert g[x].producer.Some? ==> g[x].producer.value == Producers(g, x)[0];
  }

  // ------------------------------------------------------------------ the four phases

  datatype Op =
    | Pause(node: nat)
    | StartFlush(edge: nat)
    | FinishConsumer(edge: nat)
    | FinishProducer(edge: nat)
    | Lock(node: nat)
    | Unlock(node: nat)
    | Clear(edge: nat)
    | StopFlush(edge: nat)
    | Seek(node: nat)         // skipped for a node that is not paused any more
    | Resume(node: nat)

  datatype Phase = Start | Wait | Finish | Complete

  function PhaseOf(op: Op): Phase {
    match op
    case Pause(_) => Start case StartFlush(_) => Start case FinishConsumer(_) => Start case FinishProducer(_) => Start
    case Lock(_) => Wait case Unlock(_) => Wait
    case Clear(_) => Finish case StopFlush(_) => Finish
    case Seek(_) => Complete case Resume(_) => Complete
  }

  /** The ops a callback performs for one visited node or edge. */
  function AtNode(phase: Phase, n: nat): seq<Op> {
    match phase case Start => [Pause(n)] case Wait => [Lock(n), Unlock(n)] case Finish => [] case Complete => [Resume(n)]
  }

  function AtEdge(phase: Phase, e: nat): seq<Op> {
    match phase
    case Start => [StartFlush(e), FinishConsumer(e), FinishProducer(e)]
    case Wait => []
    case Finish => [Clear(e), StopFlush(e)]
    case Complete => []
  }

  function AtNodes(phase: Phase, ns: seq<nat>): seq<Op> {
    if ns == [] then [] else AtNode(phase, ns[0]) + AtNodes(phase, ns[1..])
  }

  function AtEdges(phase: Phase, es: seq<nat>): seq<Op> {
    if es == [] then [] else AtEdge(phase, es[0]) + AtEdges(phase, es[1..])
  }

  function Seeks(ns: seq<nat>): seq<Op> {
    if ns == [] then [] else [Seek(ns[0])] + Seeks(ns[1..])
  }

  /** One target's part of a phase: flushAndSeek_start, flushAndSeek, _finish and _complete. */
  function TargetOps(g: Graph, t: nat, phase: Phase): seq<Op>
    requires WellFormed(g) && t < |g|
  {
    var ps := Producers(g, t);
    match phase
    case Start => [Pause(t)] + AtNodes(Start, ps) + AtEdges(Start, Edges(g, t))
    case Wait => [Lock(t), Unlock(t)] + AtNodes(Wait, ps)
    case Finish => AtEdges(Finish, Edges(g, t))
    case Complete => Seeks(ps) + AtNodes(Complete, ps) + [Resume(t)]
  }

  function PhaseOps(g: Graph, ts: seq<nat>, phase: Phase): seq<Op>
    requires WellFormed(g) && Targets(g, ts)
  {
    if ts == [] then []
    else
      var t := ts[|ts| - 1];
      PhaseOps(g, ts[..|ts| - 1], phase) + TargetOps(g, t, phase)
  }

  /** The first k phases, every target's part of a phase before any part of the next. */
  function FirstPhases(g: Graph, ts: seq<nat>, k: nat): seq<Op>
    requires WellFormed(g) && Targets(g, ts) && k <= 4
  {
    if k == 0 then [] else FirstPhases(g, ts, k - 1) + PhaseOps(g, ts, NthPhase(k - 1))
  }

  function NthPhase(k: nat): Phase { if k == 0 then Start else if k == 1 then Wait else if k == 2 then Finish else Complete }

  function Rank(phase: Phase): nat {
    match phase case Start => 0 case Wait => 1 case Finish => 2 case Complete => 3
  }

  /** flushAndSeekNonRecursive(). */
  function Program(g: Graph, ts: seq<nat>): seq<Op>
    requires WellFormed(g) && Targets(g, ts)
  {
    FirstPhases(g, ts, 4)
  }

  /** Where the phases after this one begin. */
  function EndOf(g: Graph, ts: seq<nat>, phase: Phase): nat
    requires WellFormed(g) && Targets(g, ts)
  {
    |FirstPhases(g, ts, Rank(phase) + 1)|
  }

  lemma PrefixOn(a: seq<Op>, b: seq<Op>, c: seq<Op>)
    requires a <= b
    ensures a <= b + c
  {
  }

  lemma {:induction false} PhasesPrefix(g: Graph, ts: seq<nat>, j: nat, k: nat)
    requires WellFormed(g) && Targets(g, ts) && j <= k <= 4
    ensures FirstPhases(g, ts, j) <= FirstPhases(g, ts, k)
  {
    if j < k {
      PhasesPrefix(g, ts, j, k - 1);
      PrefixOn(FirstPhases(g, ts, j), FirstPhases(g, ts, k - 1), PhaseOps(g, ts, NthPhase(k - 1)));
    }
  }

  method RunPhase(g: Graph, ts: seq<nat>, phase: Phase) returns (ops: seq<Op>)
    requires WellFormed(g) && Targets(g, ts)
    ensures ops == PhaseOps(g, ts, phase)
  {
    ops := [];
    for i := 0 to |ts|
      invariant ops == PhaseOps(g, ts[..i], phase)
    {
      assert ts[..i + 1][..i] == ts[..i];
      ops := ops + TargetOps(g, ts[i], phase);
    }
    assert ts[..|ts|] == ts;
  }

  /** The method of the team: four loops over the targets. */
  method FlushAndSeek(g: Graph, ts: seq<nat>) returns (ops: seq<Op>)
    requires WellFormed(g) && Targets(g, ts)
    ensures ops == Program(g, ts)
  {
    ops := [];
    for k := 0 to 4
      invariant ops == FirstPhases(g, ts, k)
    {
      var part := RunPhase(g, ts, NthPhase(k));
      ops := ops + part;
    }
  }

  // ------------------------------------------------------------------ what the program contains

  lemma {:induction false} AtNodesOps(phase: Phase, ns: seq<nat>, op: Op)
    ensures op in AtNodes(phase, ns) <==> exists i :: 0 <= i < |ns| && op in AtNode(phase, ns[i])
  {
    if ns != [] {
      AtNodesOps(phase, ns[1..], op);
      assert op in AtNodes(phase, ns) <==> op in AtNode(phase, ns[0]) || op in AtNodes(phase, ns[1..]);
      assert forall i :: 1 <= i < |ns| ==> ns[i] == ns[1..][i - 1];
    }
  }

  lemma {:induction false} AtEdgesOps(phase: Phase, es: seq<nat>, op: Op)
    ensures op in AtEdges(phase, es) <==> exists i :: 0 <= i < |es| && op in AtEdge(phase, es[i])
  {
    if es != [] {
      AtEdgesOps(phase, es[1..], op);
      assert op in AtEdges(phase, es) <==> op in AtEdge(phase, es[0]) || op in AtEdges(phase, es[1..]);
      assert forall i :: 1 <= i < |es| ==> es[i] == es[1..][i - 1];
    }
  }

  lemma {:induction false} SeeksOps(ns: seq<nat>)
    ensures |Seeks(ns)| == |ns|
    ensures forall i :: 0 <= i < |ns| ==> Seeks(ns)[i] == Seek(ns[i])
  {
    if ns != [] {
      SeeksOps(ns[1..]);
    }
  }

  lemma {:induction false} ResumesOps(ns: seq<nat>)
    ensures |AtNodes(Complete, ns)| == |ns|
    ensures forall i :: 0 <= i < |ns| ==> AtNodes(Complete, ns)[i] == Resume(ns[i])
  {
    if ns != [] {
      ResumesOps(ns[1..]);
    }
  }

  lemma NodeOpsOf(ps: seq<nat>, x: nat)
    requires x in ps
    ensures Pause(x) in AtNodes(Start, ps) && Lock(x) in AtNodes(Wait, ps) && Resume(x) in AtNodes(Complete, ps)
  {
    var i :| 0 <= i < |ps| && ps[i] == x;
    assert Pause(x) in AtNode(Start, ps[i]) && Lock(x) in AtNode(Wait, ps[i]) && Resume(x) in AtNode(Complete, ps[i]);
    AtNodesOps(Start, ps, Pause(x));
    AtNodesOps(Wait, ps, Lock(x));
    AtNodesOps(Complete, ps, Resume(x));
  }

  lemma InMiddle(a: seq<Op>, b: seq<Op>, c: seq<Op>, op: Op)
    requires op in b
    ensures op in a + b && op in a + b + c
  {
  }

  /** What one target's part of a phase contains, for a member node or edge of its chain. */
  lemma TargetOpsOf(g: Graph, t: nat, x: nat)
    requires WellFormed(g) && t < |g| && (x == t || x in Producers(g, t))
    ensures Pause(x) in TargetOps(g, t, Start) && Lock(x) in TargetOps(g, t, Wait)
    ensures Resume(x) in TargetOps(g, t, Complete)
  {
    var ps := Producers(g, t);
    if x != t {
      NodeOpsOf(ps, x);
      InMiddle([Pause(t)], AtNodes(Start, ps), AtEdges(Start, Edges(g, t)), Pause(x));
      InMiddle([Lock(t), Unlock(t)], AtNodes(Wait, ps), [], Lock(x));
      InMiddle(Seeks(ps), AtNodes(Complete, ps), [Resume(t)], Resume(x));
    } else {
      assert TargetOps(g, t, Start)[0] == Pause(t) && TargetOps(g, t, Wait)[0] == Lock(t);
      InMiddle(Seeks(ps) + AtNodes(Complete, ps), [Resume(t)], [], Resume(t));
    }
  }

  lemma TargetEdgeOps(g: Graph, t: nat, e: nat)
    requires WellFormed(g) && t < |g| && e in Edges(g, t)
    ensures StartFlush(e) in TargetOps(g, t, Start)
    ensures FinishConsumer(e) in TargetOps(g, t, Start) && FinishProducer(e) in TargetOps(g, t, Start)
    ensures Clear(e) in TargetOps(g, t, Finish) && StopFlush(e) in TargetOps(g, t, Finish)
  {
    var es := Edges(g, t);
    var i :| 0 <= i < |es| && es[i] == e;
    forall op | op in AtEdge(Start, e)
      ensures op in AtEdges(Start, es)
    {
      assert op in AtEdge(Start, es[i]);
      AtEdgesOps(Start, es, op);
    }
    forall op | op in AtEdge(Finish, e)
      ensures op in AtEdges(Finish, es)
    {
      assert op in AtEdge(Finish, es[i]);
      AtEdgesOps(Finish, es, op);
    }
    assert AtEdge(Start, e)[0] == StartFlush(e);
    assert AtEdge(Start, e)[1] == FinishConsumer(e) && AtEdge(Start, e)[2] == FinishProducer(e);
    assert AtEdge(Finish, e)[0] == Clear(e) && AtEdge(Finish, e)[1] == StopFlush(e);
  }

  lemma InAppend(a: seq<Op>, b: seq<Op>, op: Op)
    ensures op in a + b <==> op in a || op in b
  {
  }

  lemma {:induction false} PhaseOpsContain(g: Graph, ts: seq<nat>, phase: Phase, i: nat, op: Op)
    requires WellFormed(g) && Targets(g, ts) && i < |ts| && op in TargetOps(g, ts[i], phase)
    ensures op in PhaseOps(g, ts, phase)
  {
    if i < |ts| - 1 {
      PhaseOpsContain(g, ts[..|ts| - 1], phase, i, op);
    }
    InAppend(PhaseOps(g, ts[..|ts| - 1], phase), TargetOps(g, ts[|ts| - 1], phase), op);
  }

  lemma MemberOps(g: Graph, ts: seq<nat>, x: nat)
    requires WellFormed(g) && Targets(g, ts) && Member(g, ts, x)
    ensures Pause(x) in PhaseOps(g, ts, Start) && Lock(x) in PhaseOps(g, ts, Wait)
    ensures Resume(x) in PhaseOps(g, ts, Complete)
  {
    var i :| 0 <= i < |ts| && (x == ts[i] || x in Producers(g, ts[i]));
    var t := ts[i];
    TargetOpsOf(g, t, x);
    PhaseOpsContain(g, ts, Start, i, Pause(x));
    PhaseOpsContain(g, ts, Wait, i, Lock(x));
    PhaseOpsContain(g, ts, Complete, i, Resume(x));
  }

  lemma FlushedEdgeOps(g: Graph, ts: seq<nat>, e: nat)
    requires WellFormed(g) && Targets(g, ts) && FlushedEdge(g, ts, e)
    ensures StartFlush(e) in PhaseOps(g, ts, Start)
    ensures FinishConsumer(e) in PhaseOps(g, ts, Start) && FinishProducer(e) in PhaseOps(g, ts, Start)
    ensures Clear(e) in PhaseOps(g, ts, Finish) && StopFlush(e) in PhaseOps(g, ts, Finish)
  {
    var i :| 0 <= i < |ts| && (e == ts[i] || e in Producers(g, ts[i]));
    var t := ts[i];
    ChainShape(g, t);
    TargetEdgeOps(g, t, e);
    PhaseOpsContain(g, ts, Start, i, StartFlush(e));
    PhaseOpsContain(g, ts, Start, i, FinishConsumer(e));
    PhaseOpsContain(g, ts, Start, i, FinishProducer(e));
    PhaseOpsContain(g, ts, Finish, i, Clear(e));
    PhaseOpsContain(g, ts, Finish, i, StopFlush(e));
  }

  /** Conversely, an op of a phase concerns a member, and ops keep to their phase. */
  ghost predicate About(g: Graph, ts: seq<nat>, op: Op)
    requires WellFormed(g) && Targets(g, ts)
  {
    match op
    case StartFlush(e) => FlushedEdge(g, ts, e)
    case FinishConsumer(e) => FlushedEdge(g, ts, e)
    case FinishProducer(e) => FlushedEdge(g, ts, e)
    case Clear(e) => FlushedEdge(g, ts, e)
    case StopFlush(e) => FlushedEdge(g, ts, e)
    case _ => Member(g, ts, op.node)
  }

  lemma NodesAbout(g: Graph, ts: seq<nat>, phase: Phase, ns: seq<nat>, op: Op)
    requires WellFormed(g) && Targets(g, ts) && (forall x :: x in ns ==> Member(g, ts, x))
    requires op in AtNodes(phase, ns)
    ensures PhaseOf(op) == phase && About(g, ts, op)
  {
    AtNodesOps(phase, ns, op);
    var i :| 0 <= i < |ns| && op in AtNode(phase, ns[i]);
    assert ns[i] in ns;
  }

  lemma EdgesAbout(g: Graph, ts: seq<nat>, phase: Phase, es: seq<nat>, op: Op)
    requires WellFormed(g) && Targets(g, ts) && (forall e :: e in es ==> FlushedEdge(g, ts, e))
    requires op in AtEdges(phase, es)
    ensures PhaseOf(op) == phase && About(g, ts, op)
  {
    AtEdgesOps(phase, es, op);
    var i :| 0 <= i < |es| && op in AtEdge(phase, es[i]);
    assert es[i] in es;
  }

  lemma SeeksAbout(g: Graph, ts: seq<nat>, ns: seq<nat>, op: Op)
    requires WellFormed(g) && Targets(g, ts) && (forall x :: x in ns ==> Member(g, ts, x))
    requires op in Seeks(ns)
    ensures PhaseOf(op) == Complete && About(g, ts, op)
  {
    SeeksOps(ns);
    var i :| 0 <= i < |ns| && op == Seeks(ns)[i];
    assert ns[i] in ns;
  }

  lemma TargetOpsAbout(g: Graph, ts: seq<nat>, i: nat, phase: Phase, op: Op)
    requires WellFormed(g) && Targets(g, ts) && i < |ts| && op in TargetOps(g, ts[i], phase)
    ensures PhaseOf(op) == phase && About(g, ts, op)
  {
    var t := ts[i];
    var ps, es := Producers(g, t), Edges(g, t);
    ChainShape(g, t);
    assert Member(g, ts, t);
    if op in AtNodes(phase, ps) {
      NodesAbout(g, ts, phase, ps, op);
    } else if op in AtEdges(phase, es) {
      EdgesAbout(g, ts, phase, es, op);
    } else if phase.Complete? && op in Seeks(ps) {
      SeeksAbout(g, ts, ps, op);
    }
  }

  ghost predicate AllAbout(g: Graph, ts: seq<nat>, phase: Phase, ops: seq<Op>)
    requires WellFormed(g) && Targets(g, ts)
  {
    forall op :: op in ops ==> PhaseOf(op) == phase && About(g, ts, op)
  }

  lemma JoinedAbout(g: Graph, ts: seq<nat>, phase: Phase, a: seq<Op>, b: seq<Op>)
    requires WellFormed(g) && Targets(g, ts) && AllAbout(g, ts, phase, a) && AllAbout(g, ts, phase, b)
    ensures AllAbout(g, ts, phase, a + b)
  {
  }

  lemma PhaseOpsSplit(g: Graph, ts: seq<nat>, k: nat, phase: Phase)
    requires WellFormed(g) && Targets(g, ts) && 0 < k <= |ts|
    ensures PhaseOps(g, ts[..k], phase) == PhaseOps(g, ts[..k - 1], phase) + TargetOps(g, ts[k - 1], phase)
  {
    assert ts[..k][..k - 1] == ts[..k - 1];
  }

  lemma TargetAllAbout(g: Graph, ts: seq<nat>, i: nat, phase: Phase)
    requires WellFormed(g) && Targets(g, ts) && i < |ts|
    ensures AllAbout(g, ts, phase, TargetOps(g, ts[i], phase))
  {
    forall op | op in TargetOps(g, ts[i], phase)
      ensures PhaseOf(op) == phase && About(g, ts, op)
    {
      TargetOpsAbout(g, ts, i, phase, op);
    }
  }

  lemma {:induction false} PhaseAllAbout(g: Graph, ts: seq<nat>, k: nat, phase: Phase)
    requires WellFormed(g) && Targets(g, ts) && k <= |ts|
    ensures AllAbout(g, ts, phase, PhaseOps(g, ts[..k], phase))
  {
    if k > 0 {
      PhaseAllAbout(g, ts, k - 1, phase);
      TargetAllAbout(g, ts, k - 1, phase);
      JoinedAbout(g, ts, phase, PhaseOps(g, ts[..k - 1], phase), TargetOps(g, ts[k - 1], phase));
      PhaseOpsSplit(g, ts, k, phase);
    }
  }

  lemma PhaseOpsAbout(g: Graph, ts: seq<nat>, phase: Phase, op: Op)
    requires WellFormed(g) && Targets(g, ts) && op in PhaseOps(g, ts, phase)
    ensures PhaseOf(op) == phase && About(g, ts, op)
  {
    assert ts[..|ts|] == ts;
    PhaseAllAbout(g, ts, |ts|, phase);
  }

  // ------------------------------------------------------------------ ops that belong together

  /** A lock is released at once, and an edge that was cleared stops flushing at once. */
  predicate PairedAt(ops: seq<Op>, i: nat)
    requires i < |ops|
  {
    && (ops[i].Lock? ==> i + 1 < |ops| && ops[i + 1] == Unlock(ops[i].node))
    && (ops[i].Clear? ==> i + 1 < |ops| && ops[i + 1] == StopFlush(ops[i].edge))
  }

  ghost predicate Paired(ops: seq<Op>) {
    forall i: nat :: i < |ops| ==> PairedAt(ops, i)
  }

  lemma PairedOn(a: seq<Op>, b: seq<Op>)
    requires Paired(a) && Paired(b)
    ensures Paired(a + b)
  {
    forall i: nat | i < |a + b|
      ensures PairedAt(a + b, i)
    {
      if i < |a| {
        assert PairedAt(a, i);
      } else {
        assert PairedAt(b, i - |a|);
      }
    }
  }

  lemma {:induction false} PairedNodes(phase: Phase, ns: seq<nat>)
    ensures Paired(AtNodes(phase, ns))
  {
    if ns != [] {
      PairedNodes(phase, ns[1..]);
      PairedOn(AtNode(phase, ns[0]), AtNodes(phase, ns[1..]));
    }
  }

  lemma {:induction false} PairedEdges(phase: Phase, es: seq<nat>)
    ensures Paired(AtEdges(phase, es))
  {
    if es != [] {
      PairedEdges(phase, es[1..]);
      PairedOn(AtEdge(phase, es[0]), AtEdges(phase, es[1..]));
    }
  }

  lemma {:induction false} PairedSeeks(ns: seq<nat>)
    ensures Paired(Seeks(ns))
  {
    if ns != [] {
      PairedSeeks(ns[1..]);
      PairedOn([Seek(ns[0])], Seeks(ns[1..]));
    }
  }

  lemma PairedTarget(g: Graph, t: nat, phase: Phase)
    requires WellFormed(g) && t < |g|
    ensures Paired(TargetOps(g, t, phase))
  {
    var ps := Producers(g, t);
    PairedNodes(phase, ps);
    match phase {
      case Start =>
        PairedEdges(Start, Edges(g, t));
        PairedOn([Pause(t)], AtNodes(Start, ps));
        PairedOn([Pause(t)] + AtNodes(Start, ps), AtEdges(Start, Edges(g, t)));
      case Wait => PairedOn([Lock(t), Unlock(t)], AtNodes(Wait, ps));
      case Finish => PairedEdges(Finish, Edges(g, t));
      case Complete =>
        PairedSeeks(ps);
        PairedOn(Seeks(ps), AtNodes(Complete, ps));
        PairedOn(Seeks(ps) + AtNodes(Complete, ps), [Resume(t)]);
    }
  }

  lemma {:induction false} PairedPhase(g: Graph, ts: seq<nat>, k: nat, phase: Phase)
    requires WellFormed(g) && Targets(g, ts) && k <= |ts|
    ensures Paired(PhaseOps(g, ts[..k], phase))
  {
    if k > 0 {
      PairedPhase(g, ts, k - 1, phase);
      PairedTarget(g, ts[k - 1], phase);
      PhaseOpsSplit(g, ts, k, phase);
      PairedOn(PhaseOps(g, ts[..k - 1], phase), TargetOps(g, ts[k - 1], phase));
    }
  }

  lemma {:induction false} PairedPhases(g: Graph, ts: seq<nat>, k: nat)
    requires WellFormed(g) && Targets(g, ts) && k <= 4
    ensures Paired(FirstPhases(g, ts, k))
  {
    if k > 0 {
      PairedPhases(g, ts, k - 1);
      assert ts[..|ts|] == ts;
      PairedPhase(g, ts, |ts|, NthPhase(k - 1));
      PairedOn(FirstPhases(g, ts, k - 1), PhaseOps(g, ts, NthPhase(k - 1)));
    }
  }

  lemma PairedProgram(g: Graph, ts: seq<nat>)
    requires WellFormed(g) && Targets(g, ts)
    ensures Paired(Program(g, ts))
  {
    PairedPhases(g, ts, 4);
  }

  // ------------------------------------------------------------------ what the last phase orders

  /** The input `m` is node x or feeds it. */
  predicate InputAbove(g: Graph, x: nat, m: nat)
    requires WellFormed(g)
  {
    x < |g| && m < |g| && g[m].isInput && (m == x || m in Producers(g, x))
  }

  /** Resuming a node comes after seeking every input above it. */
  ghost predicate SeeksFirst(g: Graph, ops: seq<Op>)
    requires WellFormed(g)
  {
    forall j, m: nat :: 0 <= j < |ops| && ops[j].Resume? && InputAbove(g, ops[j].node, m) ==> Seek(m) in ops[..j]
  }

  /** Seeking a node again comes after resuming it. */
  ghost predicate RepeatsResumed(ops: seq<Op>) {
    forall j :: 0 <= j < |ops| && ops[j].Seek? && ops[j] in ops[..j] ==> Resume(ops[j].node) in ops[..j]
  }

  lemma CompleteOpsShape(g: Graph, t: nat)
    requires WellFormed(g) && t < |g| && g[t].hasSource
    ensures var ps, ops := Producers(g, t), TargetOps(g, t, Complete);
      && |ops| == 2 * |ps| + 1
      && (forall i :: 0 <= i < |ps| ==> ops[i] == Seek(ps[i]))
      && (forall i :: |ps| <= i < 2 * |ps| ==> ops[i] == Resume(ps[i - |ps|]))
      && ops[2 * |ps|] == Resume(t)
  {
    SeeksOps(Producers(g, t));
    ResumesOps(Producers(g, t));
  }

  lemma CompleteSeeksFirst(g: Graph, t: nat)
    requires WellFormed(g) && t < |g| && g[t].hasSource
    ensures SeeksFirst(g, TargetOps(g, t, Complete))
  {
    var ps, ops := Producers(g, t), TargetOps(g, t, Complete);
    CompleteOpsShape(g, t);
    forall j, m: nat | 0 <= j < |ops| && ops[j].Resume? && InputAbove(g, ops[j].node, m)
      ensures Seek(m) in ops[..j]
    {
      if ops[j].node != t {
        assert ops[j].node == ps[j - |ps|];
        ChainClosed(g, t, ops[j].node);
      }
      assert m in ps;
      var i :| 0 <= i < |ps| && ps[i] == m;
      assert ops[..j][i] == Seek(m);
    }
  }

  lemma SeeksDistinct(ns: seq<nat>, j: nat)
    requires j < |ns| && forall i, k :: 0 <= i < k < |ns| ==> ns[i] < ns[k]
    ensures |Seeks(ns)| == |ns| && Seeks(ns)[j] !in Seeks(ns)[..j]
  {
    SeeksOps(ns);
  }

  /** Within one target's part, nothing is seeked twice and what is seeked is resumed. */
  lemma CompleteSeeksOnce(g: Graph, t: nat, j: nat)
    requires WellFormed(g) && t < |g| && g[t].hasSource
    requires j < |TargetOps(g, t, Complete)| && TargetOps(g, t, Complete)[j].Seek?
    ensures TargetOps(g, t, Complete)[j] !in TargetOps(g, t, Complete)[..j]
    ensures Resume(TargetOps(g, t, Complete)[j].node) in TargetOps(g, t, Complete)
  {
    var ps, ops := Producers(g, t), TargetOps(g, t, Complete);
    SeeksOps(ps);
    ResumesOps(ps);
    ChainShape(g, t);
    assert j < |ps|;
    SeeksDistinct(ps, j);
    assert ops[..j] == Seeks(ps)[..j];
    assert Resume(ps[j]) == AtNodes(Complete, ps)[j];
  }

  lemma OrderAppends(g: Graph, a: seq<Op>, b: seq<Op>)
    requires WellFormed(g) && SeeksFirst(g, a) && SeeksFirst(g, b)
    ensures SeeksFirst(g, a + b)
  {
    forall j, m: nat | 0 <= j < |a + b| && (a + b)[j].Resume? && InputAbove(g, (a + b)[j].node, m)
      ensures Seek(m) in (a + b)[..j]
    {
      if j < |a| {
        assert (a + b)[..j] == a[..j] && a[j] == (a + b)[j];
      } else {
        assert (a + b)[..j] == a + b[..j - |a|] && b[j - |a|] == (a + b)[j];
      }
    }
  }

  /** Appending a part that seeks nothing twice keeps the rule, once every earlier seek was resumed. */
  lemma RepeatsAppend(a: seq<Op>, b: seq<Op>)
    requires RepeatsResumed(a) && (forall x :: Seek(x) in a ==> Resume(x) in a)
    requires forall j :: 0 <= j < |b| && b[j].Seek? ==> b[j] !in b[..j]
    ensures RepeatsResumed(a + b)
  {
    forall j | 0 <= j < |a + b| && (a + b)[j].Seek? && (a + b)[j] in (a + b)[..j]
      ensures Resume((a + b)[j].node) in (a + b)[..j]
    {
      if j < |a| {
        assert (a + b)[..j] == a[..j] && a[j] == (a + b)[j];
      } else {
        assert (a + b)[..j] == a + b[..j - |a|] && b[j - |a|] == (a + b)[j];
        assert Seek((a + b)[j].node) in a;
      }
    }
  }

  lemma {:induction false} CompleteOrder(g: Graph, ts: seq<nat>)
    requires WellFormed(g) && Targets(g, ts)
    ensures SeeksFirst(g, PhaseOps(g, ts, Complete)) && RepeatsResumed(PhaseOps(g, ts, Complete))
    ensures forall x :: Seek(x) in PhaseOps(g, ts, Complete) ==> Resume(x) in PhaseOps(g, ts, Complete)
  {
    if ts != [] {
      var t := ts[|ts| - 1];
      var a, b := PhaseOps(g, ts[..|ts| - 1], Complete), TargetOps(g, t, Complete);
      CompleteOrder(g, ts[..|ts| - 1]);
      CompleteSeeksFirst(g, t);
      OrderAppends(g, a, b);
      forall j | 0 <= j < |b| && b[j].Seek?
        ensures b[j] !in b[..j] && Resume(b[j].node) in b
      {
        CompleteSeeksOnce(g, t, j);
      }
      RepeatsAppend(a, b);
    }
  }

  /** The earlier phases seek and resume nothing. */
  predicate NoSeekOrResume(ops: seq<Op>) {
    forall i :: 0 <= i < |ops| ==> !ops[i].Seek? && !ops[i].Resume?
  }

  lemma EarlyPhases(g: Graph, ts: seq<nat>, k: nat)
    requires WellFormed(g) && Targets(g, ts) && k <= 3
    ensures NoSeekOrResume(FirstPhases(g, ts, k))
  {
    if k > 0 {
      EarlyPhases(g, ts, k - 1);
      var part := PhaseOps(g, ts, NthPhase(k - 1));
      forall i | 0 <= i < |part|
        ensures !part[i].Seek? && !part[i].Resume?
      {
        assert ts[..|ts|] == ts;
        PhaseOpsAbout(g, ts, NthPhase(k - 1), part[i]);
      }
    }
  }

  lemma RepeatsAfter(a: seq<Op>, b: seq<Op>)
    requires NoSeekOrResume(a) && RepeatsResumed(b)
    ensures RepeatsResumed(a + b)
  {
    forall j | 0 <= j < |a + b| && (a + b)[j].Seek? && (a + b)[j] in (a + b)[..j]
      ensures Resume((a + b)[j].node) in (a + b)[..j]
    {
      assert (a + b)[..j] == a + b[..j - |a|] && b[j - |a|] == (a + b)[j];
    }
  }

  /** In the whole program: seeks come before resumes, and between two seeks of a node it is resumed. */
  lemma ProgramOrder(g: Graph, ts: seq<nat>)
    requires WellFormed(g) && Targets(g, ts)
    ensures SeeksFirst(g, Program(g, ts)) && RepeatsResumed(Program(g, ts))
  {
    var a, b := FirstPhases(g, ts, 3), PhaseOps(g, ts, NthPhase(3));
    EarlyPhases(g, ts, 3);
    CompleteOrder(g, ts);
    assert SeeksFirst(g, a);
    OrderAppends(g, a, b);
    RepeatsAfter(a, b);
  }

  lemma SeekedBefore(g: Graph, ops: seq<Op>, k: nat, n: nat, m: nat)
    requires WellFormed(g) && SeeksFirst(g, ops) && k <= |ops| && Resume(n) in ops[..k] && InputAbove(g, n, m)
    ensures Seek(m) in ops[..k]
  {
    var j :| 0 <= j < k && ops[j] == Resume(n);
    assert InputAbove(g, ops[j].node, m);
    assert Seek(m) in ops[..j];
    var i :| 0 <= i < |ops[..j]| && ops[..j][i] == Seek(m);
    assert ops[..k][i] == Seek(m);
  }
}
