/**
  A team's seek running against the threads of its nodes. The seeking thread performs the program's
  actions one at a time; every node thread repeats: lock the node, look at the pause flag, process
  or not, unlock. Processing takes frames from the node's source edge and puts frames on edges the
  node produces, blocking as the edge does. All interleavings are considered.
 */
module SeekProtocol {
  import opened Options
  import opened SeekProgram

  /** A frame, and how far the seek had come when it was put on its edge. */
  datatype Frame = Frame(item: int, stamp: nat)

  datatype ThreadPc =
    | Outside
    | Holding                                // the node's lock is taken, the pause flag not yet read
    | Skipping                               // the flag was set: only the unlock is left
    | Inside                                 // in process()
    | Getting
    | PutChecking(edge: nat, item: int)      // try_enqueue() before it reads the flushing flag
    | Putting(edge: nat, item: int)          // and after, the flag found clear

  predicate Processing(pc: ThreadPc) {
    pc.Inside? || pc.Getting? || pc.PutChecking? || pc.Putting?
  }

  datatype State = State(
    pc: nat,
    held: Option<nat>,
    paused: seq<bool>,
    thread: seq<ThreadPc>,
    flushing: seq<bool>,
    finishConsumer: seq<bool>,
    finishProducer: seq<bool>,
    edges: seq<seq<Frame>>,
    seeks: seq<nat>)

  datatype Setup = Setup(g: Graph, ts: seq<nat>, capacity: nat) {
    ghost predicate Valid() {
      WellFormed(g) && Targets(g, ts)
    }
    ghost function Ops(): seq<Op>
      requires Valid()
    {
      Program(g, ts)
    }
  }

  ghost predicate Shaped(u: Setup, s: State)
    requires u.Valid()
  {
    var n := |u.g|;
    && s.pc <= |u.Ops()|
    && |s.paused| == |s.thread| == |s.flushing| == |s.finishConsumer| == |s.finishProducer| == |s.edges| == |s.seeks| == n
    && (forall i :: 0 <= i < n && (s.thread[i].PutChecking? || s.thread[i].Putting?) ==>
          s.thread[i].edge < n && u.g[s.thread[i].edge].producer == Some(i))
    && (forall i :: 0 <= i < n && s.thread[i].Getting? ==> u.g[i].hasSource)
  }

  /** The seek may start at any moment of the threads' work, whatever lies on the edges. */
  ghost predicate Init(u: Setup, s: State)
    requires u.Valid()
  {
    && Shaped(u, s) && s.pc == 0 && s.held == None
    && forall i :: 0 <= i < |u.g| ==> !s.paused[i] && s.seeks[i] == 0
  }

  // ------------------------------------------------------------------ steps

  datatype Step =
    | Control
    | Enter(node: nat)
    | Look(node: nat)
    | Skip(node: nat)
    | BeginGet(node: nat)
    | Get(node: nat)
    | GiveUp(node: nat)
    | BeginPut(node: nat, edge: nat, item: int)
    | CheckFlush(node: nat)
    | Put(node: nat)
    | RetryPut(node: nat)
    | PutStops(node: nat)
    | Exit(node: nat)
    | Evict(node: nat)       // maybeFlush(), also from the EOF probe outside the lock

  ghost predicate Enabled(u: Setup, s: State, step: Step)
    requires u.Valid() && Shaped(u, s)
  {
    if step.Control? then
      s.pc < |u.Ops()| && OpEnabled(u, s, u.Ops()[s.pc])
    else
      && step.node < |u.g|
      && var pc := s.thread[step.node];
         match step
         case Enter(n) => pc.Outside? && s.held != Some(n)
         case Look(_) => pc.Holding?
         case Skip(_) => pc.Skipping?
         case BeginGet(n) => pc.Inside? && u.g[n].hasSource
         case Get(n) => pc.Getting? && s.edges[n] != []
         case GiveUp(n) => pc.Getting? && s.edges[n] == [] && s.finishConsumer[n]
         case BeginPut(n, e, _) => pc.Inside? && e < |u.g| && u.g[e].producer == Some(n)
         case CheckFlush(_) => pc.PutChecking?
         case Put(_) => pc.Putting? && |s.edges[pc.edge]| < u.capacity
         case RetryPut(_) => pc.Putting? && |s.edges[pc.edge]| >= u.capacity
         case PutStops(_) => pc.Putting? && |s.edges[pc.edge]| >= u.capacity && s.finishProducer[pc.edge]
         case Exit(_) => pc.Inside?
         case Evict(n) => (pc.Outside? || pc.Inside?) && s.flushing[n] && s.edges[n] != []
         case Control => false
  }

  /** The seeking thread waits only for a node's lock. */
  predicate OpEnabled(u: Setup, s: State, op: Op) {
    match op
    case Pause(n) => n < |s.paused|
    case Lock(n) => n < |s.thread| && s.thread[n].Outside?
    case Unlock(n) => true
    case StartFlush(e) => e < |s.flushing|
    case FinishConsumer(e) => e < |s.finishConsumer|
    case FinishProducer(e) => e < |s.finishProducer|
    case Clear(e) => e < |s.edges|
    case StopFlush(e) => e < |s.flushing| && e < |s.finishConsumer| && e < |s.finishProducer|
    case Seek(n) => n < |s.paused| && n < |s.seeks| && n < |u.g|
    case Resume(n) => n < |s.paused|
  }

  function DoOp(u: Setup, s: State, op: Op): State
    requires OpEnabled(u, s, op)
  {
    var t := s.(pc := s.pc + 1);
    match op
    case Pause(n) => t.(paused := s.paused[n := true])
    case StartFlush(e) => t.(flushing := s.flushing[e := true])
    case FinishConsumer(e) => t.(finishConsumer := s.finishConsumer[e := true])
    case FinishProducer(e) => t.(finishProducer := s.finishProducer[e := true])
    case Lock(n) => t.(held := Some(n))
    case Unlock(_) => t.(held := None)
    case Clear(e) => if s.edges[e] == [] then t else s.(edges := s.edges[e := s.edges[e][1..]])
    case StopFlush(e) =>
      t.(flushing := s.flushing[e := false], finishConsumer := s.finishConsumer[e := false],
         finishProducer := s.finishProducer[e := false])
    case Seek(n) => if s.paused[n] && u.g[n].isInput then t.(seeks := s.seeks[n := s.seeks[n] + 1]) else t
    case Resume(n) => t.(paused := s.paused[n := false])
  }

  function MoveTo(s: State, n: nat, pc: ThreadPc): State
    requires n < |s.thread|
  {
    s.(thread := s.thread[n := pc])
  }

  /** One action of a node thread. */
  function ThreadNext(s: State, step: Step): State
    requires !step.Control? && step.node < |s.thread| && step.node < |s.paused| && step.node < |s.edges|
    requires step.Get? || step.Evict? ==> s.edges[step.node] != []
    requires step.CheckFlush? || step.RetryPut? ==> s.thread[step.node].PutChecking? || s.thread[step.node].Putting?
    requires step.CheckFlush? ==> s.thread[step.node].edge < |s.flushing|
    requires step.Put? ==> s.thread[step.node].Putting? && s.thread[step.node].edge < |s.edges|
  {
    var n, pc := step.node, s.thread[step.node];
    match step
    case Enter(_) => MoveTo(s, n, Holding)
    case Look(_) => MoveTo(s, n, if s.paused[n] then Skipping else Inside)
    case BeginGet(_) => MoveTo(s, n, Getting)
    case Get(_) => MoveTo(s, n, Inside).(edges := s.edges[n := s.edges[n][1..]])
    case BeginPut(_, e, item) => MoveTo(s, n, PutChecking(e, item))
    case CheckFlush(_) => MoveTo(s, n, if s.flushing[pc.edge] then Inside else Putting(pc.edge, pc.item))
    case Put(_) =>
      MoveTo(s, n, Inside).(edges := s.edges[pc.edge := s.edges[pc.edge] + [Frame(pc.item, s.pc)]])
    case RetryPut(_) => MoveTo(s, n, PutChecking(pc.edge, pc.item))
    case GiveUp(_) => MoveTo(s, n, Inside)
    case PutStops(_) => MoveTo(s, n, Inside)
    case Skip(_) => MoveTo(s, n, Outside)
    case Exit(_) => MoveTo(s, n, Outside)
    case Evict(_) => s.(edges := s.edges[n := s.edges[n][1..]])
  }

  ghost function Apply(u: Setup, s: State, step: Step): State
    requires u.Valid() && Shaped(u, s) && Enabled(u, s, step)
  {
    if step.Control? then DoOp(u, s, u.Ops()[s.pc])
    else
      EnabledIsAble(u, s, step);
      ThreadNext(s, step)
  }

  lemma EnabledIsAble(u: Setup, s: State, step: Step)
    requires u.Valid() && Shaped(u, s) && Enabled(u, s, step) && !step.Control?
    ensures ThreadNext.requires(s, step)
  {
    match step { case Put(_) => case _ => }
  }

  /** Every state some interleaving leads to. */
  least predicate Reachable[nat](u: Setup, s: State)
    requires u.Valid()
  {
    || Init(u, s)
    || exists r, step :: Shaped(u, r) && Reachable(u, r) && Enabled(u, r, step) && s == Apply(u, r, step)
  }

  // ------------------------------------------------------------------ what every step keeps

  ghost predicate Done(u: Setup, s: State, op: Op)
    requires u.Valid() && s.pc <= |u.Ops()|
  {
    op in u.Ops()[..s.pc]
  }

  /** The seek has waited for the node and not yet resumed it. */
  ghost predicate Settled(u: Setup, s: State, n: nat)
    requires u.Valid() && s.pc <= |u.Ops()|
  {
    Done(u, s, Lock(n)) && !Done(u, s, Resume(n))
  }

  /** The edge has been cleared and its producer not yet resumed. */
  ghost predicate Drained(u: Setup, s: State, e: nat)
    requires u.Valid() && s.pc <= |u.Ops()| && e < |u.g|
  {
    && Done(u, s, Clear(e))
    && (u.g[e].producer.Some? ==> !Done(u, s, Resume(u.g[e].producer.value)))
  }

  ghost predicate PauseLaw(u: Setup, s: State)
    requires u.Valid() && Shaped(u, s)
  {
    forall n: nat :: n < |u.g| ==> (s.paused[n] <==> Done(u, s, Pause(n)) && !Done(u, s, Resume(n)))
  }

  ghost predicate LockLaw(u: Setup, s: State)
    requires u.Valid() && Shaped(u, s)
  {
    && (s.held.Some? && s.held.value < |u.g| ==> s.thread[s.held.value].Outside?)
    && forall n: nat :: n < |u.g| && Processing(s.thread[n]) ==> !Settled(u, s, n)
  }

  ghost predicate EdgeLaw(u: Setup, s: State)
    requires u.Valid() && Shaped(u, s)
  {
    && (forall e: nat :: e < |u.g| && Drained(u, s, e) ==> s.edges[e] == [])
    && (forall e: nat, i :: e < |u.g| && 0 <= i < |s.edges[e]| && Done(u, s, Clear(e)) ==>
          s.edges[e][i].stamp >= EndOf(u.g, u.ts, Finish))
  }

  ghost predicate SeekLaw(u: Setup, s: State)
    requires u.Valid() && Shaped(u, s)
  {
    forall n: nat :: n < |u.g| ==> s.seeks[n] == if u.g[n].isInput && Done(u, s, Seek(n)) then 1 else 0
  }

  /** What the seek has raised on an edge stays up until it stops flushing, and is down from then on. */
  ghost predicate FlagsOf(u: Setup, s: State, e: nat)
    requires u.Valid() && Shaped(u, s) && e < |u.g|
  {
    if Done(u, s, StopFlush(e)) then !s.flushing[e] && !s.finishConsumer[e] && !s.finishProducer[e]
    else
      && (Done(u, s, StartFlush(e)) ==> s.flushing[e])
      && (Done(u, s, FinishConsumer(e)) ==> s.finishConsumer[e])
      && (Done(u, s, FinishProducer(e)) ==> s.finishProducer[e])
  }

  ghost predicate FlagLaw(u: Setup, s: State)
    requires u.Valid() && Shaped(u, s)
  {
    forall e: nat :: e < |u.g| ==> FlagsOf(u, s, e)
  }

  /** The seeking thread holds a lock exactly between taking and releasing it. */
  ghost predicate HeldLaw(u: Setup, s: State)
    requires u.Valid() && Shaped(u, s)
  {
    s.held == if s.pc > 0 && u.Ops()[s.pc - 1].Lock? then Some(u.Ops()[s.pc - 1].node) else None
  }

  ghost predicate Inv(u: Setup, s: State)
    requires u.Valid()
  {
    && Shaped(u, s) && PauseLaw(u, s) && LockLaw(u, s) && EdgeLaw(u, s) && SeekLaw(u, s) && FlagLaw(u, s)
    && HeldLaw(u, s)
  }

  // ------------------------------------------------------------------ the phases in order

  /** Every op sits in its phase's part of the program. */
  lemma PhaseSlice(u: Setup, k: nat, i: nat)
    requires u.Valid() && k < 4 && |FirstPhases(u.g, u.ts, k)| <= i < |FirstPhases(u.g, u.ts, k + 1)|
    ensures i < |u.Ops()| && PhaseOf(u.Ops()[i]) == NthPhase(k) && About(u.g, u.ts, u.Ops()[i])
  {
    PhasesPrefix(u.g, u.ts, k + 1, 4);
    var part := PhaseOps(u.g, u.ts, NthPhase(k));
    var op := part[i - |FirstPhases(u.g, u.ts, k)|];
    assert FirstPhases(u.g, u.ts, k + 1)[i] == op;
    PhaseOpsAbout(u.g, u.ts, NthPhase(k), op);
  }

  lemma EndsOrdered(u: Setup)
    requires u.Valid()
    ensures EndOf(u.g, u.ts, Start) <= EndOf(u.g, u.ts, Wait) <= EndOf(u.g, u.ts, Finish) <= |u.Ops()|
    ensures EndOf(u.g, u.ts, Complete) == |u.Ops()|
  {
    PhasesPrefix(u.g, u.ts, 1, 2);
    PhasesPrefix(u.g, u.ts, 2, 3);
    PhasesPrefix(u.g, u.ts, 3, 4);
  }

  lemma PhaseAt(u: Setup, i: nat)
    requires u.Valid() && i < |u.Ops()|
    ensures About(u.g, u.ts, u.Ops()[i])
    ensures EndOf(u.g, u.ts, Start) <= EndOf(u.g, u.ts, Wait) <= EndOf(u.g, u.ts, Finish)
    ensures PhaseOf(u.Ops()[i]) ==
      if i < EndOf(u.g, u.ts, Start) then Start
      else if i < EndOf(u.g, u.ts, Wait) then Wait
      else if i < EndOf(u.g, u.ts, Finish) then Finish
      else Complete
  {
    EndsOrdered(u);
    if i < EndOf(u.g, u.ts, Start) {
      PhaseSlice(u, 0, i);
    } else if i < EndOf(u.g, u.ts, Wait) {
      PhaseSlice(u, 1, i);
    } else if i < EndOf(u.g, u.ts, Finish) {
      PhaseSlice(u, 2, i);
    } else {
      PhaseSlice(u, 3, i);
    }
  }

  /** An op of a phase is done only once every earlier phase has ended ... */
  lemma DoneAfter(u: Setup, s: State, op: Op)
    requires u.Valid() && s.pc <= |u.Ops()| && Done(u, s, op)
    ensures About(u.g, u.ts, op)
    ensures EndOf(u.g, u.ts, Start) <= EndOf(u.g, u.ts, Wait) <= EndOf(u.g, u.ts, Finish)
    ensures PhaseOf(op).Wait? ==> s.pc > EndOf(u.g, u.ts, Start)
    ensures PhaseOf(op).Finish? ==> s.pc > EndOf(u.g, u.ts, Wait)
    ensures PhaseOf(op).Complete? ==> s.pc > EndOf(u.g, u.ts, Finish)
  {
    var i :| 0 <= i < s.pc && u.Ops()[i] == op;
    PhaseAt(u, i);
  }

  lemma InPrefix(a: seq<Op>, b: seq<Op>, all: seq<Op>, n: nat, op: Op)
    requires a + b <= all && |a + b| <= n <= |all| && op in b
    ensures op in all[..n]
  {
    var i :| 0 <= i < |b| && b[i] == op;
    assert all[..n][|a| + i] == op;
  }

  /** ... and every op of a phase is done once the phase has ended. */
  lemma DoneBy(u: Setup, s: State, k: nat, op: Op)
    requires u.Valid() && k < 4 && |FirstPhases(u.g, u.ts, k + 1)| <= s.pc <= |u.Ops()|
    requires op in PhaseOps(u.g, u.ts, NthPhase(k))
    ensures Done(u, s, op)
  {
    PhasesPrefix(u.g, u.ts, k + 1, 4);
    InPrefix(FirstPhases(u.g, u.ts, k), PhaseOps(u.g, u.ts, NthPhase(k)), u.Ops(), s.pc, op);
  }

  lemma PausedBy(u: Setup, s: State, n: nat)
    requires u.Valid() && EndOf(u.g, u.ts, Start) <= s.pc <= |u.Ops()| && Member(u.g, u.ts, n)
    ensures Done(u, s, Pause(n))
  {
    MemberOps(u.g, u.ts, n);
    DoneBy(u, s, 0, Pause(n));
  }

  lemma LockedBy(u: Setup, s: State, n: nat)
    requires u.Valid() && EndOf(u.g, u.ts, Wait) <= s.pc <= |u.Ops()| && Member(u.g, u.ts, n)
    ensures Done(u, s, Lock(n))
  {
    MemberOps(u.g, u.ts, n);
    DoneBy(u, s, 1, Lock(n));
  }

  lemma FinishedBy(u: Setup, s: State, e: nat)
    requires u.Valid() && EndOf(u.g, u.ts, Start) <= s.pc <= |u.Ops()| && FlushedEdge(u.g, u.ts, e)
    ensures Done(u, s, FinishConsumer(e)) && Done(u, s, FinishProducer(e))
  {
    FlushedEdgeOps(u.g, u.ts, e);
    DoneBy(u, s, 0, FinishConsumer(e));
    DoneBy(u, s, 0, FinishProducer(e));
  }

  lemma ClearedBy(u: Setup, s: State, e: nat)
    requires u.Valid() && EndOf(u.g, u.ts, Finish) <= s.pc <= |u.Ops()| && FlushedEdge(u.g, u.ts, e)
    ensures Done(u, s, Clear(e))
  {
    FlushedEdgeOps(u.g, u.ts, e);
    DoneBy(u, s, 2, Clear(e));
  }

  lemma ResumedBy(u: Setup, s: State, n: nat)
    requires u.Valid() && s.pc == |u.Ops()| && Member(u.g, u.ts, n)
    ensures Done(u, s, Resume(n))
  {
    MemberOps(u.g, u.ts, n);
    DoneBy(u, s, 3, Resume(n));
  }

  /** A node is resumed only after every input above it was seeked. */
  lemma InputsDone(u: Setup, s: State, n: nat, m: nat)
    requires u.Valid() && s.pc <= |u.Ops()| && Done(u, s, Resume(n)) && InputAbove(u.g, n, m)
    ensures Done(u, s, Seek(m))
  {
    ProgramOrder(u.g, u.ts);
    SeekedBefore(u.g, u.Ops(), s.pc, n, m);
  }

  /** Where a seek op stands, an input was seeked before exactly if it was resumed before. */
  lemma SeekDoneMeansResumed(u: Setup, s: State, n: nat)
    requires u.Valid() && s.pc < |u.Ops()| && u.Ops()[s.pc] == Seek(n) && n < |u.g| && u.g[n].isInput
    ensures Done(u, s, Seek(n)) <==> Done(u, s, Resume(n))
  {
    ProgramOrder(u.g, u.ts);
    if Done(u, s, Resume(n)) {
      InputsDone(u, s, n, n);
    }
  }

  // ------------------------------------------------------------------ the node threads' steps

  ghost predicate Can(u: Setup, s: State, step: Step)
    requires u.Valid()
  {
    Shaped(u, s) && Enabled(u, s, step)
  }

  /** The threads move no phase on. */
  ghost predicate SameSeek(s: State, t: State) {
    && t.pc == s.pc && t.held == s.held && t.paused == s.paused && t.seeks == s.seeks && t.flushing == s.flushing
    && t.finishConsumer == s.finishConsumer && t.finishProducer == s.finishProducer
  }

  lemma ThreadFrame(u: Setup, s: State, step: Step)
    requires u.Valid() && Can(u, s, step) && !step.Control?
    ensures SameSeek(s, ThreadNext(s, step)) && Shaped(u, ThreadNext(s, step))
  {
    match step { case Put(_) => case _ => }
  }

  /** A thread starts to process only if it has read a clear pause flag. */
  lemma LookMeetsPause(u: Setup, s: State, n: nat)
    requires u.Valid() && Can(u, s, Look(n)) && PauseLaw(u, s)
    ensures Settled(u, s, n) ==> s.paused[n]
  {
    if Settled(u, s, n) {
      DoneAfter(u, s, Lock(n));
      PausedBy(u, s, n);
    }
  }

  lemma ThreadLock(u: Setup, s: State, step: Step)
    requires u.Valid() && Can(u, s, step) && !step.Control? && PauseLaw(u, s) && LockLaw(u, s)
    ensures Shaped(u, ThreadNext(s, step)) && LockLaw(u, ThreadNext(s, step))
  {
    ThreadFrame(u, s, step);
    if step.Look? {
      LookMeetsPause(u, s, step.node);
    }
    match step { case Put(_) => case _ => }
  }

  lemma ClearedMember(u: Setup, s: State, n: nat, e: nat)
    requires u.Valid() && s.pc <= |u.Ops()|
    requires e < |u.g| && u.g[e].producer == Some(n) && Done(u, s, Clear(e))
    ensures Member(u.g, u.ts, n) && EndOf(u.g, u.ts, Wait) <= s.pc
  {
    DoneAfter(u, s, Clear(e));
    MembersClosed(u.g, u.ts, e);
  }

  /** An edge's producer that still processes has been resumed if the edge was cleared. */
  lemma ClearedProducer(u: Setup, s: State, n: nat, e: nat)
    requires u.Valid() && Shaped(u, s) && LockLaw(u, s)
    requires n < |u.g| && e < |u.g| && u.g[e].producer == Some(n) && Processing(s.thread[n]) && Done(u, s, Clear(e))
    ensures Done(u, s, Resume(n)) && s.pc >= EndOf(u.g, u.ts, Finish)
  {
    ClearedMember(u, s, n, e);
    LockedBy(u, s, n);
    DoneAfter(u, s, Resume(n));
  }

  lemma ThreadEdges(u: Setup, s: State, step: Step)
    requires u.Valid() && Can(u, s, step) && !step.Control? && LockLaw(u, s) && EdgeLaw(u, s)
    ensures Shaped(u, ThreadNext(s, step)) && EdgeLaw(u, ThreadNext(s, step))
  {
    ThreadFrame(u, s, step);
    if step.Put? && Done(u, s, Clear(s.thread[step.node].edge)) {
      ClearedProducer(u, s, step.node, s.thread[step.node].edge);
    }
    match step { case Put(_) => case _ => }
  }

  lemma SameFlags(u: Setup, s: State, t: State)
    requires u.Valid() && Shaped(u, s) && Shaped(u, t) && SameSeek(s, t) && FlagLaw(u, s)
    ensures FlagLaw(u, t)
  {
    forall e: nat | e < |u.g|
      ensures FlagsOf(u, t, e)
    {
      assert FlagsOf(u, s, e);
    }
  }

  lemma ThreadKeeps(u: Setup, s: State, step: Step)
    requires u.Valid() && Inv(u, s) && Enabled(u, s, step) && !step.Control?
    ensures Inv(u, Apply(u, s, step))
  {
    ThreadFrame(u, s, step);
    ThreadLock(u, s, step);
    ThreadEdges(u, s, step);
    SameFlags(u, s, ThreadNext(s, step));
  }

  // ------------------------------------------------------------------ the seeking thread's steps

  ghost function Current(u: Setup, s: State): Op
    requires u.Valid() && s.pc < |u.Ops()|
  {
    u.Ops()[s.pc]
  }

  /** The op of a control step, and what is done after it. */
  ghost predicate AtOp(u: Setup, s: State, op: Op)
    requires u.Valid()
  {
    Shaped(u, s) && s.pc < |u.Ops()| && op == Current(u, s) && OpEnabled(u, s, op)
  }

  predicate Advances(s: State, op: Op) {
    op.Clear? && op.edge < |s.edges| ==> s.edges[op.edge] == []
  }

  lemma ControlFrame(u: Setup, s: State, op: Op)
    requires u.Valid() && AtOp(u, s, op)
    ensures Shaped(u, DoOp(u, s, op))
    ensures DoOp(u, s, op).pc == if Advances(s, op) then s.pc + 1 else s.pc
  {
    match op { case Pause(_) => case _ => }
  }

  lemma PrefixGrows(ops: seq<Op>, k: nat, x: Op)
    requires k < |ops|
    ensures x in ops[..k + 1] <==> x in ops[..k] || x == ops[k]
  {
    assert ops[..k + 1] == ops[..k] + [ops[k]];
  }

  lemma ControlDone(u: Setup, s: State, op: Op, x: Op)
    requires u.Valid() && AtOp(u, s, op)
    ensures Shaped(u, DoOp(u, s, op))
    ensures Done(u, DoOp(u, s, op), x) <==> Done(u, s, x) || (Advances(s, op) && x == op)
  {
    ControlFrame(u, s, op);
    PrefixGrows(u.Ops(), s.pc, x);
  }

  lemma ControlPause(u: Setup, s: State, op: Op)
    requires u.Valid() && AtOp(u, s, op) && PauseLaw(u, s)
    ensures Shaped(u, DoOp(u, s, op)) && PauseLaw(u, DoOp(u, s, op))
  {
    var t := DoOp(u, s, op);
    ControlFrame(u, s, op);
    forall n: nat | n < |u.g|
      ensures t.paused[n] <==> Done(u, t, Pause(n)) && !Done(u, t, Resume(n))
    {
      ControlDone(u, s, op, Pause(n));
      ControlDone(u, s, op, Resume(n));
      if op == Pause(n) {
        NotResumedYet(u, s, n);
      }
    }
  }

  lemma NotResumedYet(u: Setup, s: State, n: nat)
    requires u.Valid() && s.pc < |u.Ops()| && u.Ops()[s.pc] == Pause(n)
    ensures !Done(u, s, Resume(n))
  {
    PhaseAt(u, s.pc);
    if Done(u, s, Resume(n)) {
      DoneAfter(u, s, Resume(n));
    }
  }

  lemma ControlLock(u: Setup, s: State, op: Op)
    requires u.Valid() && AtOp(u, s, op) && LockLaw(u, s)
    ensures Shaped(u, DoOp(u, s, op)) && LockLaw(u, DoOp(u, s, op))
  {
    var t := DoOp(u, s, op);
    ControlFrame(u, s, op);
    forall n: nat | n < |u.g| && Processing(t.thread[n])
      ensures !Settled(u, t, n)
    {
      ControlDone(u, s, op, Lock(n));
      ControlDone(u, s, op, Resume(n));
    }
  }

  lemma ControlEdge(u: Setup, s: State, op: Op, e: nat)
    requires u.Valid() && AtOp(u, s, op) && EdgeLaw(u, s) && e < |u.g|
    ensures var t := DoOp(u, s, op);
      && Shaped(u, t)
      && (Drained(u, t, e) ==> t.edges[e] == [])
      && (Done(u, t, Clear(e)) ==>
            forall i :: 0 <= i < |t.edges[e]| ==> t.edges[e][i].stamp >= EndOf(u.g, u.ts, Finish))
  {
    var t := DoOp(u, s, op);
    ControlFrame(u, s, op);
    ControlDone(u, s, op, Clear(e));
    if u.g[e].producer.Some? {
      ControlDone(u, s, op, Resume(u.g[e].producer.value));
    }
    if op == Clear(e) && s.edges[e] != [] {
      assert t.edges[e] == s.edges[e][1..];
    } else {
      assert t.edges[e] == s.edges[e];
    }
  }

  lemma ControlEdges(u: Setup, s: State, op: Op)
    requires u.Valid() && AtOp(u, s, op) && EdgeLaw(u, s)
    ensures Shaped(u, DoOp(u, s, op)) && EdgeLaw(u, DoOp(u, s, op))
  {
    ControlFrame(u, s, op);
    forall e: nat | e < |u.g|
      ensures var t := DoOp(u, s, op);
        && (Drained(u, t, e) ==> t.edges[e] == [])
        && (Done(u, t, Clear(e)) ==>
              forall i :: 0 <= i < |t.edges[e]| ==> t.edges[e][i].stamp >= EndOf(u.g, u.ts, Finish))
    {
      ControlEdge(u, s, op, e);
    }
  }

  /** Where a seek op stands, an input is paused exactly if it has not been seeked yet. */
  lemma SeekMeetsPause(u: Setup, s: State, n: nat)
    requires u.Valid() && AtOp(u, s, Seek(n)) && PauseLaw(u, s) && u.g[n].isInput
    ensures s.paused[n] <==> !Done(u, s, Seek(n))
  {
    PhaseAt(u, s.pc);
    PausedBy(u, s, n);
    SeekDoneMeansResumed(u, s, n);
  }

  lemma ControlSeek(u: Setup, s: State, op: Op)
    requires u.Valid() && AtOp(u, s, op) && PauseLaw(u, s) && SeekLaw(u, s)
    ensures Shaped(u, DoOp(u, s, op)) && SeekLaw(u, DoOp(u, s, op))
  {
    var t := DoOp(u, s, op);
    ControlFrame(u, s, op);
    forall n: nat | n < |u.g|
      ensures t.seeks[n] == if u.g[n].isInput && Done(u, t, Seek(n)) then 1 else 0
    {
      ControlDone(u, s, op, Seek(n));
      if op == Seek(n) && u.g[n].isInput {
        SeekMeetsPause(u, s, n);
      }
    }
  }

  /** Flags are raised before any edge stops flushing. */
  lemma NotStoppedYet(u: Setup, s: State, e: nat)
    requires u.Valid() && s.pc <= |u.Ops()|
    requires s.pc <= EndOf(u.g, u.ts, Wait) || (s.pc < |u.Ops()| && PhaseOf(u.Ops()[s.pc]).Start?)
    ensures !Done(u, s, StopFlush(e))
  {
    EndsOrdered(u);
    if s.pc < |u.Ops()| {
      PhaseAt(u, s.pc);
    }
    if Done(u, s, StopFlush(e)) {
      DoneAfter(u, s, StopFlush(e));
    }
  }

  lemma ControlFlagsOf(u: Setup, s: State, op: Op, e: nat)
    requires u.Valid() && AtOp(u, s, op) && e < |u.g| && FlagsOf(u, s, e)
    ensures Shaped(u, DoOp(u, s, op)) && FlagsOf(u, DoOp(u, s, op), e)
  {
    ControlFrame(u, s, op);
    ControlDone(u, s, op, StartFlush(e));
    ControlDone(u, s, op, FinishConsumer(e));
    ControlDone(u, s, op, FinishProducer(e));
    ControlDone(u, s, op, StopFlush(e));
    if PhaseOf(op).Start? {
      NotStoppedYet(u, s, e);
    }
  }

  lemma ControlFlags(u: Setup, s: State, op: Op)
    requires u.Valid() && AtOp(u, s, op) && FlagLaw(u, s)
    ensures Shaped(u, DoOp(u, s, op)) && FlagLaw(u, DoOp(u, s, op))
  {
    ControlFrame(u, s, op);
    forall e: nat | e < |u.g|
      ensures FlagsOf(u, DoOp(u, s, op), e)
    {
      ControlFlagsOf(u, s, op, e);
    }
  }

  lemma ControlHeld(u: Setup, s: State, op: Op)
    requires u.Valid() && AtOp(u, s, op) && HeldLaw(u, s)
    ensures Shaped(u, DoOp(u, s, op)) && HeldLaw(u, DoOp(u, s, op))
  {
    ControlFrame(u, s, op);
    PairedProgram(u.g, u.ts);
    if s.pc > 0 {
      assert PairedAt(u.Ops(), s.pc - 1);
    }
  }

  lemma ControlKeeps(u: Setup, s: State)
    requires u.Valid() && Inv(u, s) && Enabled(u, s, Control)
    ensures Inv(u, Apply(u, s, Control))
  {
    var op := Current(u, s);
    ControlPause(u, s, op);
    ControlLock(u, s, op);
    ControlEdges(u, s, op);
    ControlSeek(u, s, op);
    ControlFlags(u, s, op);
    ControlHeld(u, s, op);
  }

  least lemma ReachableInv[nat](u: Setup, s: State)
    requires u.Valid() && Reachable(u, s)
    ensures Inv(u, s)
  {
    if !Init(u, s) {
      var r, step :| Shaped(u, r) && Reachable(u, r) && Enabled(u, r, step) && s == Apply(u, r, step);
      ReachableInv(u, r);
      if step.Control? {
        ControlKeeps(u, r);
      } else {
        ThreadKeeps(u, r, step);
      }
    }
  }

  // ------------------------------------------------------------------ main results

  /** Once the wait phase has ended, no node of the seek is processing until it is resumed. */
  lemma NobodyProcessesAfterWait(u: Setup, s: State, n: nat)
    requires u.Valid() && Reachable(u, s) && s.pc <= |u.Ops()| && s.pc >= EndOf(u.g, u.ts, Wait)
    requires n < |u.g| && Member(u.g, u.ts, n) && !Done(u, s, Resume(n)) && n < |s.thread|
    ensures !Processing(s.thread[n])
  {
    ReachableInv(u, s);
    LockedBy(u, s, n);
  }

  /** After the clear phase a flushed edge is empty, and stays empty until its producer is resumed. */
  lemma ClearedEdgesStayEmpty(u: Setup, s: State, e: nat)
    requires u.Valid() && Reachable(u, s) && s.pc <= |u.Ops()| && s.pc >= EndOf(u.g, u.ts, Finish)
    requires e < |u.g| && FlushedEdge(u.g, u.ts, e) && e < |s.edges|
    requires u.g[e].producer.Some? ==> !Done(u, s, Resume(u.g[e].producer.value))
    ensures s.edges[e] == []
  {
    ReachableInv(u, s);
    ClearedBy(u, s, e);
  }

  /** No frame put on a flushed edge before the last phase survives the clear phase. */
  lemma NoOldFrameSurvives(u: Setup, s: State, e: nat, i: nat)
    requires u.Valid() && Reachable(u, s) && s.pc <= |u.Ops()| && s.pc >= EndOf(u.g, u.ts, Finish)
    requires e < |u.g| && FlushedEdge(u.g, u.ts, e) && e < |s.edges| && i < |s.edges[e]|
    ensures s.edges[e][i].stamp >= EndOf(u.g, u.ts, Finish)
  {
    ReachableInv(u, s);
    ClearedBy(u, s, e);
  }

  /** A node of the seek processes again only after every input above it has been seeked, once. */
  lemma ProcessesOnlyAfterSeek(u: Setup, s: State, n: nat, m: nat)
    requires u.Valid() && Reachable(u, s) && s.pc <= |u.Ops()| && s.pc >= EndOf(u.g, u.ts, Wait)
    requires n < |u.g| && n < |s.thread| && Member(u.g, u.ts, n) && InputAbove(u.g, n, m) && m < |s.seeks|
    requires Processing(s.thread[n])
    ensures s.seeks[m] == 1
  {
    ReachableInv(u, s);
    if !Done(u, s, Resume(n)) {
      NobodyProcessesAfterWait(u, s, n);
    }
    InputsDone(u, s, n, m);
  }

  /** When the seek has ended, every input of it was seeked exactly once, however many targets share it. */
  lemma SeekedExactlyOnce(u: Setup, s: State, n: nat)
    requires u.Valid() && Reachable(u, s) && s.pc == |u.Ops()| && n < |u.g| && n < |s.seeks| && n < |s.paused|
    ensures s.seeks[n] == if u.g[n].isInput && Member(u.g, u.ts, n) then 1 else 0
    ensures !s.paused[n]
  {
    ReachableInv(u, s);
    if Member(u.g, u.ts, n) {
      ResumedBy(u, s, n);
      if u.g[n].isInput {
        InputsDone(u, s, n, n);
      }
    } else if Done(u, s, Seek(n)) {
      DoneAfter(u, s, Seek(n));
    } else if Done(u, s, Pause(n)) {
      DoneAfter(u, s, Pause(n));
    }
  }

  /** Through the wait phase the stop requests on a flushed edge stay up. */
  lemma StopsStayUp(u: Setup, s: State, e: nat)
    requires u.Valid() && Shaped(u, s) && FlagLaw(u, s) && e < |u.g| && FlushedEdge(u.g, u.ts, e)
    requires EndOf(u.g, u.ts, Start) <= s.pc <= EndOf(u.g, u.ts, Wait)
    ensures s.finishConsumer[e] && s.finishProducer[e]
  {
    FinishedBy(u, s, e);
    NotStoppedYet(u, s, e);
    assert FlagsOf(u, s, e);
  }

  lemma FlagsDown(u: Setup, s: State, e: nat)
    requires u.Valid() && Shaped(u, s) && FlagLaw(u, s) && e < |u.g| && Done(u, s, StopFlush(e))
    ensures !s.flushing[e] && !s.finishConsumer[e] && !s.finishProducer[e]
  {
    assert FlagsOf(u, s, e);
  }

  lemma StoppedBy(u: Setup, s: State, e: nat)
    requires u.Valid() && EndOf(u.g, u.ts, Finish) <= s.pc <= |u.Ops()| && FlushedEdge(u.g, u.ts, e)
    ensures Done(u, s, StopFlush(e))
  {
    FlushedEdgeOps(u.g, u.ts, e);
    DoneBy(u, s, 2, StopFlush(e));
  }

  lemma NobodyPaused(u: Setup, s: State, n: nat)
    requires u.Valid() && Shaped(u, s) && PauseLaw(u, s) && s.pc == |u.Ops()| && n < |u.g|
    ensures !s.paused[n]
  {
    if Done(u, s, Pause(n)) {
      DoneAfter(u, s, Pause(n));
      ResumedBy(u, s, n);
    }
  }

  lemma NothingHeld(u: Setup, s: State)
    requires u.Valid() && Shaped(u, s) && HeldLaw(u, s) && s.pc == |u.Ops()|
    ensures s.held == None
  {
    PairedProgram(u.g, u.ts);
    if s.pc > 0 {
      assert PairedAt(u.Ops(), s.pc - 1);
    }
  }

  /**
    From the end of the clear phase on no edge of the seek flushes or asks anybody to stop; and after the seek no node
    is paused and no lock is held.
   */
  lemma NothingLeftBehind(u: Setup, s: State)
    requires u.Valid() && Reachable(u, s) && Shaped(u, s) && EndOf(u.g, u.ts, Finish) <= s.pc
    ensures forall e: nat :: e < |u.g| && FlushedEdge(u.g, u.ts, e) ==>
      !s.flushing[e] && !s.finishConsumer[e] && !s.finishProducer[e]
    ensures s.pc == |u.Ops()| ==> s.held == None && forall n: nat :: n < |u.g| ==> !s.paused[n]
  {
    ReachableInv(u, s);
    forall e: nat | e < |u.g| && FlushedEdge(u.g, u.ts, e)
      ensures !s.flushing[e] && !s.finishConsumer[e] && !s.finishProducer[e]
    {
      StoppedBy(u, s, e);
      FlagsDown(u, s, e);
    }
    if s.pc == |u.Ops()| {
      NothingHeld(u, s);
      forall n: nat | n < |u.g|
        ensures !s.paused[n]
      {
        NobodyPaused(u, s, n);
      }
    }
  }

  /** Once its flags are down a frame put on an edge gets there, and a get on it waits for one. */
  lemma PutsGoThrough(u: Setup, s: State, n: nat)
    requires u.Valid() && Shaped(u, s) && n < |u.g| && s.thread[n].PutChecking? && !s.flushing[s.thread[n].edge]
    ensures Enabled(u, s, CheckFlush(n))
    ensures Apply(u, s, CheckFlush(n)).thread[n] == Putting(s.thread[n].edge, s.thread[n].item)
  {
    var step := CheckFlush(n);
    assert Enabled(u, s, step);
  }

  lemma NodesGoIn(u: Setup, s: State, n: nat)
    requires u.Valid() && Shaped(u, s) && n < |u.g| && s.thread[n].Holding? && !s.paused[n]
    ensures Enabled(u, s, Look(n)) && Apply(u, s, Look(n)).thread[n].Inside?
  {
    var step := Look(n);
    assert Enabled(u, s, step);
  }

  lemma NothingStopsThem(u: Setup, s: State, n: nat)
    requires u.Valid() && Shaped(u, s) && n < |u.g|
    ensures s.thread[n].Getting? && !s.finishConsumer[n] ==> !Enabled(u, s, GiveUp(n))
    ensures s.thread[n].Outside? && s.held == None ==> Enabled(u, s, Enter(n))
    ensures s.thread[n].Putting? && !s.finishProducer[s.thread[n].edge] ==> !Enabled(u, s, PutStops(n))
  {
    var give, enter, stops := GiveUp(n), Enter(n), PutStops(n);
    assert s.thread[n].Outside? && s.held == None ==> Enabled(u, s, enter);
    assert Enabled(u, s, give) ==> s.finishConsumer[n];
    assert Enabled(u, s, stops) ==> s.finishProducer[s.thread[n].edge];
  }

  /** So after the seek its nodes work as before: puts go through, gets wait, nobody is kept out. */
  lemma WorksAgain(u: Setup, s: State, n: nat)
    requires u.Valid() && Reachable(u, s) && Shaped(u, s) && s.pc == |u.Ops()| && n < |u.g|
    ensures s.thread[n].PutChecking? && FlushedEdge(u.g, u.ts, s.thread[n].edge) ==>
      Can(u, s, CheckFlush(n)) &&
      Apply(u, s, CheckFlush(n)).thread[n] == Putting(s.thread[n].edge, s.thread[n].item)
    ensures s.thread[n].Getting? && FlushedEdge(u.g, u.ts, n) ==> !Enabled(u, s, GiveUp(n))
    ensures s.thread[n].Putting? && FlushedEdge(u.g, u.ts, s.thread[n].edge) ==> !Enabled(u, s, PutStops(n))
    ensures s.thread[n].Outside? ==> Enabled(u, s, Enter(n))
    ensures s.thread[n].Holding? ==> Can(u, s, Look(n)) && Apply(u, s, Look(n)).thread[n].Inside?
  {
    EndsOrdered(u);
    NothingLeftBehind(u, s);
    NothingStopsThem(u, s, n);
    if s.thread[n].PutChecking? && FlushedEdge(u.g, u.ts, s.thread[n].edge) {
      PutsGoThrough(u, s, n);
    } else if s.thread[n].Holding? {
      NodesGoIn(u, s, n);
    }
  }

  /** The seek touches nothing but its own nodes and edges: the others keep their flags, frames and pauses. */
  lemma OthersUntouched(u: Setup, s: State, n: nat)
    requires u.Valid() && Can(u, s, Control) && n < |u.g| && !Member(u.g, u.ts, n)
    ensures var t := Apply(u, s, Control);
      && Shaped(u, t) && t.paused[n] == s.paused[n] && t.seeks[n] == s.seeks[n] && t.edges[n] == s.edges[n]
      && t.flushing[n] == s.flushing[n] && t.finishConsumer[n] == s.finishConsumer[n]
      && t.finishProducer[n] == s.finishProducer[n]
  {
    PhaseAt(u, s.pc);
    ControlFrame(u, s, Current(u, s));
    match Current(u, s) { case Pause(_) => case _ => }
  }

  /** A frame gets on an edge only by its producer's put, behind the others; the oldest leaves by a get, a drop or the clearing. */
  predicate Delivers(s: State, t: State, step: Step, op: Option<Op>, e: nat)
    requires e < |s.edges| && e < |t.edges|
  {
    if step.Put? && step.node < |s.thread| && s.thread[step.node].Putting? && s.thread[step.node].edge == e then
      t.edges[e] == s.edges[e] + [Frame(s.thread[step.node].item, s.pc)]
    else if step == Get(e) || step == Evict(e) || (op == Some(Clear(e)) && s.edges[e] != []) then
      s.edges[e] != [] && t.edges[e] == s.edges[e][1..]
    else
      t.edges[e] == s.edges[e]
  }

  lemma FramesComeAndGo(u: Setup, s: State, step: Step, e: nat)
    requires u.Valid() && Can(u, s, step) && e < |u.g|
    ensures Shaped(u, Apply(u, s, step))
    ensures Delivers(s, Apply(u, s, step), step, if step.Control? then Some(Current(u, s)) else None, e)
    ensures step.Put? && s.thread[step.node].edge == e ==> u.g[e].producer == Some(step.node)
  {
    if step.Control? {
      ControlFrame(u, s, Current(u, s));
      match Current(u, s) { case Pause(_) => case _ => }
    } else {
      ThreadFrame(u, s, step);
      match step { case Put(_) => case _ => }
    }
  }

  // ------------------------------------------------------------------ a node's thread left to itself

  /** An undisturbed put leaves the item behind the others on the edge, and the thread where it was. */
  lemma SoloPut(u: Setup, s: State, n: nat, e: nat, item: int)
    requires u.Valid() && Can(u, s, BeginPut(n, e, item)) && !s.flushing[e] && |s.edges[e]| < u.capacity
    ensures var a := ThreadNext(s, BeginPut(n, e, item));
      && Can(u, a, CheckFlush(n))
      && var b := ThreadNext(a, CheckFlush(n));
         && Can(u, b, Put(n))
         && ThreadNext(b, Put(n)) == s.(edges := s.edges[e := s.edges[e] + [Frame(item, s.pc)]])
  {
    var a := ThreadNext(s, BeginPut(n, e, item));
    ThreadFrame(u, s, BeginPut(n, e, item));
    assert a.thread[n] == PutChecking(e, item) && a.edges == s.edges;
    var check := CheckFlush(n);
    assert Can(u, a, check);
    ThreadFrame(u, a, check);
    var b := ThreadNext(a, check);
    assert b.thread[n] == Putting(e, item) && b.edges == s.edges;
    var put := Put(n);
    assert Can(u, b, put);
    var c := ThreadNext(b, put);
    assert c.thread == s.thread;
  }

  /** An undisturbed get takes the oldest frame, whatever the flags say. */
  lemma SoloGet(u: Setup, s: State, n: nat)
    requires u.Valid() && Can(u, s, BeginGet(n)) && s.edges[n] != []
    ensures var a := ThreadNext(s, BeginGet(n));
      && Can(u, a, Get(n))
      && ThreadNext(a, Get(n)) == s.(edges := s.edges[n := s.edges[n][1..]])
  {
    var a := ThreadNext(s, BeginGet(n));
    ThreadFrame(u, s, BeginGet(n));
    var get := Get(n);
    assert Can(u, a, get);
    assert ThreadNext(a, get).thread == s.thread;
  }

  /** An undisturbed turn of a node's thread: it processes exactly if the node is not paused, and ends where it began. */
  lemma SoloTurn(u: Setup, s: State, n: nat)
    requires u.Valid() && Can(u, s, Enter(n))
    ensures var a := ThreadNext(s, Enter(n));
      && Can(u, a, Look(n))
      && var b := ThreadNext(a, Look(n));
         && (Processing(b.thread[n]) <==> !s.paused[n])
         && Can(u, b, if s.paused[n] then Skip(n) else Exit(n))
         && ThreadNext(b, if s.paused[n] then Skip(n) else Exit(n)) == s
  {
    var a := ThreadNext(s, Enter(n));
    ThreadFrame(u, s, Enter(n));
    var look := Look(n);
    assert Can(u, a, look);
    ThreadFrame(u, a, look);
    var b := ThreadNext(a, look);
    var off := if s.paused[n] then Skip(n) else Exit(n);
    assert Can(u, b, off);
    assert ThreadNext(b, off).thread == s.thread;
  }

  /** While the seek waits for a node, that node's thread is not stuck on an edge of the seek. */
  lemma WaitingGetsEnd(u: Setup, s: State, n: nat)
    requires u.Valid() && Reachable(u, s) && Shaped(u, s)
    requires EndOf(u.g, u.ts, Start) <= s.pc <= EndOf(u.g, u.ts, Wait)
    requires n < |u.g| && Member(u.g, u.ts, n) && s.thread[n].Getting?
    ensures Enabled(u, s, Get(n)) || Enabled(u, s, GiveUp(n))
  {
    ReachableInv(u, s);
    StopsStayUp(u, s, n);
    if s.edges[n] != [] {
      assert Enabled(u, s, Get(n));
    } else {
      assert Enabled(u, s, GiveUp(n));
    }
  }

  lemma WaitingPutsEnd(u: Setup, s: State, n: nat)
    requires u.Valid() && Reachable(u, s) && Shaped(u, s)
    requires EndOf(u.g, u.ts, Start) <= s.pc <= EndOf(u.g, u.ts, Wait)
    requires n < |u.g| && s.thread[n].Putting? && FlushedEdge(u.g, u.ts, s.thread[n].edge)
    ensures Enabled(u, s, Put(n)) || Enabled(u, s, PutStops(n))
  {
    ReachableInv(u, s);
    StopsStayUp(u, s, s.thread[n].edge);
    if |s.edges[s.thread[n].edge]| < u.capacity {
      assert Enabled(u, s, Put(n));
    } else {
      assert Enabled(u, s, PutStops(n));
    }
  }

  /** The seeking thread waits for nothing but a node's lock. */
  lemma OnlyLocksDelay(u: Setup, s: State)
    requires u.Valid() && Shaped(u, s) && s.pc < |u.Ops()| && !Enabled(u, s, Control)
    ensures Current(u, s).Lock? && Current(u, s).node < |u.g| && !s.thread[Current(u, s).node].Outside?
  {
    PhaseAt(u, s.pc);
    var op := Current(u, s);
    if !op.StartFlush? && !op.FinishConsumer? && !op.FinishProducer? && !op.Clear? && !op.StopFlush? {
      MembersClosed(u.g, u.ts, op.node);
    }
  }
}
