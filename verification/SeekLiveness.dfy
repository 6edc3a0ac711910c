/**
  Infinite runs of a seek in which every node thread that can go on does, and locks are had in the end: the seek
  does not wait for ever for a node whose process() would return but for the edges of the seek.
 */
module SeekLiveness {
  import opened Options
  import opened SeekProgram
  import opened SeekProtocol

  ghost predicate StepAt(u: Setup, run: nat -> State, act: nat -> Step, i: nat)
    requires u.Valid()
  {
    Can(u, run(i), act(i)) && run(i + 1) == Apply(u, run(i), act(i))
  }

  ghost predicate Run(u: Setup, run: nat -> State, act: nat -> Step)
    requires u.Valid()
  {
    Init(u, run(0)) && forall i: nat :: StepAt(u, run, act, i)
  }

  lemma StepReaches(u: Setup, r: State, step: Step, s: State)
    requires u.Valid() && Can(u, r, step) && Reachable(u, r) && s == Apply(u, r, step)
    ensures Reachable(u, s)
  {
  }

  lemma {:induction false} RunReaches(u: Setup, run: nat -> State, act: nat -> Step, i: nat)
    requires u.Valid() && Run(u, run, act)
    ensures Shaped(u, run(i)) && Reachable(u, run(i))
  {
    assert StepAt(u, run, act, i);
    if i > 0 {
      RunReaches(u, run, act, i - 1);
      assert StepAt(u, run, act, i - 1);
      StepReaches(u, run(i - 1), act(i - 1), run(i));
    }
  }

  // ------------------------------------------------------------------ one thread, apart from the rest

  /** A step of the node's own thread, other than dropping what lies on its flushed edge. */
  predicate Of(step: Step, n: nat) {
    !step.Control? && !step.Evict? && step.node == n
  }

  /** In a get, or in a put on one of these edges. */
  predicate OnEdge(edges: set<nat>, pc: ThreadPc) {
    pc.Getting? || ((pc.PutChecking? || pc.Putting?) && pc.edge in edges)
  }

  /** On the way out of the node, or off such an edge. */
  predicate Leaving(edges: set<nat>, pc: ThreadPc) {
    pc.Holding? || pc.Skipping? || OnEdge(edges, pc)
  }

  /** Where a thread that leaves is next. */
  predicate Left(before: ThreadPc, after: ThreadPc) {
    match before
    case Holding => after == Skipping
    case Skipping => after == Outside
    case Putting(e, x) => after == Inside || after == PutChecking(e, x)
    case _ => after == Inside
  }

  /** A thread that leaves does so at its own turns, and waits at those of others. */
  predicate FlowsAt(pcs: nat -> ThreadPc, own: nat -> bool, edges: set<nat>, k: nat) {
    Leaving(edges, pcs(k)) ==> if own(k) then Left(pcs(k), pcs(k + 1)) else pcs(k + 1) == pcs(k)
  }

  ghost predicate Flows(pcs: nat -> ThreadPc, own: nat -> bool, edges: set<nat>, i: nat) {
    forall k: nat :: i <= k ==> FlowsAt(pcs, own, edges, k)
  }

  /** ... and its turns come. */
  ghost predicate TurnComes(pcs: nat -> ThreadPc, own: nat -> bool, edges: set<nat>, k: nat) {
    exists m: nat :: k <= m && (own(m) || !Leaving(edges, pcs(m)))
  }

  ghost predicate TurnsCome(pcs: nat -> ThreadPc, own: nat -> bool, edges: set<nat>, i: nat) {
    forall k: nat :: i <= k ==> TurnComes(pcs, own, edges, k)
  }

  lemma {:induction false} NextTurn(pcs: nat -> ThreadPc, own: nat -> bool, edges: set<nat>, i: nat, k: nat, m: nat)
      returns (j: nat)
    requires Flows(pcs, own, edges, i) && i <= k <= m && Leaving(edges, pcs(k))
    requires own(m) || !Leaving(edges, pcs(m))
    ensures k <= j && own(j) && pcs(j) == pcs(k)
    decreases m - k
  {
    assert FlowsAt(pcs, own, edges, k);
    if own(k) {
      j := k;
    } else {
      j := NextTurn(pcs, own, edges, i, k + 1, m);
    }
  }

  lemma OwnMove(pcs: nat -> ThreadPc, own: nat -> bool, edges: set<nat>, i: nat, k: nat) returns (j: nat)
    requires Flows(pcs, own, edges, i) && TurnsCome(pcs, own, edges, i) && i <= k && Leaving(edges, pcs(k))
    ensures k < j && Left(pcs(k), pcs(j))
  {
    assert TurnComes(pcs, own, edges, k);
    var m: nat :| k <= m && (own(m) || !Leaving(edges, pcs(m)));
    var l := NextTurn(pcs, own, edges, i, k, m);
    assert FlowsAt(pcs, own, edges, l);
    j := l + 1;
  }

  /** From here on the thread never gets off such an edge. */
  ghost predicate StuckFrom(pcs: nat -> ThreadPc, edges: set<nat>, k: nat) {
    forall m: nat :: k <= m ==> OnEdge(edges, pcs(m))
  }

  lemma NeverStuck(pcs: nat -> ThreadPc, own: nat -> bool, edges: set<nat>, i: nat, k: nat)
    requires Flows(pcs, own, edges, i) && TurnsCome(pcs, own, edges, i) && i <= k
    ensures !StuckFrom(pcs, edges, k)
  {
    if OnEdge(edges, pcs(k)) {
      var j := OwnMove(pcs, own, edges, i, k);
      if OnEdge(edges, pcs(j)) {
        j := OwnMove(pcs, own, edges, i, j);
      }
      assert !OnEdge(edges, pcs(j));
    }
  }

  /** process() returns, unless one of the edges holds it for ever. */
  ghost predicate ReturnsOrSticks(pcs: nat -> ThreadPc, edges: set<nat>, k: nat) {
    exists j: nat :: k <= j && (!Processing(pcs(j)) || StuckFrom(pcs, edges, j))
  }

  lemma ComesOut(pcs: nat -> ThreadPc, own: nat -> bool, edges: set<nat>, i: nat, k: nat) returns (j: nat)
    requires Flows(pcs, own, edges, i) && TurnsCome(pcs, own, edges, i) && i <= k && ReturnsOrSticks(pcs, edges, k)
    ensures k <= j && pcs(j).Outside?
  {
    j :| k <= j && (!Processing(pcs(j)) || StuckFrom(pcs, edges, j));
    NeverStuck(pcs, own, edges, i, j);
    if pcs(j).Holding? {
      j := OwnMove(pcs, own, edges, i, j);
    }
    if pcs(j).Skipping? {
      j := OwnMove(pcs, own, edges, i, j);
    }
  }

  // ------------------------------------------------------------------ what is asked of the threads

  ghost predicate CanGoOn(u: Setup, s: State, n: nat)
    requires u.Valid()
  {
    exists step :: Of(step, n) && Can(u, s, step)
  }

  ghost predicate TurnAt(u: Setup, run: nat -> State, act: nat -> Step, n: nat, j: nat)
    requires u.Valid()
  {
    Of(act(j), n) || !CanGoOn(u, run(j), n)
  }

  ghost predicate FairFor(u: Setup, run: nat -> State, act: nat -> Step, n: nat, i: nat)
    requires u.Valid()
  {
    exists j: nat :: i <= j && TurnAt(u, run, act, n, j)
  }

  /** A thread that can always go on does. */
  ghost predicate ThreadsFair(u: Setup, run: nat -> State, act: nat -> Step)
    requires u.Valid()
  {
    forall n: nat, i: nat :: FairFor(u, run, act, n, i)
  }

  ghost predicate ControlLater(u: Setup, run: nat -> State, i: nat)
    requires u.Valid()
  {
    exists j: nat :: i <= j && Can(u, run(j), Control)
  }

  ghost predicate ControlTurn(act: nat -> Step, i: nat) {
    exists j: nat :: i <= j && act(j) == Control
  }

  /** The seeking thread gets a lock that keeps becoming free. */
  ghost predicate ControlFair(u: Setup, run: nat -> State, act: nat -> Step)
    requires u.Valid()
  {
    forall i: nat :: (forall k: nat :: i <= k ==> ControlLater(u, run, k)) ==> ControlTurn(act, i)
  }

  /** The edges the seek flushes. */
  ghost function SeekEdges(u: Setup): (r: set<nat>)
    requires u.Valid()
    ensures forall e: nat :: e in r <==> e < |u.g| && FlushedEdge(u.g, u.ts, e)
  {
    set e: nat | e < |u.g| && FlushedEdge(u.g, u.ts, e)
  }

  function PcsOf(run: nat -> State, n: nat): nat -> ThreadPc {
    (k: nat) => if n < |run(k).thread| then run(k).thread[n] else Outside
  }

  function OwnOf(act: nat -> Step, n: nat): nat -> bool {
    (k: nat) => Of(act(k), n)
  }

  /** process() of the nodes of the seek returns, unless an edge of the seek holds it for ever. */
  ghost predicate ProcessReturns(u: Setup, run: nat -> State)
    requires u.Valid()
  {
    forall n: nat, k: nat :: Member(u.g, u.ts, n) ==> ReturnsOrSticks(PcsOf(run, n), SeekEdges(u), k)
  }

  // ------------------------------------------------------------------ while the seek waits

  ghost predicate Waits(u: Setup, s: State)
    requires u.Valid()
  {
    Shaped(u, s) && Reachable(u, s) && EndOf(u.g, u.ts, Start) <= s.pc <= EndOf(u.g, u.ts, Wait)
  }

  lemma NotResumed(u: Setup, s: State, n: nat)
    requires u.Valid() && Waits(u, s)
    ensures !Done(u, s, Resume(n))
  {
    EndsOrdered(u);
    if Done(u, s, Resume(n)) {
      DoneAfter(u, s, Resume(n));
    }
  }

  lemma PausesLast(u: Setup, s: State, n: nat)
    requires u.Valid() && Shaped(u, s) && Reachable(u, s) && n < |u.g| && Done(u, s, Pause(n)) && !Done(u, s, Resume(n))
    ensures s.paused[n]
  {
    ReachableInv(u, s);
  }

  lemma StaysPaused(u: Setup, s: State, n: nat)
    requires u.Valid() && Waits(u, s) && Member(u.g, u.ts, n)
    ensures n < |u.g| && s.paused[n]
  {
    MembersClosed(u.g, u.ts, n);
    PausedBy(u, s, n);
    NotResumed(u, s, n);
    PausesLast(u, s, n);
  }

  lemma FlagKept(u: Setup, s: State, e: nat)
    requires u.Valid() && Shaped(u, s) && FlagLaw(u, s) && e < |u.g|
    requires Done(u, s, StartFlush(e)) && !Done(u, s, StopFlush(e))
    ensures s.flushing[e]
  {
    assert FlagsOf(u, s, e);
  }

  lemma FlushStaysUp(u: Setup, s: State, e: nat)
    requires u.Valid() && Waits(u, s) && FlushedEdge(u.g, u.ts, e)
    ensures s.flushing[e]
  {
    ReachableInv(u, s);
    FlushedEdgeOps(u.g, u.ts, e);
    DoneBy(u, s, 0, StartFlush(e));
    NotStoppedYet(u, s, e);
    FlagKept(u, s, e);
  }

  lemma CanLeave(u: Setup, s: State, n: nat)
    requires u.Valid() && Waits(u, s) && Member(u.g, u.ts, n) && n < |u.g| && Leaving(SeekEdges(u), s.thread[n])
    ensures CanGoOn(u, s, n)
  {
    if s.thread[n].Holding? {
      assert Of(Look(n), n) && Can(u, s, Look(n));
    } else if s.thread[n].Skipping? {
      assert Of(Skip(n), n) && Can(u, s, Skip(n));
    } else if s.thread[n].Getting? {
      WaitingGetsEnd(u, s, n);
      assert Of(Get(n), n) && Of(GiveUp(n), n);
      assert Can(u, s, Get(n)) || Can(u, s, GiveUp(n));
    } else if s.thread[n].PutChecking? {
      assert Of(CheckFlush(n), n) && Can(u, s, CheckFlush(n));
    } else {
      WaitingPutsEnd(u, s, n);
      assert Of(Put(n), n) && Of(PutStops(n), n);
      assert Can(u, s, Put(n)) || Can(u, s, PutStops(n));
    }
  }

  lemma OwnStep(u: Setup, s: State, step: Step, n: nat)
    requires u.Valid() && Waits(u, s) && Member(u.g, u.ts, n) && n < |u.g| && Leaving(SeekEdges(u), s.thread[n])
    requires Of(step, n) && Can(u, s, step)
    ensures n < |Apply(u, s, step).thread| && Left(s.thread[n], Apply(u, s, step).thread[n])
  {
    StaysPaused(u, s, n);
    EnabledIsAble(u, s, step);
    if s.thread[n].PutChecking? {
      FlushStaysUp(u, s, s.thread[n].edge);
    }
    match step { case Put(_) => case _ => }
  }

  lemma OthersStep(u: Setup, s: State, step: Step, n: nat)
    requires u.Valid() && Can(u, s, step) && !step.Control? && !Of(step, n) && n < |s.thread|
    ensures n < |Apply(u, s, step).thread| && Apply(u, s, step).thread[n] == s.thread[n]
  {
    EnabledIsAble(u, s, step);
    match step { case Put(_) => case _ => }
  }

  lemma KeepsPlace(u: Setup, s: State, step: Step)
    requires u.Valid() && Can(u, s, step) && !step.Control?
    ensures Apply(u, s, step).pc == s.pc
  {
    ThreadFrame(u, s, step);
  }

  ghost predicate Still(act: nat -> Step, i: nat) {
    forall j: nat :: i <= j ==> act(j) != Control
  }

  lemma {:induction false} SamePlace(u: Setup, run: nat -> State, act: nat -> Step, i: nat, k: nat)
    requires u.Valid() && Run(u, run, act) && i <= k && forall m: nat :: i <= m < k ==> act(m) != Control
    ensures run(k).pc == run(i).pc
    decreases k - i
  {
    if i < k {
      SamePlace(u, run, act, i, k - 1);
      assert StepAt(u, run, act, k - 1);
      KeepsPlace(u, run(k - 1), act(k - 1));
    }
  }

  lemma StillWaits(u: Setup, run: nat -> State, act: nat -> Step, i: nat, k: nat)
    requires u.Valid() && Run(u, run, act) && Waits(u, run(i)) && Still(act, i) && i <= k
    ensures Waits(u, run(k)) && run(k).pc == run(i).pc
  {
    SamePlace(u, run, act, i, k);
    RunReaches(u, run, act, k);
  }

  lemma MemberFlowsAt(u: Setup, run: nat -> State, act: nat -> Step, k: nat, n: nat)
    requires u.Valid() && StepAt(u, run, act, k) && act(k) != Control && Waits(u, run(k))
    requires Member(u.g, u.ts, n) && n < |u.g|
    ensures FlowsAt(PcsOf(run, n), OwnOf(act, n), SeekEdges(u), k)
  {
    if Leaving(SeekEdges(u), run(k).thread[n]) {
      if Of(act(k), n) {
        OwnStep(u, run(k), act(k), n);
      } else {
        OthersStep(u, run(k), act(k), n);
      }
    }
  }

  lemma MemberFlows(u: Setup, run: nat -> State, act: nat -> Step, i: nat, n: nat)
    requires u.Valid() && Run(u, run, act) && Waits(u, run(i)) && Still(act, i) && Member(u.g, u.ts, n) && n < |u.g|
    ensures Flows(PcsOf(run, n), OwnOf(act, n), SeekEdges(u), i)
  {
    forall k: nat | i <= k
      ensures FlowsAt(PcsOf(run, n), OwnOf(act, n), SeekEdges(u), k)
    {
      StillWaits(u, run, act, i, k);
      assert StepAt(u, run, act, k);
      MemberFlowsAt(u, run, act, k, n);
    }
  }

  lemma MemberTurnComes(u: Setup, run: nat -> State, act: nat -> Step, i: nat, k: nat, n: nat)
    requires u.Valid() && Run(u, run, act) && FairFor(u, run, act, n, k) && Waits(u, run(i)) && Still(act, i) && i <= k
    requires Member(u.g, u.ts, n) && n < |u.g|
    ensures TurnComes(PcsOf(run, n), OwnOf(act, n), SeekEdges(u), k)
  {
    var m: nat :| k <= m && TurnAt(u, run, act, n, m);
    StillWaits(u, run, act, i, m);
    var pcs, own := PcsOf(run, n), OwnOf(act, n);
    if Leaving(SeekEdges(u), run(m).thread[n]) {
      CanLeave(u, run(m), n);
      assert own(m);
    } else {
      assert !Leaving(SeekEdges(u), pcs(m));
    }
  }

  /** The thread of a node the seek waits for comes out of the node. */
  lemma MemberComesOut(u: Setup, run: nat -> State, act: nat -> Step, i: nat, k: nat, n: nat) returns (j: nat)
    requires u.Valid() && Run(u, run, act) && ThreadsFair(u, run, act) && ProcessReturns(u, run)
    requires Waits(u, run(i)) && Still(act, i) && i <= k && Member(u.g, u.ts, n) && n < |u.g|
    ensures k <= j && (n < |run(j).thread| ==> run(j).thread[n].Outside?)
  {
    MemberFlows(u, run, act, i, n);
    forall m: nat | i <= m
      ensures TurnComes(PcsOf(run, n), OwnOf(act, n), SeekEdges(u), m)
    {
      assert FairFor(u, run, act, n, m);
      MemberTurnComes(u, run, act, i, m, n);
    }
    assert ReturnsOrSticks(PcsOf(run, n), SeekEdges(u), k);
    j := ComesOut(PcsOf(run, n), OwnOf(act, n), SeekEdges(u), i, k);
  }

  // ------------------------------------------------------------------ the wait phase ends

  lemma WaitsForMember(u: Setup, s: State)
    requires u.Valid() && Waits(u, s) && s.pc < EndOf(u.g, u.ts, Wait) && !Can(u, s, Control)
    ensures s.pc < |u.Ops()| && Current(u, s).Lock?
    ensures Member(u.g, u.ts, Current(u, s).node) && Current(u, s).node < |u.g|
  {
    EndsOrdered(u);
    OnlyLocksDelay(u, s);
    PhaseAt(u, s.pc);
  }

  lemma FreeToGo(u: Setup, s: State, t: State)
    requires u.Valid() && Shaped(u, s) && Shaped(u, t) && t.pc == s.pc < |u.Ops()| && Current(u, s).Lock?
    requires Current(u, s).node < |u.g| && t.thread[Current(u, s).node].Outside?
    ensures Can(u, t, Control)
  {
  }

  lemma GoesOnLater(u: Setup, run: nat -> State, act: nat -> Step, i: nat, k: nat)
    requires u.Valid() && Run(u, run, act) && ThreadsFair(u, run, act) && ProcessReturns(u, run)
    requires Waits(u, run(i)) && run(i).pc < EndOf(u.g, u.ts, Wait) && Still(act, i) && i <= k
    ensures ControlLater(u, run, k)
  {
    StillWaits(u, run, act, i, k);
    if !Can(u, run(k), Control) {
      WaitsForMember(u, run(k));
      var j := MemberComesOut(u, run, act, i, k, Current(u, run(k)).node);
      StillWaits(u, run, act, i, j);
      FreeToGo(u, run(k), run(j));
    }
  }

  lemma {:induction false} FirstControl(act: nat -> Step, i: nat, k: nat) returns (j: nat)
    requires i <= k && act(k) == Control
    ensures i <= j <= k && act(j) == Control && forall m: nat :: i <= m < j ==> act(m) != Control
    decreases k - i
  {
    if act(i) == Control {
      j := i;
    } else {
      j := FirstControl(act, i + 1, k);
    }
  }

  lemma MovesOn(u: Setup, s: State)
    requires u.Valid() && Can(u, s, Control) && s.pc < EndOf(u.g, u.ts, Wait)
    ensures Apply(u, s, Control).pc == s.pc + 1
  {
    EndsOrdered(u);
    PhaseAt(u, s.pc);
  }

  /** The seeking thread has a turn. */
  lemma HasTurn(u: Setup, run: nat -> State, act: nat -> Step, i: nat)
    requires u.Valid() && Run(u, run, act) && ThreadsFair(u, run, act) && ControlFair(u, run, act) && ProcessReturns(u, run)
    requires Waits(u, run(i)) && run(i).pc < EndOf(u.g, u.ts, Wait)
    ensures ControlTurn(act, i)
  {
    if !ControlTurn(act, i) {
      forall k: nat | i <= k
        ensures ControlLater(u, run, k)
      {
        GoesOnLater(u, run, act, i, k);
      }
    }
  }

  /** The seeking thread takes its next action. */
  lemma Advances(u: Setup, run: nat -> State, act: nat -> Step, i: nat) returns (j: nat)
    requires u.Valid() && Run(u, run, act) && ThreadsFair(u, run, act) && ControlFair(u, run, act) && ProcessReturns(u, run)
    requires Waits(u, run(i)) && run(i).pc < EndOf(u.g, u.ts, Wait)
    ensures i < j && run(j).pc == run(i).pc + 1
  {
    HasTurn(u, run, act, i);
    var k: nat :| i <= k && act(k) == Control;
    var m := FirstControl(act, i, k);
    SamePlace(u, run, act, i, m);
    assert StepAt(u, run, act, m);
    MovesOn(u, run(m));
    j := m + 1;
  }

  /** In every fair run the seek gets hold of every node it waits for, however many there are. */
  lemma {:induction false} WaitPhaseEnds(u: Setup, run: nat -> State, act: nat -> Step, i: nat) returns (j: nat)
    requires u.Valid() && Run(u, run, act) && ThreadsFair(u, run, act) && ControlFair(u, run, act) && ProcessReturns(u, run)
    requires EndOf(u.g, u.ts, Start) <= run(i).pc <= EndOf(u.g, u.ts, Wait)
    ensures i <= j && run(j).pc == EndOf(u.g, u.ts, Wait)
    decreases EndOf(u.g, u.ts, Wait) - run(i).pc
  {
    if run(i).pc == EndOf(u.g, u.ts, Wait) {
      j := i;
    } else {
      RunReaches(u, run, act, i);
      var m := Advances(u, run, act, i);
      j := WaitPhaseEnds(u, run, act, m);
    }
  }
}
