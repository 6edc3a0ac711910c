/**
  What a restart of a node group comes to: every node is stopped before any is started again, so what is up
  afterwards came up since the restart was read, unless stopping one of them failed with a node still up. The
  thread then goes on as for a start, which leaves such nodes alone.
 */
module GroupRestarts {
  import opened GroupRequests
  import opened GroupThread
  import opened Options

  /** The node is up, and has been since before the last restart was read. */
  predicate Stale(s: State, k: nat) {
    k < |s.nodes| && k < |s.past.since| && s.nodes[k] == Up && s.past.since[k] < s.past.restartRead
  }

  /** A restart has been read, and the nodes are not all stopped yet. */
  predicate Pending(s: State) {
    (s.pc == Comparing && s.want == Restart) || (s.pc.Stopping? && s.pc.thenStart)
  }

  // ------------------------------------------------------------------ what every step keeps

  predicate Counted(s: State) {
    && |s.past.since| == |s.nodes| && s.past.restartRead <= s.past.readings && s.past.lastAt <= s.past.readings
    && (forall i :: 0 <= i < |s.past.since| ==> s.past.since[i] <= s.past.readings)
    && (!s.unread && s.last == Some(Restart) ==> s.past.restartRead > s.past.lastAt)
  }

  /** Nothing is started again before everything was stopped. */
  predicate DownFirst(want: Want, pc: Pc, nodes: seq<NodeState>) {
    want == Restart ==>
      && (pc == Snapshot || (pc.Attempt? && !pc.starting) ==> NoneUp(nodes))
      && (pc.Attempt? && pc.starting ==> forall i :: pc.i <= i < |nodes| ==> nodes[i] != Up)
  }

  ghost predicate Renewed(s: State) {
    if Pending(s) then !s.past.leftUp && forall k: nat :: k < |s.nodes| && s.nodes[k] == Up ==> Stale(s, k)
    else s.past.leftUp || forall k: nat :: !Stale(s, k)
  }

  ghost predicate RestartLaw(s: State) {
    Counted(s) && DownFirst(s.want, s.pc, s.nodes) && Renewed(s)
  }

  lemma RestartLooks(s: State)
    requires Inv(s) && RestartLaw(s) && Looks(s.pc) && Enabled(s, Manage(Done))
    ensures RestartLaw(LookNext(s))
  {
    if s.pc != Reading || s.box.desired != Restart {
      assert forall k: nat :: Stale(LookNext(s), k) <==> Stale(s, k);
    }
    match s.pc { case Reading => case _ => }
  }

  lemma RestartDispatched(s: State)
    requires Inv(s) && RestartLaw(s) && s.pc == Comparing
    ensures RestartLaw(Dispatch(s))
  {
    assert forall k: nat :: Stale(Dispatch(s), k) <==> Stale(s, k);
    match s.want { case Started => case _ => }
  }

  lemma RestartStopsOne(s: State)
    requires Inv(s) && RestartLaw(s) && s.pc.Stopping? && s.pc.i < |s.nodes|
    ensures RestartLaw(StopNext(s, Done))
  {
    assert forall k: nat :: Stale(StopNext(s, Done), k) ==> Stale(s, k);
  }

  lemma RestartStops(s: State, o: Outcome)
    requires Inv(s) && RestartLaw(s) && s.pc.Stopping?
    ensures RestartLaw(StopNext(s, o))
  {
    if s.pc.i < |s.nodes| && o != Fails {
      RestartStopsOne(s);
    } else {
      assert forall k: nat :: Stale(StopNext(s, o), k) <==> Stale(s, k);
    }
  }

  lemma RestartAbortsOne(s: State, o: Outcome)
    requires Inv(s) && RestartLaw(s) && s.pc.Aborting? && s.pc.i < |s.nodes|
    ensures RestartLaw(AbortNext(s, o))
  {
    assert forall k: nat :: Stale(AbortNext(s, o), k) ==> Stale(s, k);
  }

  lemma RestartAborts(s: State, o: Outcome)
    requires Inv(s) && RestartLaw(s) && s.pc.Aborting?
    ensures RestartLaw(AbortNext(s, o))
  {
    if s.pc.i < |s.nodes| {
      RestartAbortsOne(s, o);
    } else {
      assert forall k: nat :: Stale(AbortNext(s, o), k) <==> Stale(s, k);
    }
  }

  /** A node that comes up now is not stale. */
  lemma NotStaleNow(s: State, t: State, i: nat, n: NodeState)
    requires Counted(s) && i < |s.nodes| && !Pending(s)
    requires t.nodes == s.nodes[i := n]
    requires t.past == CameUp(s.past, i, s.nodes[i], n)
    ensures forall k: nat :: Stale(t, k) ==> Stale(s, k)
  {
  }

  lemma RestartWorks(s: State, o: Outcome)
    requires Inv(s) && RestartLaw(s) && s.pc.Attempt? && s.pc.i < |s.nodes| && s.pc.checked && o != Fails
    ensures RestartLaw(StartNext(s, o))
  {
    var i, t := s.pc.i, StartNext(s, o);
    var n := if s.pc.starting then Started1(s.nodes[i], o) else Created1(s.nodes[i], o);
    assert t.nodes == s.nodes[i := n] && t.pc == Attempt(s.pc.starting, i + 1, false);
    NotStaleNow(s, t, i, n);
    assert Counted(t);
    if s.pc.starting { } else { assert n == Up ==> s.nodes[i] == Up; }
  }

  lemma RestartStarts(s: State, o: Outcome)
    requires Inv(s) && RestartLaw(s) && s.pc.Attempt?
    ensures RestartLaw(StartNext(s, o))
  {
    if s.pc.i < |s.nodes| && s.pc.checked && o != Fails {
      RestartWorks(s, o);
    } else {
      var t := StartNext(s, o);
      assert t.nodes == s.nodes && t.past == s.past;
      assert forall k: nat :: Stale(t, k) <==> Stale(s, k);
    }
  }

  lemma RestartSnapshot(s: State, o: Outcome)
    requires Inv(s) && RestartLaw(s) && s.pc == Snapshot
    ensures RestartLaw(ManageNext(s, o))
  {
    assert forall k: nat :: Stale(ManageNext(s, o), k) ==> Stale(s, k);
  }

  lemma RestartManaged(s: State, o: Outcome)
    requires Inv(s) && RestartLaw(s) && Enabled(s, Manage(o))
    ensures RestartLaw(ManageNext(s, o))
  {
    if Looks(s.pc) {
      RestartLooks(s);
    } else if s.pc == Comparing {
      RestartDispatched(s);
    } else if s.pc.Stopping? {
      RestartStops(s, o);
    } else if s.pc.Aborting? {
      RestartAborts(s, o);
    } else if s.pc.Attempt? {
      RestartStarts(s, o);
    } else {
      RestartSnapshot(s, o);
    }
  }

  lemma RestartOther(s: State, step: Step)
    requires Inv(s) && RestartLaw(s) && Enabled(s, step) && !step.Manage?
    ensures RestartLaw(Apply(s, step))
  {
    assert forall k: nat :: Stale(Apply(s, step), k) ==> Stale(s, k);
    match step { case Request(w, _) => match w { case Restart => case _ => } case _ => }
  }

  lemma RestartKept(s: State, step: Step)
    requires Inv(s) && RestartLaw(s) && Enabled(s, step)
    ensures RestartLaw(Apply(s, step))
  {
    if step.Manage? {
      RestartManaged(s, step.outcome);
    } else {
      RestartOther(s, step);
    }
  }

  least lemma ReachableRestart[nat](s: State)
    requires Reachable(s)
    ensures RestartLaw(s)
  {
    if !Init(s) {
      var r, step :| Reachable(r) && Enabled(r, step) && s == Apply(r, step);
      ReachableRestart(r);
      ReachableInv(r);
      RestartKept(r, step);
    }
  }

  // ------------------------------------------------------------------ main results

  /** A restart that is about to start the nodes has stopped them all, and none comes up while they are created. */
  lemma RestartStopsFirst(s: State)
    requires Reachable(s) && s.want == Restart && (s.pc == Snapshot || (s.pc.Attempt? && !s.pc.starting))
    ensures NoneUp(s.nodes)
  {
    ReachableRestart(s);
  }

  /**
    Once a restart accepted last has been served, it was read after it was accepted, and every node that is up came up
    since it was read, unless stopping failed in it with a node up.
   */
  lemma RestartRestartsAll(s: State, k: nat)
    requires Reachable(s) && AtRest(s) && s.last == Some(Restart)
    ensures s.past.restartRead > s.past.lastAt && |s.past.since| == |s.nodes|
    ensures !s.past.leftUp && k < |s.nodes| && s.nodes[k] == Up ==> s.past.since[k] >= s.past.restartRead
    ensures k < |s.nodes| ==> s.nodes[k] == Up || s.nodes[k] == Ended || s.nodes[k] == Absent
  {
    ReachableInv(s);
    ReachableRestart(s);
    NoRequestLost(s);
    assert !s.past.leftUp ==> !Stale(s, k);
  }

  // ------------------------------------------------------------------ when stopping fails

  /** The thread's next action, whether it succeeds or fails. */
  ghost predicate Moved(s: State, t: State) {
    exists o :: Enabled(s, Manage(o)) && t == ManageNext(s, o)
  }

  /** The management thread alone, with nobody asking for anything and no node ending, gets from s to t. */
  ghost predicate Leads(s: State, t: State) {
    exists n: nat :: ChainOf(Moved, s, t, n)
  }

  lemma WorksLeads(s: State, t: State)
    requires Works(s, t)
    ensures Leads(s, t)
  {
    var n: nat :| ChainOf(Succeeds, s, t, n);
    forall a, b | Succeeds(a, b)
      ensures Moved(a, b)
    {
      assert Enabled(a, Manage(Done)) && b == ManageNext(a, Done);
    }
    ChainWithin(Succeeds, Moved, s, t, n);
  }

  /** Serving a start, and nothing newer was asked. */
  ghost predicate AsStart(s: State) {
    Reachable(s) && Plain(s)
  }

  lemma AsStartKept(s: State, t: State)
    requires AsStart(s) && Moved(s, t)
    ensures AsStart(t)
  {
    var o :| Enabled(s, Manage(o)) && t == ManageNext(s, o);
    OneStep(s, Manage(o), t);
    ReachableInv(s);
    PlainStart(s, o);
  }

  predicate Plain(s: State) {
    s.box.desired == Started && !Pending(s) && !s.past.leftUp
  }

  lemma PlainLooks(s: State)
    requires Plain(s) && Looks(s.pc) && Enabled(s, Manage(Done))
    ensures Plain(LookNext(s))
  {
    match s.pc { case Top => case _ => }
  }

  lemma PlainDispatched(s: State)
    requires Plain(s) && s.pc == Comparing
    ensures Plain(Dispatch(s))
  {
    match s.want { case Started => case _ => }
  }

  lemma PlainStarts(s: State, o: Outcome)
    requires Plain(s) && s.pc.Attempt?
    ensures Plain(StartNext(s, o))
  {
    if s.pc.i < |s.nodes| && s.pc.checked && o != Fails { } else { }
  }

  lemma PlainStart(s: State, o: Outcome)
    requires Plain(s) && Enabled(s, Manage(o))
    ensures Plain(ManageNext(s, o))
  {
    if Looks(s.pc) {
      PlainLooks(s);
    } else if s.pc == Comparing {
      PlainDispatched(s);
    } else if s.pc.Attempt? {
      PlainStarts(s, o);
    }
  }

  /** As long as nothing is asked, no node becomes stale. */
  lemma NeverStaleAgain(s: State, t: State)
    requires Leads(s, t) && AsStart(s)
    ensures AsStart(t)
  {
    forall a, b | AsStart(a) && Moved(a, b)
      ensures AsStart(b)
    {
      AsStartKept(a, b);
    }
    var n: nat :| ChainOf(Moved, s, t, n);
    ChainKeeps(Moved, AsStart, s, t, n);
  }

  /** A start leaves a stale node stale. */
  lemma StartLeavesStale(s: State, k: nat) returns (t: State)
    requires s.pc == Reading && s.box.desired == Started && !s.box.signalling && s.running
    ensures Works(s, t) && t.pc == Waiting && t.box == Taken(s.box).(inProgress := false) && t.running
    ensures Stale(s, k) ==> Stale(t, k)
  {
    var a := LookNext(s);
    var b := ServesStart(a, k);
    t := ToSleep(b, k);
    WorksOn(a, b, t);
    Thread(s, t);
  }

  lemma ToRest(s: State, k: nat) returns (t: State)
    requires s.pc == Waiting && s.box.desired == Started && !s.box.signalling && s.running
    ensures Works(s, t) && AtRest(t) && (Stale(s, k) ==> Stale(t, k))
  {
    if s.box.wake == 0 {
      t := s;
      Stays(t);
    } else {
      t := StartLeavesStale(LookNext(s), k);
      Thread(s, t);
    }
  }

  lemma AfterFailure(s: State, k: nat) returns (t: State)
    requires s.pc == Failed && s.box.desired == Started && !s.box.signalling && s.running && Stale(s, k)
    ensures Works(s, t) && AtRest(t) && Stale(t, k)
  {
    var a := LookNext(s);
    var b := LookNext(a);
    var c := LookNext(b);
    assert c.pc == Reading;
    var d := StartLeavesStale(c, k);
    t := ToRest(d, k);
    WorksOn(c, d, t);
    Thread(b, t);
    Thread(a, t);
    Thread(s, t);
  }

  /** The thread can come to rest with a node up that the restart did not touch. */
  ghost predicate MayStayStale(s: State) {
    exists t, k :: Leads(s, t) && AtRest(t) && Stale(t, k)
  }

  /**
    Where stopping a node fails in a restart and nothing newer was asked: the restart can be over with some node
    never restarted exactly if a node was still up.
   */
  lemma FailedStopSkips(s: State)
    requires Reachable(s) && s.pc.Stopping? && s.pc.thenStart && s.pc.i < |s.nodes| && !s.unread && !s.box.signalling
    ensures MayStayStale(Apply(s, Manage(Fails))) <==> !NoneUp(s.nodes)
  {
    ReachableInv(s);
    ReachableRestart(s);
    var f := Apply(s, Manage(Fails));
    OneStep(s, Manage(Fails), f);
    if NoneUp(s.nodes) {
      forall t, k | Leads(f, t) && AtRest(t)
        ensures !Stale(t, k)
      {
        NeverStaleAgain(f, t);
        ReachableRestart(t);
      }
    } else {
      var k: nat :| k < |s.nodes| && s.nodes[k] == Up;
      assert Stale(s, k) && Stale(f, k);
      var t := AfterFailure(f, k);
      WorksLeads(f, t);
    }
  }

  /** The group of one node of StopBeforeSnapshotHappens, in a start nobody cancels and then a restart. */
  function InStart(pc: Pc, node: NodeState): State {
    var s := Asked(Started, 1, 0, Snapshot, Started, false);
    s.(pc := pc, nodes := [node], attempt := 1, cancelled := false,
       past := if node == Up then s.past.(since := [1]) else s.past)
  }

  lemma Next(pc: Pc, node: NodeState, after: Pc, now: NodeState)
    requires Reachable(InStart(pc, node)) && pc.Attempt? && StartNext(InStart(pc, node), Done) == InStart(after, now)
    ensures Reachable(InStart(after, now))
  {
    OneStep(InStart(pc, node), Manage(Done), InStart(after, now));
  }

  lemma AttemptBegins()
    ensures Reachable(InStart(Attempt(false, 0, false), Down))
  {
    var s0 := StartPosted();
    var s1 := StartRead(s0);
    OneStep(s1, Manage(Done), InStart(Attempt(false, 0, false), Down));
  }

  lemma NodeCreated()
    ensures Reachable(InStart(Attempt(true, 0, false), Created))
  {
    AttemptBegins();
    Next(Attempt(false, 0, false), Down, Attempt(false, 0, true), Down);
    Next(Attempt(false, 0, true), Down, Attempt(false, 1, false), Created);
    Next(Attempt(false, 1, false), Created, Attempt(true, 0, false), Created);
  }

  lemma NodeChecked()
    ensures Reachable(InStart(Attempt(true, 0, true), Created))
  {
    NodeCreated();
    Next(Attempt(true, 0, false), Created, Attempt(true, 0, true), Created);
  }

  lemma NodeComesUp(s: State)
    requires s == InStart(Attempt(true, 0, true), Created)
    ensures StartNext(s, Done) == InStart(Attempt(true, 1, false), Up)
  {
    assert s.nodes[0 := Up] == [Up];
    assert CameUp(s.past, 0, Created, Up).since == [1];
  }

  lemma NodeUp()
    ensures Reachable(InStart(Attempt(true, 1, false), Up))
  {
    NodeChecked();
    NodeComesUp(InStart(Attempt(true, 0, true), Created));
    Next(Attempt(true, 0, true), Created, Attempt(true, 1, false), Up);
  }

  lemma NodeStarted() returns (s: State)
    ensures Reachable(s) && s == InStart(Ending, Up)
  {
    NodeUp();
    Next(Attempt(true, 1, false), Up, Ending, Up);
    s := InStart(Ending, Up);
  }

  function InRestart(box: Mailbox, pc: Pc, want: Want, unread: bool): State {
    var s := InStart(Ending, Up);
    s.(box := box, pc := pc, want := want, unread := unread, last := Some(Restart),
       past := if unread then s.past.(lastAt := 1) else Past(2, 1, 2, [1], false))
  }

  lemma RestartPosted() returns (s: State)
    ensures Reachable(s) && s == InRestart(Mailbox(Restart, 2, false, false, 0), Reading, Started, true)
  {
    var s0 := NodeStarted();
    var s1 := LookNext(s0);
    assert s1.pc == Top && s1.box == Mailbox(Started, 1, false, false, 0);
    OneStep(s0, Manage(Done), s1);
    OneStep(s1, Request(Restart, false), InRestart(Mailbox(Restart, 2, false, true, 0), Top, Started, true));
    OneStep(InRestart(Mailbox(Restart, 2, false, true, 0), Top, Started, true), Signal,
            InRestart(Mailbox(Restart, 2, false, false, 1), Top, Started, true));
    OneStep(InRestart(Mailbox(Restart, 2, false, false, 1), Top, Started, true), Manage(Done),
            InRestart(Mailbox(Restart, 2, false, false, 1), Waiting, Started, true));
    s := InRestart(Mailbox(Restart, 2, false, false, 0), Reading, Started, true);
    OneStep(InRestart(Mailbox(Restart, 2, false, false, 1), Waiting, Started, true), Manage(Done), s);
  }

  /** A restart about to stop the one node of a group, which is up: if that fails, the restart can end without it. */
  lemma FailedStopHappens() returns (s: State)
    ensures Reachable(s) && s.pc == Stopping(0, true) && s.nodes == [Up] && !s.unread && !s.box.signalling
    ensures MayStayStale(Apply(s, Manage(Fails)))
  {
    var s0 := RestartPosted();
    var s1 := InRestart(Mailbox(Started, 2, true, false, 0), Comparing, Restart, false);
    OneStep(s0, Manage(Done), s1);
    s := InRestart(Mailbox(Started, 2, true, false, 0), Stopping(0, true), Restart, false);
    OneStep(s1, Manage(Done), s);
    assert s.nodes[0] == Up;
    FailedStopSkips(s);
  }
}
