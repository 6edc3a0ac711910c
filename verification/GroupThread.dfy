/**
  The management thread of a node group left to itself: nobody asks for anything more, no node ends, and creating,
  starting and stopping succeed. From wherever it is, it serves what was asked and goes to sleep, or ends.
 */
module GroupThread {
  import opened GroupRequests
  import opened Options

  /** So many moves lead from one state to another. */
  ghost predicate ChainOf<S(!new)>(next: (S, S) -> bool, s: S, t: S, n: nat) {
    if n == 0 then s == t else exists r :: next(s, r) && ChainOf(next, r, t, n - 1)
  }

  lemma {:induction false} ChainOn<S(!new)>(next: (S, S) -> bool, s: S, t: S, r: S, n: nat, m: nat)
    requires ChainOf(next, s, t, n) && ChainOf(next, t, r, m)
    ensures ChainOf(next, s, r, n + m)
  {
    if n > 0 {
      var a :| next(s, a) && ChainOf(next, a, t, n - 1);
      ChainOn(next, a, t, r, n - 1, m);
    }
  }

  lemma {:induction false} ChainKeeps<S(!new)>(next: (S, S) -> bool, kept: S -> bool, s: S, t: S, n: nat)
    requires ChainOf(next, s, t, n) && kept(s) && forall a, b :: kept(a) && next(a, b) ==> kept(b)
    ensures kept(t)
  {
    if n > 0 {
      var a :| next(s, a) && ChainOf(next, a, t, n - 1);
      ChainKeeps(next, kept, a, t, n - 1);
    }
  }

  lemma {:induction false} ChainWithin<S(!new)>(next: (S, S) -> bool, wider: (S, S) -> bool, s: S, t: S, n: nat)
    requires ChainOf(next, s, t, n) && forall a, b :: next(a, b) ==> wider(a, b)
    ensures ChainOf(wider, s, t, n)
  {
    if n > 0 {
      var a :| next(s, a) && ChainOf(next, a, t, n - 1);
      ChainWithin(next, wider, a, t, n - 1);
    }
  }

  /** The thread's next action, and it succeeds. */
  predicate Succeeds(s: State, t: State) {
    Enabled(s, Manage(Done)) && t == ManageNext(s, Done)
  }

  ghost predicate Works(s: State, t: State) {
    exists n: nat :: ChainOf(Succeeds, s, t, n)
  }

  lemma Thread(s: State, t: State)
    requires Enabled(s, Manage(Done)) && Works(ManageNext(s, Done), t)
    ensures Works(s, t)
  {
    var r := ManageNext(s, Done);
    assert Succeeds(s, r);
    var n: nat :| ChainOf(Succeeds, r, t, n);
    assert ChainOf(Succeeds, s, t, n + 1);
  }

  lemma Stays(s: State)
    ensures Works(s, s)
  {
    assert ChainOf(Succeeds, s, s, 0);
  }

  lemma WorksOn(s: State, t: State, r: State)
    requires Works(s, t) && Works(t, r)
    ensures Works(s, r)
  {
    var n: nat, m: nat :| ChainOf(Succeeds, s, t, n) && ChainOf(Succeeds, t, r, m);
    ChainOn(Succeeds, s, t, r, n, m);
  }

  // ------------------------------------------------------------------ one attempt

  predicate SameBox(s: State, t: State) {
    t.box == s.box && t.unread == s.unread && |t.nodes| == |s.nodes|
  }

  /** A node that is up is left alone. */
  predicate LeftUp(s: State, t: State, k: nat) {
    && t.past.restartRead == s.past.restartRead && |t.past.since| == |s.past.since|
    && (k < |s.nodes| && s.nodes[k] == Up ==>
          k < |t.nodes| && t.nodes[k] == Up && (k < |s.past.since| ==> t.past.since[k] == s.past.since[k]))
  }

  predicate UpTo(nodes: seq<NodeState>, n: nat) {
    forall i :: 0 <= i < |nodes| && i < n ==> nodes[i] == Up
  }

  lemma OneNode(s: State, k: nat) returns (t: State)
    requires s.pc.Attempt? && s.pc.i < |s.nodes| && s.pc.checked
    ensures Works(s, t) && SameBox(s, t) && LeftUp(s, t, k)
    ensures t.pc == Attempt(s.pc.starting, s.pc.i + 1, false) && t.attempt == s.attempt && t.running == s.running
    ensures s.pc.starting && UpTo(s.nodes, s.pc.i) ==> UpTo(t.nodes, s.pc.i + 1)
  {
    t := StartNext(s, Done);
    Stays(t);
    Thread(s, t);
  }

  lemma OneCheck(s: State, k: nat) returns (t: State)
    requires s.pc.Attempt? && s.pc.i < |s.nodes| && !s.pc.checked
    ensures Works(s, t) && SameBox(s, t) && LeftUp(s, t, k) && t.attempt == s.attempt && t.running == s.running
    ensures t.nodes == s.nodes
    ensures t.pc == if s.attempt == s.box.startId then Attempt(s.pc.starting, s.pc.i, true) else Aborting(0)
  {
    t := StartNext(s, Done);
    Stays(t);
    Thread(s, t);
  }

  predicate AttemptEnds(s: State, t: State) {
    t.running == s.running && ((t.pc == Ending && !t.retry) || (t.pc == Aborting(0) && s.attempt != s.box.startId))
  }

  /** An attempt works on every node, or is cancelled; either way it leaves alone what is up. */
  lemma {:induction false} AllNodes(s: State, k: nat) returns (t: State)
    requires s.pc.Attempt?
    ensures Works(s, t) && SameBox(s, t) && LeftUp(s, t, k) && AttemptEnds(s, t)
    ensures t.pc == Ending && UpTo(s.nodes, if s.pc.starting then s.pc.i else 0) ==> AllUp(t.nodes)
    decreases if s.pc.starting then 0 else 1, |s.nodes| - s.pc.i, if s.pc.checked then 0 else 1
  {
    if s.pc.i < |s.nodes| {
      var a;
      if s.pc.checked {
        a := OneNode(s, k);
      } else {
        a := OneCheck(s, k);
      }
      if a.pc.Attempt? {
        t := AllNodes(a, k);
        WorksOn(s, a, t);
      } else {
        t := a;
      }
    } else {
      var a := StartNext(s, Done);
      if s.pc.starting {
        t := a;
        Stays(t);
      } else {
        t := AllNodes(a, k);
      }
      Thread(s, t);
    }
  }

  // ------------------------------------------------------------------ stopping

  lemma {:induction false} AllStop(s: State) returns (t: State)
    requires s.pc.Stopping? && forall i :: 0 <= i < |s.nodes| && i < s.pc.i ==> s.nodes[i] != Up
    ensures Works(s, t) && SameBox(s, t) && NoneUp(t.nodes)
    ensures if s.pc.thenStart then t.pc == Snapshot && t.running == s.running
      else t.pc == Ending && !t.retry && t.running == (s.want != Finish)
    decreases |s.nodes| - s.pc.i
  {
    var a := StopNext(s, Done);
    if s.pc.i < |s.nodes| {
      t := AllStop(a);
    } else {
      t := a;
      Stays(t);
    }
    Thread(s, t);
  }

  /** A start that was given up stops every node again, and is tried anew. */
  lemma {:induction false} AbortStopsAll(s: State) returns (t: State)
    requires s.pc.Aborting? && forall i :: 0 <= i < |s.nodes| && i < s.pc.i ==> s.nodes[i] != Up
    ensures Works(s, t) && SameBox(s, t) && NoneUp(t.nodes) && t.pc == Failed && t.running == s.running
    decreases |s.nodes| - s.pc.i
  {
    var a := AbortNext(s, Done);
    if s.pc.i < |s.nodes| {
      t := AbortStopsAll(a);
    } else {
      t := a;
      Stays(t);
    }
    Thread(s, t);
  }

  // ------------------------------------------------------------------ one request

  /** Where the thread has compared, what is up is left alone by a start. */
  lemma ServesStart(s: State, k: nat) returns (t: State)
    requires s.pc == Comparing && s.want == Started
    ensures Works(s, t) && SameBox(s, t) && LeftUp(s, t, k) && t.pc == Ending && !t.retry && t.running == s.running
    ensures AllUp(t.nodes)
  {
    var a := Dispatch(s);
    if a.pc == Ending {
      t := a;
      Stays(t);
    } else {
      t := Starts(a, k);
    }
    Thread(s, t);
  }

  lemma Starts(s: State, k: nat) returns (t: State)
    requires s.pc == Snapshot
    ensures Works(s, t) && SameBox(s, t) && LeftUp(s, t, k) && t.pc == Ending && !t.retry && t.running == s.running
    ensures AllUp(t.nodes)
  {
    var a := ManageNext(s, Done);
    assert a.pc == Attempt(false, 0, false) && a.attempt == a.box.startId;
    t := AllNodes(a, k);
    Thread(s, t);
  }

  lemma Stops(s: State) returns (t: State)
    requires s.pc == Stopping(0, s.pc.Stopping? && s.pc.thenStart)
    ensures Works(s, t) && SameBox(s, t) && t.pc == Ending && !t.retry
  {
    var a := AllStop(s);
    if a.pc == Snapshot {
      t := Starts(a, 0);
      WorksOn(s, a, t);
    } else {
      t := a;
    }
  }

  lemma ServesRead(s: State) returns (t: State)
    requires s.pc == Comparing && s.want != Empty
    ensures Works(s, t) && SameBox(s, t) && t.pc == Ending && !t.retry
  {
    if s.want == Started {
      t := ServesStart(s, 0);
    } else {
      var a := Dispatch(s);
      if a.pc == Ending {
        t := a;
        Stays(t);
      } else {
        t := Stops(a);
      }
      Thread(s, t);
    }
  }

  lemma ReadsAndServes(s: State) returns (t: State)
    requires s.pc == Reading && s.box.desired != Empty && !s.box.signalling
    ensures Works(s, t) && t.pc == Ending && !t.retry && t.box == Taken(s.box) && !t.unread
  {
    var a := LookNext(s);
    t := ServesRead(a);
    Thread(s, t);
  }

  /** A turn that has ended well: the thread sleeps, or is gone. */
  lemma ToSleep(s: State, k: nat) returns (t: State)
    requires s.pc == Ending && !s.retry && !s.box.signalling
    ensures Works(s, t) && t.pc == (if s.running then Waiting else Exited) && LeftUp(s, t, k)
    ensures t.box == s.box.(inProgress := false) && t.unread == s.unread && t.running == s.running
    ensures t.nodes == s.nodes && t.past == s.past
  {
    var a := LookNext(s);
    if s.running {
      t := LookNext(a);
      Stays(t);
      Thread(a, t);
    } else {
      t := a;
      Stays(t);
    }
    Thread(s, t);
  }

  predicate Finished(s: State) {
    AtRest(s) || s.pc == Exited
  }

  lemma Turn(s: State) returns (t: State)
    requires s.pc == Reading && s.box.desired != Empty && !s.box.signalling
    ensures Works(s, t) && (t.pc == Waiting || t.pc == Exited)
    ensures t.box == Taken(s.box).(inProgress := false)
  {
    var a := ReadsAndServes(s);
    t := ToSleep(a, 0);
    WorksOn(s, a, t);
  }

  lemma FromWaiting(s: State) returns (t: State)
    requires s.pc == Waiting && s.box.desired != Empty && !s.box.signalling
    ensures Works(s, t) && Finished(t)
  {
    if s.box.wake == 0 {
      t := s;
      Stays(t);
    } else {
      t := Turn(LookNext(s));
      Thread(s, t);
    }
  }

  lemma FromReading(s: State) returns (t: State)
    requires s.pc == Reading && s.box.desired != Empty && !s.box.signalling
    ensures Works(s, t) && Finished(t)
  {
    var a := Turn(s);
    if a.pc == Exited {
      t := a;
    } else {
      t := FromWaiting(a);
      WorksOn(s, a, t);
    }
  }

  lemma FromTop(s: State) returns (t: State)
    requires s.pc == Top && s.box.desired != Empty && !s.box.signalling
    ensures Works(s, t) && Finished(t)
  {
    var a := LookNext(s);
    if s.retry {
      t := FromReading(a);
    } else {
      t := FromWaiting(a);
    }
    Thread(s, t);
  }

  lemma FromEnding(s: State) returns (t: State)
    requires s.pc == Ending && s.box.desired != Empty && !s.box.signalling
    ensures Works(s, t) && Finished(t)
  {
    var a := LookNext(s);
    if s.running {
      t := FromTop(a);
    } else {
      t := a;
      Stays(t);
    }
    Thread(s, t);
  }

  lemma FromFailed(s: State) returns (t: State)
    requires s.pc == Failed && s.box.desired != Empty && !s.box.signalling
    ensures Works(s, t) && Finished(t)
  {
    t := FromEnding(LookNext(s));
    Thread(s, t);
  }

  lemma FromAborting(s: State) returns (t: State)
    requires s.pc.Aborting? && s.box.desired != Empty && !s.box.signalling
    ensures Works(s, t) && Finished(t)
    decreases |s.nodes| - s.pc.i
  {
    var a := AbortNext(s, Done);
    if s.pc.i < |s.nodes| {
      t := FromAborting(a);
    } else {
      t := FromFailed(a);
    }
    Thread(s, t);
  }

  lemma FromAttempt(s: State) returns (t: State)
    requires s.pc.Attempt? && s.box.desired != Empty && !s.box.signalling
    ensures Works(s, t) && Finished(t)
  {
    var a := AllNodes(s, 0);
    if a.pc == Ending {
      t := FromEnding(a);
    } else {
      t := FromAborting(a);
    }
    WorksOn(s, a, t);
  }

  lemma FromSnapshot(s: State) returns (t: State)
    requires s.pc == Snapshot && s.box.desired != Empty && !s.box.signalling
    ensures Works(s, t) && Finished(t)
  {
    t := FromAttempt(ManageNext(s, Done));
    Thread(s, t);
  }

  lemma FromStopping(s: State) returns (t: State)
    requires s.pc.Stopping? && NodesDone(s.pc, s.nodes) && s.box.desired != Empty && !s.box.signalling
    ensures Works(s, t) && Finished(t)
  {
    var a := AllStop(s);
    if a.pc == Snapshot {
      t := FromSnapshot(a);
    } else {
      t := FromEnding(a);
    }
    WorksOn(s, a, t);
  }

  lemma FromComparing(s: State) returns (t: State)
    requires s.pc == Comparing && s.box.desired != Empty && !s.box.signalling
    ensures Works(s, t) && Finished(t)
  {
    var a := Dispatch(s);
    if a.pc == Ending {
      t := FromEnding(a);
    } else if a.pc == Snapshot {
      t := FromSnapshot(a);
    } else if a.pc == Failed {
      t := FromFailed(a);
    } else {
      t := FromStopping(a);
    }
    Thread(s, t);
  }

  lemma Finishes(s: State) returns (t: State)
    requires NodesDone(s.pc, s.nodes) && s.box.desired != Empty && !s.box.signalling
    ensures Works(s, t) && Finished(t)
  {
    match s.pc {
      case Top => t := FromTop(s);
      case Waiting => t := FromWaiting(s);
      case Reading => t := FromReading(s);
      case Comparing => t := FromComparing(s);
      case Stopping(_, _) => t := FromStopping(s);
      case Snapshot => t := FromSnapshot(s);
      case Attempt(_, _, _) => t := FromAttempt(s);
      case Aborting(_) => t := FromAborting(s);
      case Failed => t := FromFailed(s);
      case Ending => t := FromEnding(s);
      case Exited => t := s; Stays(t);
    }
  }

  /** A start brings every node up, also one that has ended by itself since. */
  lemma EndedNodeComesBack(s: State, i: nat) returns (t: State)
    requires s.pc == Reading && s.box.desired == Started && s.running && !s.box.signalling && Enabled(s, NodeEnds(i))
    ensures var e := Apply(s, NodeEnds(i));
      !AllUp(e.nodes) && Works(e, t) && t.pc == Waiting && |t.nodes| == |s.nodes| && AllUp(t.nodes)
  {
    var e := Apply(s, NodeEnds(i));
    assert e.nodes[i] != Up;
    var a := LookNext(e);
    var b := ServesStart(a, 0);
    t := ToSleep(b, 0);
    WorksOn(a, b, t);
    Thread(e, t);
  }

  /** A group that already is as it was asked to be is left alone. */
  lemma LeftAlone(s: State) returns (t: State)
    requires s.pc == Reading && s.running && !s.box.signalling && s.nodes != []
    requires (s.box.desired == Started && AllUp(s.nodes)) || (s.box.desired == Stopped && NoneUp(s.nodes))
    ensures Works(s, t) && t.pc == Waiting && !t.unread && t.nodes == s.nodes && t.past.since == s.past.since
  {
    var a := LookNext(s);
    var b := Dispatch(a);
    t := ToSleep(b, 0);
    Thread(a, t);
    Thread(s, t);
  }

  // ------------------------------------------------------------------ main result

  /** What is asked stays the last thing asked. */
  ghost predicate Follows(s: State, t: State) {
    Reachable(t) && t.last == s.last
  }

  lemma FollowsKept(s: State, a: State, b: State)
    requires Follows(s, a) && Succeeds(a, b)
    ensures Follows(s, b)
  {
    OneStep(a, Manage(Done), b);
    LastKept(a);
  }

  lemma LastKept(s: State)
    requires Enabled(s, Manage(Done))
    ensures ManageNext(s, Done).last == s.last
  {
    match s.pc { case Reading => case _ => }
  }

  lemma WorksFollows(s: State, t: State)
    requires Reachable(s) && Works(s, t)
    ensures Follows(s, t)
  {
    var n: nat :| ChainOf(Succeeds, s, t, n);
    forall a, b | Follows(s, a) && Succeeds(a, b)
      ensures Follows(s, b)
    {
      FollowsKept(s, a, b);
    }
    ChainKeeps(Succeeds, x => Follows(s, x), s, t, n);
  }

  lemma ReachableDone(s: State)
    requires Reachable(s)
    ensures NodesDone(s.pc, s.nodes) && (s.box.desired != Empty ==> s.last.Some?)
    ensures s.pc == Exited ==> s.want == Finish && NoneUp(s.nodes)
  {
    ReachableInv(s);
  }

  /**
    Whatever was asked and wherever the thread is: left to itself it carries the last request out and goes to sleep
    with nothing unread, or it has read a shutdown, stopped every node and ended.
   */
  lemma RequestsAreServed(s: State) returns (t: State)
    requires Reachable(s) && s.box.desired != Empty && !s.box.signalling
    ensures Works(s, t) && t.last == s.last && t.last.Some?
    ensures if t.pc == Exited then t.want == Finish && NoneUp(t.nodes)
      else AtRest(t) && !t.unread && CarriedOut(t.last.value, t.nodes)
  {
    ReachableDone(s);
    t := Finishes(s);
    WorksFollows(s, t);
    if t.pc == Exited {
      ReachableDone(t);
    } else {
      NoRequestLost(t);
    }
  }
}
