/**
  Infinite runs of the event loop in which a thread whose next action stays possible eventually takes it. The
  loop does not sleep on work or past its deadline, and once it is awake every timer that is due runs.
 */
module EventLoopLiveness {
  import opened EventLoop
  import opened Options
  import opened Timers

  datatype Thread = Loop | Poster(id: nat)

  function NextStep(t: Thread): Step {
    match t case Loop => LoopMoves case Poster(id) => PosterMoves(id)
  }

  ghost predicate StepAt(run: nat -> State, act: nat -> Step, i: nat) {
    Enabled(run(i), act(i)) && run(i + 1) == Apply(run(i), act(i))
  }

  ghost predicate Run(run: nat -> State, act: nat -> Step) {
    Init(run(0)) && forall i: nat :: StepAt(run, act, i)
  }

  ghost predicate TurnAt(run: nat -> State, act: nat -> Step, t: Thread, j: nat) {
    act(j) == NextStep(t) || !Enabled(run(j), NextStep(t))
  }

  ghost predicate FairFor(run: nat -> State, act: nat -> Step, i: nat, t: Thread) {
    exists j: nat :: i <= j && TurnAt(run, act, t, j)
  }

  ghost predicate Fair(run: nat -> State, act: nat -> Step) {
    forall i: nat, t: Thread :: FairFor(run, act, i, t)
  }

  lemma {:induction false} RunInv(run: nat -> State, act: nat -> Step, i: nat)
    requires Run(run, act)
    ensures Inv(run(i))
  {
    if i == 0 {
      InvInit(run(0));
    } else {
      RunInv(run, act, i - 1);
      assert StepAt(run, act, i - 1);
      InvKept(run(i - 1), act(i - 1));
    }
  }

  // ------------------------------------------------------------------ a thread that has work in hand

  /** How far a thread is from signalling the loop or taking the next task itself; 0 when it does neither. */
  function Distance(s: State, id: nat): nat {
    if id !in s.posters then 0
    else
      match s.posters[id]
      case TimerSignal => 0
      case Signal => 1
      case FastSignal => 1
      case Add => 2
      case FastDrain =>
        (match s.drain
         case NotDraining => 3 case Dequeue => 3 case CheckCount => 4 case CheckLocal => 5 case Running => 6 case SubCount => 7)
      case FastAdd => 8
      case FastEnqueue(_) => 9
  }

  predicate Moves(step: Step, id: nat) {
    step == PosterMoves(id) || step == FastStops(id)
  }

  lemma WorkerEnabled(s: State, id: nat)
    requires LockLaw(s) && Distance(s, id) > 0
    ensures Enabled(s, PosterMoves(id))
  {
  }

  /** Nobody else moves a thread along while the loop sleeps. */
  lemma OthersLeaveIt(s: State, step: Step, id: nat)
    requires LockLaw(s) && s.loop.Asleep? && Distance(s, id) > 0 && Enabled(s, step) && !Moves(step, id)
    ensures Distance(Apply(s, step), id) == Distance(s, id)
  {
    match step {
      case PosterMoves(other) =>
        match s.posters[other] { case FastDrain => case _ => }
      case _ =>
    }
  }

  /** Its own moves bring it closer, wake the loop, take a task, or leave the rest to a thread that is closer. */
  lemma ComesCloser(s: State, step: Step, id: nat) returns (other: nat)
    requires LockLaw(s) && CountLaw(s) && s.loop.Asleep? && s.todo != [] && Distance(s, id) > 0
    requires Enabled(s, step) && Moves(step, id)
    ensures var t := Apply(s, step);
      t.wake > 0 || |t.taken| > |s.taken| || 0 < Distance(t, other) < Distance(s, id)
  {
    other := id;
    if step.PosterMoves? && s.posters[id] == FastDrain && s.drain == CheckCount && s.count == 0 {
      NothingCounted(s);
      other :| other in s.posters && Uncounted(s.posters[other]);
    }
    match step {
      case PosterMoves(_) =>
        match s.posters[id] { case FastDrain => match s.drain { case CheckLocal => case _ => } case _ => }
      case _ =>
    }
  }

  lemma TakenGrows(s: State, step: Step)
    requires Enabled(s, step)
    ensures |s.taken| <= |Apply(s, step).taken|
    ensures |Apply(s, step).taken| == |s.taken| && s.todo != [] ==> Apply(s, step).todo != []
  {
    match step {
      case LoopMoves => match s.loop { case Draining => match s.drain { case Dequeue => case _ => } case _ => }
      case PosterMoves(id) =>
        match s.posters[id] { case FastDrain => match s.drain { case Dequeue => case _ => } case _ => }
      case _ =>
    }
  }

  // ------------------------------------------------------------------ the loop does not sleep on work

  /** The loop is awake, or somebody has taken the task. */
  predicate Served(before: State, s: State) {
    !s.loop.Asleep? || |s.taken| > |before.taken|
  }

  lemma {:induction false} FindMove(run: nat -> State, act: nat -> Step, i: nat, k: nat, id: nat) returns (j: nat)
    requires Run(run, act) && i <= k && TurnAt(run, act, Poster(id), k)
    requires run(i).loop.Asleep? && run(i).todo != [] && Distance(run(i), id) > 0
    ensures i <= j && |run(i).taken| <= |run(j).taken|
    ensures Served(run(i), run(j)) ||
      (run(j).todo != [] && Moves(act(j), id) && Distance(run(j), id) == Distance(run(i), id))
    decreases k - i
  {
    assert StepAt(run, act, i);
    RunInv(run, act, i);
    WorkerEnabled(run(i), id);
    if Moves(act(i), id) {
      j := i;
    } else {
      OthersLeaveIt(run(i), act(i), id);
      TakenGrows(run(i), act(i));
      if Served(run(i), run(i + 1)) {
        j := i + 1;
      } else {
        j := FindMove(run, act, i + 1, k, id);
      }
    }
  }

  lemma MoveServes(run: nat -> State, act: nat -> Step, m: nat, id: nat) returns (other: nat)
    requires Run(run, act) && Moves(act(m), id) && Distance(run(m), id) > 0
    requires run(m).loop.Asleep? && run(m).todo != []
    ensures |run(m).taken| <= |run(m + 1).taken|
    ensures run(m + 1).wake > 0 || Served(run(m), run(m + 1)) ||
      (run(m + 1).todo != [] && 0 < Distance(run(m + 1), other) < Distance(run(m), id))
  {
    assert StepAt(run, act, m);
    RunInv(run, act, m);
    other := ComesCloser(run(m), act(m), id);
    TakenGrows(run(m), act(m));
  }

  /** A thread with work in hand ends up waking the loop or taking a task, unless the loop wakes before. */
  lemma {:induction false} WorkerServes(run: nat -> State, act: nat -> Step, i: nat, id: nat) returns (j: nat)
    requires Run(run, act) && Fair(run, act)
    requires run(i).loop.Asleep? && run(i).todo != [] && Distance(run(i), id) > 0
    ensures i <= j && (run(j).wake > 0 || Served(run(i), run(j)))
    decreases Distance(run(i), id)
  {
    assert FairFor(run, act, i, Poster(id));
    var k: nat :| i <= k && TurnAt(run, act, Poster(id), k);
    var m := FindMove(run, act, i, k, id);
    if Served(run(i), run(m)) {
      j := m;
    } else {
      var other := MoveServes(run, act, m, id);
      if run(m + 1).wake > 0 || Served(run(i), run(m + 1)) {
        j := m + 1;
      } else {
        j := WorkerServes(run, act, m + 1, other);
      }
    }
  }

  /** What lets the sleeping loop go on: an unread wake-up, or its deadline. */
  predicate MayWake(s: State) {
    s.loop.Asleep? && (s.wake > 0 || (s.loop.until.Some? && s.now >= s.loop.until.value))
  }

  lemma MayWakeStays(s: State, step: Step)
    requires MayWake(s) && Enabled(s, step)
    ensures !Apply(s, step).loop.Asleep? || MayWake(Apply(s, step))
    ensures step == LoopMoves ==> !Apply(s, step).loop.Asleep?
  {
    match step {
      case PosterMoves(id) => match s.posters[id] { case FastDrain => case _ => }
      case _ =>
    }
  }

  lemma {:induction false} WakesWhenItMay(run: nat -> State, act: nat -> Step, i: nat, k: nat) returns (j: nat)
    requires Run(run, act) && i <= k && TurnAt(run, act, Loop, k) && MayWake(run(i))
    ensures i < j && !run(j).loop.Asleep?
    decreases k - i
  {
    assert StepAt(run, act, i);
    MayWakeStays(run(i), act(i));
    if !run(i + 1).loop.Asleep? {
      j := i + 1;
    } else {
      assert i < k;
      j := WakesWhenItMay(run, act, i + 1, k);
    }
  }

  /** In every fair run, a sleeping loop whose deadline has passed, or with an unread wake-up, leaves its sleep. */
  lemma DeadlineWakes(run: nat -> State, act: nat -> Step, i: nat) returns (j: nat)
    requires Run(run, act) && Fair(run, act) && MayWake(run(i))
    ensures i < j && !run(j).loop.Asleep?
  {
    assert FairFor(run, act, i, Loop);
    var k: nat :| i <= k && TurnAt(run, act, Loop, k);
    j := WakesWhenItMay(run, act, i, k);
  }

  /** In every fair run, a loop that sleeps while work is posted leaves its sleep, or somebody else takes the oldest. */
  lemma WorkWakes(run: nat -> State, act: nat -> Step, i: nat) returns (j: nat)
    requires Run(run, act) && Fair(run, act) && run(i).loop.Asleep? && run(i).todo != []
    ensures i < j && Served(run(i), run(j))
  {
    RunInv(run, act, i);
    var m := i;
    if run(i).wake == 0 {
      var id :| id in run(i).posters && run(i).posters[id] != TimerSignal;
      m := WorkerServes(run, act, i, id);
    }
    if Served(run(i), run(m)) {
      j := m;
    } else {
      j := DeadlineWakes(run, act, m);
    }
  }

  // ------------------------------------------------------------------ due timers run

  /** The loop gets each lock it asks for if that keeps becoming free. */
  ghost predicate LocksFair(run: nat -> State, act: nat -> Step) {
    forall i: nat :: (forall k: nat :: i <= k ==> EnabledLater(run, k)) ==> LoopTurn(run, act, i)
  }

  ghost predicate EnabledLater(run: nat -> State, i: nat) {
    exists j: nat :: i <= j && Enabled(run(j), LoopMoves)
  }

  ghost predicate LoopTurn(run: nat -> State, act: nat -> Step, i: nat) {
    exists j: nat :: i <= j && act(j) == LoopMoves
  }

  /** Every fastExecute() comes to its end: it runs out of work or of time. */
  ghost predicate FastEnds(run: nat -> State) {
    forall i: nat :: EndsAfter(run, i)
  }

  ghost predicate EndsAfter(run: nat -> State, i: nat) {
    exists j: nat :: i <= j && !run(j).busy.FastOwns?
  }

  /** Awake, and on its way to the due timers. */
  predicate OnItsWay(pc: LoopPc) {
    pc.Collect? || pc == ReadWake || pc == LockBusy || pc == RunDue || pc == RunningDue
  }

  /** The loop and its timers are where they were, but that more may be set. */
  predicate Still(s: State, t: State) {
    && t.loop == s.loop && t.due == s.due && t.ran == s.ran && s.now <= t.now
    && forall x :: x in s.scheduled ==> x in t.scheduled
  }

  lemma StillOn(a: State, b: State, c: State)
    requires Still(a, b) && Still(b, c)
    ensures Still(a, c)
  {
  }

  lemma StaysOnce(run: nat -> State, act: nat -> Step, i: nat)
    requires Run(run, act) && OnItsWay(run(i).loop) && act(i) != LoopMoves
    ensures Still(run(i), run(i + 1))
  {
    assert StepAt(run, act, i);
    RunInv(run, act, i);
    LoopStays(run(i), act(i));
  }

  /** Nobody but the loop moves the loop on. */
  lemma LoopStays(s: State, step: Step)
    requires LockLaw(s) && OnItsWay(s.loop) && Enabled(s, step) && step != LoopMoves
    ensures Still(s, Apply(s, step))
  {
    match step {
      case PosterMoves(id) => match s.posters[id] { case FastDrain => match s.drain { case CheckLocal => case _ => } case _ => }
      case HandlerSchedules(at) => InsertKeeps(s.scheduled, Timer(at, s.nextTimer));
      case Schedule(_, at) => InsertKeeps(s.scheduled, Timer(at, s.nextTimer));
      case _ =>
    }
  }

  lemma {:induction false} InsertKeeps(ts: seq<Timer>, t: Timer)
    ensures forall x :: x in ts ==> x in Insert(ts, t)
  {
    var k := InsertPlace(ts, t);
    forall x | x in ts
      ensures x in Insert(ts, t)
    {
      var i :| 0 <= i < |ts| && ts[i] == x;
      assert Insert(ts, t)[if i < k then i else i + 1] == x;
    }
  }

  /** The holder of the timers' lock signals and releases it. */
  lemma {:induction false} TimersLockFreed(run: nat -> State, act: nat -> Step, i: nat, k: nat) returns (j: nat)
    requires Run(run, act) && run(i).timersLock.Some? && i <= k && TurnAt(run, act, Poster(run(i).timersLock.value), k)
    ensures i <= j && run(j).timersLock.None?
    decreases k - i
  {
    assert StepAt(run, act, i);
    RunInv(run, act, i);
    var id := run(i).timersLock.value;
    LockHeld(run(i), act(i));
    if act(i) == PosterMoves(id) {
      j := i + 1;
    } else {
      j := TimersLockFreed(run, act, i + 1, k);
    }
  }

  lemma LockHeld(s: State, step: Step)
    requires LockLaw(s) && s.timersLock.Some? && Enabled(s, step)
    ensures var id := s.timersLock.value;
      && Enabled(s, PosterMoves(id))
      && Apply(s, step).timersLock == if step == PosterMoves(id) then None else s.timersLock
  {
    match step {
      case LoopMoves => match s.loop { case Draining => match s.drain { case CheckLocal => case _ => } case _ => }
      case PosterMoves(id) => match s.posters[id] { case FastDrain => match s.drain { case CheckLocal => case _ => } case _ => }
      case _ =>
    }
  }

  lemma {:induction false} StaysUntil(run: nat -> State, act: nat -> Step, i: nat, k: nat)
    requires Run(run, act) && OnItsWay(run(i).loop) && i <= k && forall j: nat :: i <= j < k ==> act(j) != LoopMoves
    ensures Still(run(i), run(k))
    decreases k - i
  {
    if i < k {
      StaysOnce(run, act, i);
      StaysUntil(run, act, i + 1, k);
      StillOn(run(i), run(i + 1), run(k));
    }
  }

  /** The loop can go on, now or later, as long as it has not. */
  lemma GoesOnLater(run: nat -> State, act: nat -> Step, i: nat, k: nat)
    requires Run(run, act) && Fair(run, act) && FastEnds(run) && OnItsWay(run(i).loop) && i <= k
    requires forall j: nat :: i <= j ==> act(j) != LoopMoves
    ensures EnabledLater(run, k)
  {
    var j := k;
    StaysUntil(run, act, i, k);
    if run(i).loop.Collect? && run(k).timersLock.Some? {
      var t := Poster(run(k).timersLock.value);
      assert FairFor(run, act, k, t);
      var m: nat :| k <= m && TurnAt(run, act, t, m);
      j := TimersLockFreed(run, act, k, m);
    } else if run(i).loop == LockBusy {
      assert EndsAfter(run, k);
      j :| k <= j && !run(j).busy.FastOwns?;
      RunInv(run, act, j);
    }
    StaysUntil(run, act, i, j);
    assert Enabled(run(j), LoopMoves);
  }

  lemma {:induction false} FirstMove(act: nat -> Step, i: nat, k: nat) returns (j: nat)
    requires i <= k && act(k) == LoopMoves
    ensures i <= j <= k && act(j) == LoopMoves && forall m: nat :: i <= m < j ==> act(m) != LoopMoves
    decreases k - i
  {
    if act(i) == LoopMoves {
      j := i;
    } else {
      j := FirstMove(act, i + 1, k);
    }
  }

  /** On its way to the due timers, the loop takes its next action, and is where it was until then. */
  lemma NextMove(run: nat -> State, act: nat -> Step, i: nat) returns (j: nat)
    requires Run(run, act) && Fair(run, act) && LocksFair(run, act) && FastEnds(run) && OnItsWay(run(i).loop)
    ensures i <= j && act(j) == LoopMoves && Enabled(run(j), LoopMoves) && run(j + 1) == LoopNext(run(j))
    ensures Still(run(i), run(j))
  {
    if !LoopTurn(run, act, i) {
      forall k: nat | i <= k
        ensures EnabledLater(run, k)
      {
        GoesOnLater(run, act, i, k);
      }
      assert false;
    }
    var k: nat :| i <= k && act(k) == LoopMoves;
    j := FirstMove(act, i, k);
    StaysUntil(run, act, i, j);
    assert StepAt(run, act, j);
  }

  function Ahead(pc: LoopPc): nat {
    match pc case Collect(_) => 4 case ReadWake => 3 case LockBusy => 2 case RunningDue => 2 case _ => 1
  }

  lemma RunsItOrComesCloser(s: State, p: nat)
    requires OnItsWay(s.loop) && p < |s.due| && Enabled(s, LoopMoves)
    ensures var t := LoopNext(s);
      if s.loop == RunDue && p == 0 then HasRun(t, s.due[0].id)
      else
        && OnItsWay(t.loop)
        && if s.loop == RunDue then p - 1 < |t.due| && t.due[p - 1] == s.due[p]
           else p < |t.due| && t.due[p] == s.due[p] && Ahead(t.loop) < Ahead(s.loop)
  {
    var t := LoopNext(s);
    if s.loop == RunDue {
      assert t.ran[|s.ran|].timer == s.due[0];
    }
    match s.loop { case Collect(_) => case _ => }
  }

  lemma {:induction false} DueRuns(run: nat -> State, act: nat -> Step, i: nat, p: nat) returns (j: nat)
    requires Run(run, act) && Fair(run, act) && LocksFair(run, act) && FastEnds(run)
    requires OnItsWay(run(i).loop) && p < |run(i).due|
    ensures i <= j && HasRun(run(j), run(i).due[p].id)
    decreases p, Ahead(run(i).loop)
  {
    var m := NextMove(run, act, i);
    RunsItOrComesCloser(run(m), p);
    if run(m).loop == RunDue && p == 0 {
      j := m + 1;
    } else if run(m).loop == RunDue {
      j := DueRuns(run, act, m + 1, p - 1);
    } else {
      j := DueRuns(run, act, m + 1, p);
    }
  }

  lemma RunSorted(run: nat -> State, act: nat -> Step, i: nat)
    requires Run(run, act)
    ensures Sorted(run(i).scheduled)
  {
    RunInv(run, act, i);
  }

  lemma CollectsDue(s: State, x: Timer) returns (p: nat)
    requires Sorted(s.scheduled) && s.loop.Collect? && Enabled(s, LoopMoves) && x in s.scheduled && x.at <= s.now
    ensures var t := LoopNext(s); OnItsWay(t.loop) && p < |t.due| && t.due[p] == x
  {
    var k :| 0 <= k < |s.scheduled| && s.scheduled[k] == x;
    DueExactly(s.scheduled, s.now);
    p := |s.due| + k;
  }

  lemma RunAsked(run: nat -> State, act: nat -> Step, i: nat)
    requires Run(run, act)
    ensures AskedLaw(run(i)) && DueAt(run(i).due, run(i).loop)
  {
    RunInv(run, act, i);
  }

  /**
    In every fair run in which locks that keep becoming free are had in the end: once the loop is awake, every
    timer asked for a time that has come by then runs.
   */
  lemma DueTimersRun(run: nat -> State, act: nat -> Step, i: nat, id: nat) returns (j: nat)
    requires Run(run, act) && Fair(run, act) && LocksFair(run, act) && FastEnds(run)
    requires run(i).loop.Collect? && id < |run(i).asked| && run(i).asked[id] <= run(i).now
    ensures i <= j && HasRun(run(j), id)
  {
    RunAsked(run, act, i);
    FindTimer(run(i), id);
    if HasRun(run(i), id) {
      j := i;
    } else {
      var x := Timer(run(i).asked[id], id);
      var m := NextMove(run, act, i);
      RunSorted(run, act, m);
      var p := CollectsDue(run(m), x);
      j := DueRuns(run, act, m + 1, p);
    }
  }

  // ------------------------------------------------------------------ what keeps posted work waiting

  /**
    A handler that hands the loop another task each time keeps it from posted work and timers: the loop's own
    work goes first, and after one round everything but the records is as it was.
   */
  lemma LocalWorkStarves(s: State, x: Task)
    requires s.loop == Draining && s.drain == Running && s.local == []
    ensures Enabled(s, HandlerExecutes(x))
    ensures var a := Apply(s, HandlerExecutes(x));
      Enabled(a, LoopMoves)
      && var b := Apply(a, LoopMoves);
      Enabled(b, LoopMoves) && Apply(b, LoopMoves) == s.(handed := s.handed + [x], ownTaken := s.ownTaken + [x])
  {
    var a := Apply(s, HandlerExecutes(x));
    assert a.local == [x] && a.local[1..] == [];
  }
}
