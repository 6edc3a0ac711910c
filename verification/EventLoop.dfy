/**
  The event loop's thread against any number of threads that post work, run work themselves
  (fastExecute) or set timers, with handlers that hand the loop more work. Every queue operation,
  counter update, eventfd write and read, and every section under a lock is one step.
 */
module EventLoop {
  import opened Options
  import opened Timers

  type Task = int

  datatype LoopPc =
    | Top
    | Computed(timeout: Option<int>, at: int)
    | Asleep(until: Option<int>, computed: int, entered: int)
    | Collect(readable: bool)      // epoll_wait returned; `readable`: the wake-up descriptor is ready
    | ReadWake
    | LockBusy
    | RunDue
    | RunningDue                   // inside the handler of a due timer
    | Draining                     // inside executeSingleFromToDo(), until it finds nothing

  /** executeSingleFromToDo(), run by whichever thread holds the busy lock. */
  datatype DrainPc = NotDraining | CheckLocal | CheckCount | Dequeue | SubCount | Running

  datatype PosterPc =
    | Add                          // execute(): enqueued, not counted yet
    | Signal
    | TimerSignal                  // schedule(): the new first timer is in, the lock still held
    | FastEnqueue(task: Task)      // fastExecute() with the busy lock
    | FastAdd
    | FastDrain
    | FastSignal                   // out of time: signals, then releases the lock

  datatype Owner = Nobody | LoopOwns | FastOwns(id: nat)

  datatype Ran = Ran(timer: Timer, time: int, batch: nat)

  datatype State = State(
    now: int,
    loop: LoopPc,
    drain: DrainPc,
    busy: Owner,
    timersLock: Option<nat>,
    posters: map<nat, PosterPc>,
    todo: seq<Task>,
    count: int,
    local: seq<Task>,
    wake: nat,
    scheduled: seq<Timer>,
    nextTimer: nat,
    due: seq<Timer>,
    posted: seq<Task>,
    taken: seq<Task>,
    handed: seq<Task>,             // what handlers gave the loop, and of that what it has taken
    ownTaken: seq<Task>,
    asked: seq<int>,               // the times schedule() was given, by timer number
    ran: seq<Ran>,
    batch: nat)

  predicate Init(s: State) {
    && s.loop == Top && s.drain == NotDraining && s.busy == Nobody && s.timersLock == None && s.posters == map[]
    && s.todo == [] && s.count == 0 && s.local == [] && s.wake == 0
    && s.scheduled == [] && s.nextTimer == 0 && s.due == []
    && s.posted == [] && s.taken == [] && s.handed == [] && s.ownTaken == [] && s.asked == [] && s.ran == [] && s.batch == 0
  }

  // ------------------------------------------------------------------ steps

  datatype Step =
    | Tick(time: int)
    | LoopMoves
    | LoopInterrupted                        // epoll_wait fails with EINTR
    | LoopOtherReady                         // another descriptor became readable
    | HandlerExecutes(task: Task)            // execute() and schedule() on the loop's own thread
    | HandlerSchedules(at: int)
    | Post(id: nat, task: Task)
    | FastLock(id: nat, task: Task)
    | Schedule(id: nat, at: int)
    | PosterMoves(id: nat)
    | FastStops(id: nat)                     // over its time limit after a task

  predicate InHandler(s: State) {
    s.loop == RunningDue || (s.loop == Draining && s.drain == Running)
  }

  predicate Enabled(s: State, step: Step) {
    match step
    case Tick(t) => t > s.now
    case LoopMoves =>
      (match s.loop
       case Top => s.timersLock == None
       case Asleep(until, _, _) => s.wake > 0 || (until.Some? && s.now >= until.value)
       case Collect(_) => s.timersLock == None
       case LockBusy => s.busy == Nobody
       case Draining => s.drain != NotDraining
       case _ => true)
    case LoopInterrupted => s.loop.Asleep?
    case LoopOtherReady => s.loop.Asleep?
    case HandlerExecutes(_) => InHandler(s)
    case HandlerSchedules(_) => InHandler(s) && s.timersLock == None
    case Post(id, _) => id !in s.posters
    case FastLock(id, _) => id !in s.posters && s.busy == Nobody
    case Schedule(id, _) => id !in s.posters && s.timersLock == None
    case PosterMoves(id) => id in s.posters && (s.posters[id] == FastDrain ==> s.drain != NotDraining)
    case FastStops(id) => id in s.posters && s.posters[id] == FastDrain && s.drain == Running
  }

  /** The timeout handed to epoll_wait: until the first timer, nothing if it is overdue, -1 without one. */
  function Timeout(scheduled: seq<Timer>, now: int): Option<int> {
    if scheduled == [] then None else Some(if scheduled[0].at < now then 0 else scheduled[0].at - now)
  }

  function LoopNext(s: State): State
    requires Enabled(s, LoopMoves)
  {
    match s.loop
    case Top => s.(loop := Computed(Timeout(s.scheduled, s.now), s.now))
    case Computed(t, at) => s.(loop := Asleep(if t.None? then None else Some(s.now + t.value), at, s.now))
    case Asleep(_, _, _) => s.(loop := Collect(s.wake > 0))
    case Collect(readable) =>
      var n := DueCount(s.scheduled, s.now);
      s.(due := s.due + s.scheduled[..n], scheduled := s.scheduled[n..], batch := s.batch + 1,
         loop := if readable then ReadWake else LockBusy)
    case ReadWake => s.(wake := 0, loop := LockBusy)
    case LockBusy => s.(busy := LoopOwns, loop := RunDue)
    case RunDue =>
      if s.due == [] then s.(loop := Draining, drain := CheckLocal)
      else s.(ran := s.ran + [Ran(s.due[0], s.now, s.batch)], due := s.due[1..], loop := RunningDue)
    case RunningDue => s.(loop := RunDue)
    case Draining =>
      var t := DrainNext(s);
      if t.drain == NotDraining then t.(busy := Nobody, loop := Top) else t
  }

  function DrainNext(s: State): State {
    match s.drain
    case NotDraining => s
    case CheckLocal =>
      if s.local != [] then s.(local := s.local[1..], ownTaken := s.ownTaken + [s.local[0]], drain := Running)
      else s.(drain := CheckCount)
    case CheckCount => s.(drain := if s.count == 0 then NotDraining else Dequeue)
    case Dequeue =>
      if s.todo == [] then s.(drain := NotDraining)
      else s.(todo := s.todo[1..], taken := s.taken + [s.todo[0]], drain := SubCount)
    case SubCount => s.(count := s.count - 1, drain := Running)
    case Running => s.(drain := CheckLocal)
  }

  function PosterNext(s: State, id: nat): State
    requires id in s.posters
  {
    match s.posters[id]
    case Add => s.(count := s.count + 1, posters := s.posters[id := Signal])
    case Signal => s.(wake := s.wake + 1, posters := s.posters - {id})
    case TimerSignal => s.(wake := s.wake + 1, timersLock := None, posters := s.posters - {id})
    case FastEnqueue(x) => s.(todo := s.todo + [x], posted := s.posted + [x], posters := s.posters[id := FastAdd])
    case FastAdd => s.(count := s.count + 1, posters := s.posters[id := FastDrain], drain := CheckLocal)
    case FastDrain =>
      var t := DrainNext(s);
      if t.drain == NotDraining then t.(busy := Nobody, posters := s.posters - {id}) else t
    case FastSignal => s.(wake := s.wake + 1, busy := Nobody, posters := s.posters - {id})
  }

  function SetTimer(s: State, at: int): State {
    s.(scheduled := Insert(s.scheduled, Timer(at, s.nextTimer)), nextTimer := s.nextTimer + 1)
  }

  function Apply(s: State, step: Step): State
    requires Enabled(s, step)
  {
    match step
    case Tick(t) => s.(now := t)
    case LoopMoves => LoopNext(s)
    case LoopInterrupted => s.(loop := Top)
    case LoopOtherReady => s.(loop := Collect(s.wake > 0))
    case HandlerExecutes(x) => s.(local := s.local + [x], handed := s.handed + [x])
    case HandlerSchedules(at) => SetTimer(s, at).(asked := s.asked + [at])
    case Post(id, x) => s.(todo := s.todo + [x], posted := s.posted + [x], posters := s.posters[id := Add])
    case FastLock(id, x) => s.(busy := FastOwns(id), posters := s.posters[id := FastEnqueue(x)])
    case Schedule(id, at) =>
      var first := s.scheduled == [] || s.scheduled[0].at > at;
      var t := SetTimer(s, at).(asked := s.asked + [at]);
      if first then t.(timersLock := Some(id), posters := s.posters[id := TimerSignal]) else t
    case PosterMoves(id) => PosterNext(s, id)
    case FastStops(id) => s.(drain := NotDraining, posters := s.posters[id := FastSignal])
  }

  /** Every state some interleaving leads to. */
  least predicate Reachable[nat](s: State) {
    Init(s) || exists r, step :: Reachable(r) && Enabled(r, step) && s == Apply(r, step)
  }

  // ------------------------------------------------------------------ the locks

  predicate FastPc(pc: PosterPc) {
    pc.FastEnqueue? || pc == FastAdd || pc == FastDrain || pc == FastSignal
  }

  predicate LoopBusy(pc: LoopPc) {
    pc == RunDue || pc == RunningDue || pc == Draining
  }

  /** Who holds which lock, and that only a holder of the busy lock drains. */
  ghost predicate LockLaw(s: State) {
    && (s.busy == LoopOwns <==> LoopBusy(s.loop))
    && (forall id :: id in s.posters && FastPc(s.posters[id]) ==> s.busy == FastOwns(id))
    && (s.busy.FastOwns? ==> s.busy.id in s.posters && FastPc(s.posters[s.busy.id]))
    && (s.drain != NotDraining <==>
          s.loop == Draining || (s.busy.FastOwns? && s.posters[s.busy.id] == FastDrain))
    && (forall id :: id in s.posters && s.posters[id] == TimerSignal ==> s.timersLock == Some(id))
    && (s.timersLock.Some? ==> s.timersLock.value in s.posters && s.posters[s.timersLock.value] == TimerSignal)
    && (!LoopBusy(s.loop) || s.drain == CheckCount || s.drain == Dequeue ==> s.local == [])
  }

  lemma LockLoop(s: State)
    requires LockLaw(s) && Enabled(s, LoopMoves)
    ensures LockLaw(LoopNext(s))
  {
    match s.loop {
      case Draining => match s.drain { case CheckLocal => case _ => }
      case _ =>
    }
  }

  lemma LockPoster(s: State, id: nat)
    requires LockLaw(s) && Enabled(s, PosterMoves(id))
    ensures LockLaw(PosterNext(s, id))
  {
    match s.posters[id] {
      case FastDrain => match s.drain { case CheckLocal => case _ => }
      case _ =>
    }
  }

  lemma LockOther(s: State, step: Step)
    requires LockLaw(s) && Enabled(s, step) && !step.LoopMoves? && !step.PosterMoves?
    ensures LockLaw(Apply(s, step))
  {
    match step { case Post(_, _) => case _ => }
  }

  // ------------------------------------------------------------------ the count that trails the queue

  predicate Uncounted(pc: PosterPc) {
    pc == Add || pc == FastAdd
  }

  /** The threads that have enqueued and not yet counted it. */
  function UncountedBy(posters: map<nat, PosterPc>): set<nat> {
    set id | id in posters && Uncounted(posters[id])
  }

  predicate CountLaw(s: State) {
    && s.count == |s.todo| - |UncountedBy(s.posters)| + (if s.drain == SubCount then 1 else 0)
    && 0 <= s.count && (s.drain == Dequeue || s.drain == SubCount ==> 1 <= s.count)
  }

  function One(b: bool): nat { if b then 1 else 0 }

  predicate IsUncounted(posters: map<nat, PosterPc>, id: nat) {
    id in posters && Uncounted(posters[id])
  }

  /** One thread's change of place, in numbers. */
  lemma UncountedWithout(posters: map<nat, PosterPc>, id: nat)
    ensures |UncountedBy(posters - {id})| == |UncountedBy(posters)| - One(IsUncounted(posters, id))
  {
    assert UncountedBy(posters - {id}) == UncountedBy(posters) - {id};
    if IsUncounted(posters, id) {
      assert UncountedBy(posters) == UncountedBy(posters - {id}) + {id};
    } else {
      assert UncountedBy(posters - {id}) == UncountedBy(posters);
    }
  }

  lemma UncountedAfter(posters: map<nat, PosterPc>, id: nat, pc: PosterPc)
    ensures |UncountedBy(posters[id := pc])| == |UncountedBy(posters)| - One(IsUncounted(posters, id)) + One(Uncounted(pc))
    ensures |UncountedBy(posters - {id})| == |UncountedBy(posters)| - One(IsUncounted(posters, id))
  {
    UncountedWithout(posters, id);
    UncountedWithout(posters[id := pc], id);
    assert posters[id := pc] - {id} == posters - {id};
  }

  lemma CountLoop(s: State)
    requires LockLaw(s) && CountLaw(s) && Enabled(s, LoopMoves)
    ensures CountLaw(LoopNext(s))
  {
    match s.loop {
      case Draining => match s.drain { case CheckLocal => case _ => }
      case _ =>
    }
  }

  lemma CountPoster(s: State, id: nat)
    requires LockLaw(s) && CountLaw(s) && Enabled(s, PosterMoves(id))
    ensures CountLaw(PosterNext(s, id))
  {
    UncountedAfter(s.posters, id, Signal);
    UncountedAfter(s.posters, id, FastAdd);
    UncountedAfter(s.posters, id, FastDrain);
    match s.posters[id] {
      case FastDrain => match s.drain { case CheckLocal => case _ => }
      case _ =>
    }
  }

  lemma CountOther(s: State, step: Step)
    requires LockLaw(s) && CountLaw(s) && Enabled(s, step) && !step.LoopMoves? && !step.PosterMoves?
    ensures CountLaw(Apply(s, step))
  {
    match step {
      case Post(id, _) => UncountedAfter(s.posters, id, Add);
      case FastLock(id, x) => UncountedAfter(s.posters, id, FastEnqueue(x));
      case Schedule(id, _) => UncountedAfter(s.posters, id, TimerSignal);
      case FastStops(id) => UncountedAfter(s.posters, id, FastSignal);
      case _ =>
    }
  }

  // ------------------------------------------------------------------ work is never forgotten

  /** A thread that will count, signal or drain what is in the queue. */
  ghost predicate WorkerPending(posters: map<nat, PosterPc>) {
    exists id :: id in posters && posters[id] != TimerSignal
  }

  predicate PastDrain(pc: LoopPc) {
    pc == Top || pc.Computed? || pc.Asleep?
  }

  ghost predicate WakeLaw(s: State) {
    PastDrain(s.loop) && s.todo != [] ==> s.wake > 0 || WorkerPending(s.posters)
  }

  /** An empty count leaves in the queue only what somebody is about to count. */
  lemma NothingCounted(s: State)
    requires CountLaw(s) && s.drain != SubCount && s.count == 0 && s.todo != []
    ensures exists id :: id in s.posters && Uncounted(s.posters[id])
  {
    var id :| id in UncountedBy(s.posters);
  }

  lemma PendingKept(posters: map<nat, PosterPc>, id: nat, other: nat, pc: PosterPc)
    requires other in posters && posters[other] != TimerSignal
    ensures other != id || pc != TimerSignal ==> WorkerPending(posters[id := pc])
    ensures other != id ==> WorkerPending(posters - {id})
  {
    if other != id || pc != TimerSignal {
      assert other in posters[id := pc] && posters[id := pc][other] != TimerSignal;
    }
    if other != id {
      assert other in posters - {id} && (posters - {id})[other] != TimerSignal;
    }
  }

  lemma WakeLoop(s: State)
    requires LockLaw(s) && CountLaw(s) && WakeLaw(s) && Enabled(s, LoopMoves)
    ensures WakeLaw(LoopNext(s))
  {
    if s.loop == Draining && s.drain == CheckCount && s.count == 0 && s.todo != [] {
      NothingCounted(s);
    }
    match s.loop {
      case Draining => match s.drain { case CheckLocal => case _ => }
      case _ =>
    }
  }

  lemma WakePoster(s: State, id: nat)
    requires LockLaw(s) && CountLaw(s) && WakeLaw(s) && Enabled(s, PosterMoves(id))
    ensures WakeLaw(PosterNext(s, id))
  {
    var t := PosterNext(s, id);
    if id in t.posters && t.posters[id] != TimerSignal {
      assert WorkerPending(t.posters);
    } else if s.posters[id] == FastDrain {
      match s.drain {
        case CheckCount =>
          if s.todo != [] {
            NothingCounted(s);
            var other :| other in s.posters && Uncounted(s.posters[other]);
            PendingKept(s.posters, id, other, Add);
          }
        case _ =>
      }
    } else {
      assert t.wake > 0;
    }
  }

  lemma WakeOther(s: State, step: Step)
    requires LockLaw(s) && WakeLaw(s) && Enabled(s, step) && !step.LoopMoves? && !step.PosterMoves?
    ensures WakeLaw(Apply(s, step))
  {
    var t := Apply(s, step);
    if (step.Post? || step.FastLock? || step.FastStops?) {
      assert step.id in t.posters && t.posters[step.id] != TimerSignal;
    } else if step.Schedule? && WorkerPending(s.posters) {
      var other :| other in s.posters && s.posters[other] != TimerSignal;
      PendingKept(s.posters, step.id, other, TimerSignal);
    }
    match step { case Post(_, _) => case _ => }
  }

  // ------------------------------------------------------------------ the sleep deadline

  function Later(a: int, b: int): int { if a < b then b else a }

  /**
    Without an unread wake-up, and nobody between setting a new first timer and signalling it, the
    loop sleeps no longer than to its earliest timer, but for the time it spent between computing
    the timeout and going to sleep.
   */
  predicate SleepLaw(s: State) {
    s.scheduled != [] && s.wake == 0 && s.timersLock.None? ==>
      match s.loop
      case Computed(timeout, at) => timeout.Some? && at + timeout.value <= Later(at, s.scheduled[0].at)
      case Asleep(until, computed, entered) =>
        until.Some? && until.value - (entered - computed) <= Later(computed, s.scheduled[0].at)
      case _ => true
  }

  lemma SleepLoop(s: State)
    requires SleepLaw(s) && Enabled(s, LoopMoves)
    ensures SleepLaw(LoopNext(s))
  {
    match s.loop {
      case Draining => match s.drain { case CheckLocal => case _ => }
      case _ =>
    }
  }

  lemma SleepPoster(s: State, id: nat)
    requires LockLaw(s) && SleepLaw(s) && Enabled(s, PosterMoves(id))
    ensures SleepLaw(PosterNext(s, id))
  {
    match s.posters[id] {
      case FastDrain => match s.drain { case CheckLocal => case _ => }
      case _ =>
    }
  }

  lemma SleepOther(s: State, step: Step)
    requires SleepLaw(s) && Enabled(s, step) && !step.LoopMoves? && !step.PosterMoves?
    ensures SleepLaw(Apply(s, step))
  {
    if step.HandlerSchedules? || step.Schedule? {
      InsertHead(s.scheduled, Timer(step.at, s.nextTimer));
    }
    match step { case Post(_, _) => case _ => }
  }

  /** ... nor any shorter: the timeout was counted to the timer that was the earliest then, and none has left since. */
  predicate RestLaw(s: State) {
    match s.loop
    case Computed(timeout, at) =>
      timeout.Some? ==> s.scheduled != [] && at + timeout.value >= Later(at, s.scheduled[0].at)
    case Asleep(until, computed, entered) =>
      until.Some? ==> s.scheduled != [] && until.value - (entered - computed) >= Later(computed, s.scheduled[0].at)
    case _ => true
  }

  lemma RestLoop(s: State)
    requires RestLaw(s) && Enabled(s, LoopMoves)
    ensures RestLaw(LoopNext(s))
  {
    match s.loop {
      case Draining => match s.drain { case CheckLocal => case _ => }
      case _ =>
    }
  }

  lemma RestPoster(s: State, id: nat)
    requires RestLaw(s) && Enabled(s, PosterMoves(id))
    ensures RestLaw(PosterNext(s, id))
  {
    match s.posters[id] {
      case FastDrain => match s.drain { case CheckLocal => case _ => }
      case _ =>
    }
  }

  lemma RestOther(s: State, step: Step)
    requires RestLaw(s) && Enabled(s, step) && !step.LoopMoves? && !step.PosterMoves?
    ensures RestLaw(Apply(s, step))
  {
    if step.HandlerSchedules? || step.Schedule? {
      InsertHead(s.scheduled, Timer(step.at, s.nextTimer));
    }
    match step { case Post(_, _) => case _ => }
  }

  // ------------------------------------------------------------------ timers run once, in order, on time

  function RanTimers(ran: seq<Ran>): (r: seq<Timer>)
    ensures |r| == |ran| && forall i :: 0 <= i < |ran| ==> r[i] == ran[i].timer
  {
    seq(|ran|, i requires 0 <= i < |ran| => ran[i].timer)
  }

  /** Every timer ever set, in the three places it passes through. */
  function AllTimers(s: State): seq<Timer> {
    RanTimers(s.ran) + s.due + s.scheduled
  }

  predicate Distinct(ts: seq<Timer>, next: nat) {
    && (forall i :: 0 <= i < |ts| ==> ts[i].id < next)
    && (forall i, j :: 0 <= i < j < |ts| ==> ts[i].id != ts[j].id)
  }

  predicate OnceLaw(s: State) {
    Distinct(AllTimers(s), s.nextTimer)
  }

  lemma DistinctInsert(a: seq<Timer>, b: seq<Timer>, t: Timer)
    requires Distinct(a + b, t.id)
    ensures Distinct(a + [t] + b, t.id + 1)
  {
    var all, grown := a + b, a + [t] + b;
    forall i, j | 0 <= i < j < |grown|
      ensures grown[i].id != grown[j].id && grown[j].id <= t.id && grown[i].id <= t.id
    {
      var i', j' := if i <= |a| then i else i - 1, if j <= |a| then j else j - 1;
      assert i != |a| ==> grown[i] == all[i'];
      assert j != |a| ==> grown[j] == all[j'];
    }
    assert forall i :: 0 <= i < |grown| ==> i == |a| || grown[i] == all[if i < |a| then i else i - 1];
  }

  lemma OnceSet(s: State, at: int)
    requires OnceLaw(s)
    ensures OnceLaw(SetTimer(s, at))
  {
    var t := Timer(at, s.nextTimer);
    var k := InsertPlace(s.scheduled, t);
    var a, b := RanTimers(s.ran) + s.due + s.scheduled[..k], s.scheduled[k..];
    assert AllTimers(s) == a + b;
    DistinctInsert(a, b, t);
    assert AllTimers(SetTimer(s, at)) == a + [t] + b;
  }

  lemma OnceLoop(s: State)
    requires OnceLaw(s) && Enabled(s, LoopMoves)
    ensures OnceLaw(LoopNext(s))
  {
    var t := LoopNext(s);
    match s.loop {
      case Collect(_) => assert AllTimers(t) == AllTimers(s);
      case RunDue => assert AllTimers(t) == AllTimers(s);
      case Draining => match s.drain { case CheckLocal => case _ => }
      case _ =>
    }
  }

  /** Sorted by time, and within a batch run in order. */
  predicate Ordered(scheduled: seq<Timer>, next: nat, due: seq<Timer>, ran: seq<Ran>, batch: nat) {
    && Sorted(scheduled) && Sorted(due)
    && (forall i :: 0 <= i < |scheduled| ==> scheduled[i].id < next)
    && (forall i :: 0 <= i < |ran| ==> ran[i].batch <= batch)
    && (forall i, j :: 0 <= i < j < |ran| && ran[i].batch == ran[j].batch ==> Before(ran[i].timer, ran[j].timer))
    && (forall i, j :: 0 <= i < |ran| && ran[i].batch == batch && 0 <= j < |due| ==> Before(ran[i].timer, due[j]))
  }

  /** Due by now, and run no earlier. */
  predicate Timely(due: seq<Timer>, ran: seq<Ran>, now: int) {
    && (forall i :: 0 <= i < |due| ==> due[i].at <= now)
    && (forall i :: 0 <= i < |ran| ==> ran[i].timer.at <= ran[i].time <= now)
  }

  predicate DueAt(due: seq<Timer>, pc: LoopPc) {
    due == [] || pc == ReadWake || pc == LockBusy || pc == RunDue || pc == RunningDue
  }

  predicate OrderLaw(s: State) {
    && Ordered(s.scheduled, s.nextTimer, s.due, s.ran, s.batch) && Timely(s.due, s.ran, s.now)
    && DueAt(s.due, s.loop)
  }

  lemma OrderCollect(s: State)
    requires OrderLaw(s) && s.loop.Collect? && Enabled(s, LoopMoves)
    ensures OrderLaw(LoopNext(s))
  {
    DueExactly(s.scheduled, s.now);
  }

  lemma OrderRun(s: State)
    requires OrderLaw(s) && s.loop == RunDue && s.due != []
    ensures OrderLaw(LoopNext(s))
  {
  }

  lemma OrderLoop(s: State)
    requires OrderLaw(s) && Enabled(s, LoopMoves)
    ensures OrderLaw(LoopNext(s))
  {
    match s.loop {
      case Collect(_) => OrderCollect(s);
      case RunDue =>
        if s.due != [] {
          OrderRun(s);
        }
      case Draining => match s.drain { case CheckLocal => case _ => }
      case _ =>
    }
  }

  lemma OrderSet(s: State, at: int)
    requires OrderLaw(s)
    ensures OrderLaw(SetTimer(s, at))
  {
    var t := Timer(at, s.nextTimer);
    InsertSorted(s.scheduled, t);
    var k := InsertPlace(s.scheduled, t);
  }

  lemma OrderOther(s: State, step: Step)
    requires OrderLaw(s) && Enabled(s, step) && !step.LoopMoves? && !step.PosterMoves?
    ensures OrderLaw(Apply(s, step))
  {
    if step.HandlerSchedules? || step.Schedule? {
      OrderSet(s, step.at);
    }
    match step { case Post(_, _) => case _ => }
  }

  lemma OrderPoster(s: State, id: nat)
    requires OrderLaw(s) && id in s.posters
    ensures OrderLaw(PosterNext(s, id))
  {
    match s.posters[id] {
      case FastDrain => match s.drain { case CheckLocal => case _ => }
      case _ =>
    }
  }

  lemma OncePoster(s: State, id: nat)
    requires OnceLaw(s) && id in s.posters
    ensures OnceLaw(PosterNext(s, id))
  {
    match s.posters[id] {
      case FastDrain => match s.drain { case CheckLocal => case _ => }
      case _ =>
    }
  }

  lemma OnceOther(s: State, step: Step)
    requires OnceLaw(s) && Enabled(s, step) && !step.LoopMoves? && !step.PosterMoves?
    ensures OnceLaw(Apply(s, step))
  {
    if step.HandlerSchedules? || step.Schedule? {
      OnceSet(s, step.at);
    }
    match step { case Post(_, _) => case _ => }
  }

  // ------------------------------------------------------------------ every timer is kept, with the time asked

  ghost predicate Kept(ts: seq<Timer>, asked: seq<int>) {
    && (forall i :: 0 <= i < |ts| ==> ts[i].id < |asked| && ts[i].at == asked[ts[i].id])
    && (forall id: nat :: id < |asked| ==> Timer(asked[id], id) in ts)
  }

  ghost predicate AskedLaw(s: State) {
    s.nextTimer == |s.asked| && Kept(AllTimers(s), s.asked)
  }

  lemma InMiddle(a: seq<Timer>, b: seq<Timer>, t: Timer, x: Timer)
    ensures x in a + [t] + b <==> x == t || x in a + b
  {
    assert (a + [t] + b)[|a|] == t;
  }

  lemma KeptInsert(a: seq<Timer>, b: seq<Timer>, asked: seq<int>, at: int)
    requires Kept(a + b, asked)
    ensures Kept(a + [Timer(at, |asked|)] + b, asked + [at])
  {
    var t, more := Timer(at, |asked|), asked + [at];
    var grown := a + [t] + b;
    forall i | 0 <= i < |grown|
      ensures grown[i].id < |more| && grown[i].at == more[grown[i].id]
    {
      InMiddle(a, b, t, grown[i]);
      assert grown[i] in grown;
      if grown[i] != t {
        var j :| 0 <= j < |a + b| && (a + b)[j] == grown[i];
      }
    }
    forall id: nat | id < |more|
      ensures Timer(more[id], id) in grown
    {
      InMiddle(a, b, t, Timer(more[id], id));
    }
  }

  lemma AskedSet(s: State, at: int)
    requires AskedLaw(s)
    ensures AskedLaw(SetTimer(s, at).(asked := s.asked + [at]))
  {
    var t := Timer(at, s.nextTimer);
    var k := InsertPlace(s.scheduled, t);
    var a, b := RanTimers(s.ran) + s.due + s.scheduled[..k], s.scheduled[k..];
    assert AllTimers(s) == a + b;
    KeptInsert(a, b, s.asked, at);
    assert AllTimers(SetTimer(s, at).(asked := s.asked + [at])) == a + [t] + b;
  }

  lemma AskedLoop(s: State)
    requires AskedLaw(s) && Enabled(s, LoopMoves)
    ensures AskedLaw(LoopNext(s))
  {
    var t := LoopNext(s);
    match s.loop {
      case Collect(_) => assert AllTimers(t) == AllTimers(s);
      case RunDue => assert AllTimers(t) == AllTimers(s);
      case Draining => match s.drain { case CheckLocal => case _ => }
      case _ =>
    }
  }

  lemma AskedPoster(s: State, id: nat)
    requires AskedLaw(s) && id in s.posters
    ensures AskedLaw(PosterNext(s, id))
  {
    match s.posters[id] {
      case FastDrain => match s.drain { case CheckLocal => case _ => }
      case _ =>
    }
  }

  lemma SameTimers(s: State, t: State)
    requires AskedLaw(s) && t.ran == s.ran && t.due == s.due && t.scheduled == s.scheduled
    requires t.nextTimer == s.nextTimer && t.asked == s.asked
    ensures AskedLaw(t)
  {
  }

  lemma AskedOther(s: State, step: Step)
    requires AskedLaw(s) && Enabled(s, step) && !step.LoopMoves? && !step.PosterMoves?
    ensures AskedLaw(Apply(s, step))
  {
    var grown := s;
    if step.HandlerSchedules? || step.Schedule? {
      AskedSet(s, step.at);
      grown := SetTimer(s, step.at).(asked := s.asked + [step.at]);
    }
    SameTimers(grown, Apply(s, step));
  }

  // ------------------------------------------------------------------ tasks leave in the order they came

  predicate FifoLaw(posted: seq<Task>, taken: seq<Task>, todo: seq<Task>) {
    posted == taken + todo
  }

  /** What is posted, and what handlers give the loop. */
  predicate OrderKept(s: State) {
    FifoLaw(s.posted, s.taken, s.todo) && FifoLaw(s.handed, s.ownTaken, s.local)
  }

  lemma FifoDrain(s: State)
    requires OrderKept(s)
    ensures OrderKept(DrainNext(s))
  {
    if s.local != [] {
      assert s.ownTaken + s.local == (s.ownTaken + [s.local[0]]) + s.local[1..];
    }
    if s.todo != [] {
      assert s.taken + s.todo == (s.taken + [s.todo[0]]) + s.todo[1..];
    }
    match s.drain { case CheckLocal => case _ => }
  }

  lemma FifoStep(s: State, step: Step)
    requires OrderKept(s) && Enabled(s, step)
    ensures OrderKept(Apply(s, step))
  {
    FifoDrain(s);
    match step {
      case LoopMoves => match s.loop { case Top => case _ => }
      case PosterMoves(id) =>
        match s.posters[id] {
          case FastEnqueue(x) => assert s.taken + (s.todo + [x]) == (s.taken + s.todo) + [x];
          case _ =>
        }
      case Post(_, x) => assert s.taken + (s.todo + [x]) == (s.taken + s.todo) + [x];
      case HandlerExecutes(x) => assert s.ownTaken + (s.local + [x]) == (s.ownTaken + s.local) + [x];
      case _ =>
    }
  }

  // ------------------------------------------------------------------ main results

  ghost predicate Inv(s: State) {
    && LockLaw(s) && CountLaw(s) && WakeLaw(s) && SleepLaw(s) && OnceLaw(s) && OrderLaw(s)
    && AskedLaw(s) && OrderKept(s) && RestLaw(s)
  }

  lemma InvInit(s: State)
    requires Init(s)
    ensures Inv(s)
  {
    assert UncountedBy(s.posters) == {};
  }

  lemma InvKept(s: State, step: Step)
    requires Inv(s) && Enabled(s, step)
    ensures Inv(Apply(s, step))
  {
    FifoStep(s, step);
    if step.LoopMoves? {
      LockLoop(s); CountLoop(s); WakeLoop(s); SleepLoop(s); OnceLoop(s); OrderLoop(s);
      AskedLoop(s); RestLoop(s);
    } else if step.PosterMoves? {
      LockPoster(s, step.id); CountPoster(s, step.id); WakePoster(s, step.id); SleepPoster(s, step.id);
      OncePoster(s, step.id); OrderPoster(s, step.id); AskedPoster(s, step.id); RestPoster(s, step.id);
    } else {
      LockOther(s, step); CountOther(s, step); WakeOther(s, step); SleepOther(s, step);
      OnceOther(s, step); OrderOther(s, step); AskedOther(s, step); RestOther(s, step);
    }
  }

  least lemma ReachableInv[nat](s: State)
    requires Reachable(s)
    ensures Inv(s)
  {
    if Init(s) {
      InvInit(s);
    } else {
      var r, step :| Reachable(r) && Enabled(r, step) && s == Apply(r, step);
      ReachableInv(r);
      InvKept(r, step);
    }
  }

  /**
    Whenever the loop sleeps with no unread wake-up, it left itself no work, and work in the posted
    queue means that some thread has yet to count it, signal it or drain it.
   */
  lemma NoWorkForgotten(s: State)
    requires Reachable(s) && s.loop.Asleep? && s.wake == 0
    ensures s.local == [] && s.due == []
    ensures s.todo != [] ==> exists id :: id in s.posters && s.posters[id] != TimerSignal
  {
    ReachableInv(s);
  }

  /** The timer of this number has run. */
  ghost predicate HasRun(s: State, id: nat) {
    exists k :: 0 <= k < |s.ran| && s.ran[k].timer.id == id
  }

  lemma ReachableAsked(s: State)
    requires Reachable(s)
    ensures AskedLaw(s)
  {
    ReachableInv(s);
  }

  lemma InJoined(a: seq<Timer>, b: seq<Timer>, c: seq<Timer>, x: Timer)
    ensures x in a + b + c <==> x in a || x in b || x in c
  {
  }

  lemma FindTimer(s: State, id: nat)
    requires AskedLaw(s) && id < |s.asked|
    ensures Timer(s.asked[id], id) in s.scheduled || Timer(s.asked[id], id) in s.due || HasRun(s, id)
  {
    var x := Timer(s.asked[id], id);
    InJoined(RanTimers(s.ran), s.due, s.scheduled, x);
    if x in RanTimers(s.ran) {
      var k :| 0 <= k < |s.ran| && RanTimers(s.ran)[k] == x;
      assert s.ran[k].timer.id == id;
    }
  }

  /** No timer is lost: each is still scheduled, due, or has run, with the time that was asked for it. */
  lemma NoTimerLost(s: State, id: nat)
    requires Reachable(s) && id < |s.asked|
    ensures Timer(s.asked[id], id) in s.scheduled || Timer(s.asked[id], id) in s.due || HasRun(s, id)
  {
    ReachableAsked(s);
    FindTimer(s, id);
  }

  lemma AsAsked(s: State, x: Timer)
    requires Reachable(s) && (x in s.scheduled || x in s.due || x in RanTimers(s.ran))
    ensures x.id < |s.asked| && x.at == s.asked[x.id]
  {
    ReachableAsked(s);
    InJoined(RanTimers(s.ran), s.due, s.scheduled, x);
    var i :| 0 <= i < |AllTimers(s)| && AllTimers(s)[i] == x;
  }

  /** What is asked of the loop is recorded at once and in order, and nothing else is. */
  lemma RecordsExactly(s: State, step: Step)
    requires Enabled(s, step)
    ensures Apply(s, step).asked == if step.Schedule? || step.HandlerSchedules? then s.asked + [step.at] else s.asked
    ensures Apply(s, step).handed == if step.HandlerExecutes? then s.handed + [step.task] else s.handed
    ensures Apply(s, step).posted ==
      if step.Post? then s.posted + [step.task]
      else if step.PosterMoves? && s.posters[step.id].FastEnqueue? then s.posted + [s.posters[step.id].task]
      else s.posted
  {
    match step {
      case LoopMoves => match s.loop { case Draining => match s.drain { case CheckLocal => case _ => } case _ => }
      case PosterMoves(id) => match s.posters[id] { case FastDrain => match s.drain { case CheckLocal => case _ => } case _ => }
      case _ =>
    }
  }

  /** ... and its deadline is no later than the time asked for any timer that has not run. */
  lemma WakesForTheFirstTimer(s: State, id: nat)
    requires Reachable(s) && s.loop.Asleep? && s.wake == 0 && s.timersLock.None? && id < |s.asked| && !HasRun(s, id)
    ensures s.loop.until.Some?
    ensures s.loop.until.value <= Later(s.loop.computed, s.asked[id]) + (s.loop.entered - s.loop.computed)
  {
    ReachableInv(s);
    NoTimerLost(s, id);
    FirstIsEarliest(s.scheduled, Timer(s.asked[id], id));
  }

  /**
    With no wake-up unread and no first timer about to be signalled, the loop sleeps exactly to the earliest time asked
    for, put off by what passed between computing the timeout and going to sleep; and for ever without a timer.
   */
  lemma SleepsToTheFirstTimer(s: State)
    requires Reachable(s) && s.loop.Asleep? && s.wake == 0 && s.timersLock.None?
    ensures s.loop.until == if s.scheduled == [] then None
      else Some(Later(s.loop.computed, s.scheduled[0].at) + (s.loop.entered - s.loop.computed))
  {
    ReachableSleep(s);
    SleepsExactly(s);
  }

  lemma SleepsExactly(s: State)
    requires SleepLaw(s) && RestLaw(s) && s.loop.Asleep? && s.wake == 0 && s.timersLock.None?
    ensures s.loop.until == if s.scheduled == [] then None
      else Some(Later(s.loop.computed, s.scheduled[0].at) + (s.loop.entered - s.loop.computed))
  {
  }

  lemma ReachableSleep(s: State)
    requires Reachable(s)
    ensures SleepLaw(s) && RestLaw(s)
  {
    ReachableInv(s);
  }

  lemma FirstIsEarliest(ts: seq<Timer>, x: Timer)
    requires Sorted(ts) && x in ts
    ensures ts[0].at <= x.at
  {
    var i :| 0 <= i < |ts| && ts[i] == x;
    assert i == 0 || Before(ts[0], ts[i]);
  }

  /** What ends the loop's sleep, and how it goes on: after a signal it computes its timeout anew. */
  lemma LeavesSleep(s: State, step: Step)
    requires Enabled(s, step) && s.loop.Asleep?
    ensures Apply(s, step).loop ==
      if step.LoopMoves? || step.LoopOtherReady? then Collect(s.wake > 0) else if step.LoopInterrupted? then Top else s.loop
  {
    match step {
      case PosterMoves(id) => match s.posters[id] { case FastDrain => match s.drain { case CheckLocal => case _ => } case _ => }
      case _ =>
    }
  }

  function PassOn(s: State, steps: nat): State
    decreases steps
  {
    if steps == 0 || !Enabled(s, LoopMoves) then s else PassOn(LoopNext(s), steps - 1)
  }

  /** Nobody else is at work, and there is nothing to do. */
  predicate NothingToDo(s: State) {
    && s.busy == Nobody && s.timersLock.None? && s.drain == NotDraining
    && s.todo == [] && s.count == 0 && s.local == [] && s.due == [] && DueCount(s.scheduled, s.now) == 0
  }

  lemma PassStep(s: State, t: State, steps: nat)
    requires steps > 0 && Enabled(s, LoopMoves) && t == LoopNext(s)
    ensures PassOn(s, steps) == PassOn(t, steps - 1)
  {
  }

  lemma IdleCollects(s: State)
    requires s.loop == Collect(true) && NothingToDo(s)
    ensures LoopNext(s) == s.(loop := ReadWake, batch := s.batch + 1)
  {
    assert s.scheduled[0..] == s.scheduled && s.due + s.scheduled[..0] == [];
  }

  /** A wake-up with nothing to do costs one pass: it is read, and the loop sleeps again, to its first timer. */
  lemma IdlePass(s: State)
    requires s.loop.Asleep? && s.wake > 0 && NothingToDo(s)
    ensures PassOn(s, 9) == s.(wake := 0, batch := s.batch + 1, loop := Asleep(UntilFirst(s.scheduled, s.now), s.now, s.now))
  {
    var a := s.(loop := Collect(true));
    var b := a.(loop := ReadWake, batch := s.batch + 1);
    var c := b.(loop := LockBusy, wake := 0);
    PassStep(s, a, 9);
    IdleCollects(a);
    PassStep(a, b, 8);
    PassStep(b, c, 7);
    IdleDrain(c);
  }

  function UntilFirst(scheduled: seq<Timer>, now: int): Option<int> {
    if scheduled == [] then None else Some(Later(now, scheduled[0].at))
  }

  lemma IdleDrain(s: State)
    requires s.loop == LockBusy && NothingToDo(s)
    ensures PassOn(s, 6) == s.(loop := Asleep(UntilFirst(s.scheduled, s.now), s.now, s.now))
  {
    var a := s.(loop := RunDue, busy := LoopOwns);
    var b := a.(loop := Draining, drain := CheckLocal);
    var c := b.(drain := CheckCount);
    PassStep(s, a, 6);
    PassStep(a, b, 5);
    PassStep(b, c, 4);
    IdleSleeps(c, s.(loop := Top));
  }

  lemma IdleSleeps(s: State, t: State)
    requires s.loop == Draining && s.drain == CheckCount && s.count == 0 && s.busy == LoopOwns && s.timersLock.None?
    requires t == s.(loop := Top, drain := NotDraining, busy := Nobody)
    ensures PassOn(s, 3) == t.(loop := Asleep(UntilFirst(s.scheduled, s.now), s.now, s.now))
  {
    var e := t.(loop := Computed(Timeout(t.scheduled, t.now), t.now));
    PassStep(s, t, 3);
    PassStep(t, e, 2);
    PassStep(e, LoopNext(e), 1);
  }

  /** A pass for another descriptor leaves a wake-up that came meanwhile unread. */
  lemma OtherPass(s: State)
    requires s.loop == Collect(false) && NothingToDo(s)
    ensures PassOn(s, 7) == s.(batch := s.batch + 1, loop := Asleep(UntilFirst(s.scheduled, s.now), s.now, s.now))
  {
    var a := s.(loop := LockBusy, batch := s.batch + 1);
    assert s.scheduled[0..] == s.scheduled && s.due + s.scheduled[..0] == [];
    PassStep(s, a, 7);
    IdleDrain(a);
  }

  /** No timer runs before the time asked for it. */
  lemma NeverEarly(s: State, i: nat)
    requires Reachable(s) && i < |s.ran|
    ensures s.ran[i].timer.id < |s.asked|
    ensures s.asked[s.ran[i].timer.id] <= s.ran[i].time <= s.now
  {
    ReachableOrder(s);
    assert RanTimers(s.ran)[i] == s.ran[i].timer;
    AsAsked(s, s.ran[i].timer);
  }

  lemma ReachableOrder(s: State)
    requires Reachable(s)
    ensures OrderLaw(s)
  {
    ReachableInv(s);
  }

  /** Every timer runs at most once, and a batch runs by time, first set first on ties. */
  lemma TimersRunOnceInOrder(s: State, i: nat, j: nat)
    requires Reachable(s) && i < j < |s.ran|
    ensures s.ran[i].timer.id != s.ran[j].timer.id
    ensures s.ran[i].batch == s.ran[j].batch ==>
      s.ran[i].timer.at < s.ran[j].timer.at
      || (s.ran[i].timer.at == s.ran[j].timer.at && s.ran[i].timer.id < s.ran[j].timer.id)
  {
    ReachableInv(s);
    assert AllTimers(s)[i] == s.ran[i].timer && AllTimers(s)[j] == s.ran[j].timer;
  }

  /** A timer that has run is nowhere any more, so it cannot run again. */
  lemma RanTimersAreGone(s: State, i: nat, j: nat)
    requires Reachable(s) && i < |s.ran|
    ensures j < |s.scheduled| ==> s.scheduled[j].id != s.ran[i].timer.id
    ensures j < |s.due| ==> s.due[j].id != s.ran[i].timer.id
  {
    ReachableOnce(s);
    DistinctApart(RanTimers(s.ran), s.due, s.scheduled, s.nextTimer, i, j);
  }

  lemma DistinctApart(a: seq<Timer>, b: seq<Timer>, c: seq<Timer>, next: nat, i: nat, j: nat)
    requires Distinct(a + b + c, next) && i < |a|
    ensures j < |b| ==> b[j].id != a[i].id
    ensures j < |c| ==> c[j].id != a[i].id
  {
    var all := a + b + c;
    assert all[i] == a[i];
    if j < |b| {
      assert all[|a| + j] == b[j];
    }
    if j < |c| {
      assert all[|a| + |b| + j] == c[j];
    }
  }

  lemma ReachableOnce(s: State)
    requires Reachable(s)
    ensures OnceLaw(s)
  {
    ReachableInv(s);
  }

  /**
    The unsigned count never wraps, though it is raised after the enqueue and lowered after the
    dequeue; at rest it is the queue's length less what is enqueued but not counted yet.
   */
  lemma CountNeverWraps(s: State)
    requires Reachable(s)
    ensures 0 <= s.count && (s.drain == SubCount ==> 1 <= s.count)
    ensures s.drain == NotDraining ==> s.count == |s.todo| - |UncountedBy(s.posters)|
  {
    ReachableInv(s);
  }

  lemma ReachableFifo(s: State)
    requires Reachable(s)
    ensures OrderKept(s)
  {
    ReachableInv(s);
  }

  /**
    Posted tasks are taken in the order they were enqueued, each once, and the rest is still queued; and so is what
    handlers gave the loop itself.
   */
  lemma TasksTakenInOrder(s: State)
    requires Reachable(s)
    ensures s.taken <= s.posted && s.posted[|s.taken|..] == s.todo
    ensures s.ownTaken <= s.handed && s.handed[|s.ownTaken|..] == s.local
  {
    ReachableFifo(s);
  }
}
