/**
  The event loop's queues as the object they are, each operation undisturbed: what execute() and
  schedule() add, from the loop's own thread or another, and what a pass takes.
 */
module EventQueue {
  import L = EventLoop
  import opened EventFd
  import opened Options
  import opened Timers

  type Task = L.Task

  datatype Queues = Queues(todo: seq<Task>, count: int, local: seq<Task>, wake: nat, scheduled: seq<Timer>, nextTimer: nat)

  /** Undisturbed, the count is the length of the posted queue. */
  predicate Rest(q: Queues) {
    q.count == |q.todo|
  }

  /** The loop's own thread needs no wake-up: it takes its work and its timers before it sleeps. */
  function Executed(q: Queues, x: Task, own: bool): Queues {
    if own then q.(local := q.local + [x])
    else q.(todo := q.todo + [x], count := q.count + 1, wake := q.wake + 1)
  }

  function Scheduled(q: Queues, at: int, own: bool): Queues {
    var first := q.scheduled == [] || q.scheduled[0].at > at;
    q.(scheduled := Insert(q.scheduled, Timer(at, q.nextTimer)), nextTimer := q.nextTimer + 1,
       wake := if first && !own then q.wake + 1 else q.wake)
  }

  /** executeSingleFromToDo(): the loop's own work first, posted work only when some is counted. */
  function Single(q: Queues): (Queues, Option<Task>) {
    if q.local != [] then (q.(local := q.local[1..]), Some(q.local[0]))
    else if q.count == 0 || q.todo == [] then (q, None)
    else (q.(todo := q.todo[1..], count := q.count - 1), Some(q.todo[0]))
  }

  lemma KeepsRest(q: Queues, x: Task, at: int, own: bool)
    requires Rest(q)
    ensures Rest(Executed(q, x, own)) && Rest(Scheduled(q, at, own)) && Rest(Single(q).0)
    ensures Single(q).1.None? <==> q.local == [] && q.todo == []
  {
  }

  class LoopQueues {
    var todo: seq<Task>
    var count: int
    var local: seq<Task>
    var scheduled: seq<Timer>
    var nextTimer: nat
    const wake: Event

    ghost function View(): Queues
      reads this, wake
    {
      Queues(todo, count, local, wake.counter, scheduled, nextTimer)
    }

    constructor ()
      ensures View() == Queues([], 0, [], 0, [], 0) && fresh(wake) && !wake.coalesces
    {
      todo, count, local, scheduled, nextTimer := [], 0, [], [], 0;
      wake := new Event(false);
    }

    method Execute(x: Task, onLoopThread: bool)
      requires !wake.coalesces
      modifies this, wake
      ensures View() == Executed(old(View()), x, onLoopThread)
    {
      if onLoopThread {
        local := local + [x];
        return;
      }
      todo := todo + [x];
      count := count + 1;
      wake.Signal();
    }

    method Schedule(at: int, onLoopThread: bool)
      requires !wake.coalesces
      modifies this, wake
      ensures View() == Scheduled(old(View()), at, onLoopThread)
    {
      var first := scheduled == [] || scheduled[0].at > at;
      scheduled := Insert(scheduled, Timer(at, nextTimer));
      nextTimer := nextTimer + 1;
      if first && !onLoopThread {
        wake.Signal();
      }
    }

    method ExecuteSingle() returns (task: Option<Task>)
      modifies `todo, `count, `local
      ensures (View(), task) == Single(old(View()))
    {
      if local != [] {
        task := Some(local[0]);
        local := local[1..];
        return;
      }
      if count == 0 || todo == [] {
        return None;
      }
      task := Some(todo[0]);
      todo, count := todo[1..], count - 1;
    }

    /** The loop at the end of a pass, with tasks that hand out no more work: everything runs, in order. */
    method ExecuteAll() returns (ran: seq<Task>)
      requires Rest(View())
      modifies `todo, `count, `local
      ensures ran == old(local) + old(todo)
      ensures View() == old(View()).(todo := [], count := 0, local := [])
    {
      ran := [];
      var more := true;
      while more
        invariant Rest(View()) && ran + (local + todo) == old(local) + old(todo)
        invariant !more ==> local == [] && todo == []
        invariant wake.counter == old(wake.counter) && scheduled == old(scheduled) && nextTimer == old(nextTimer)
        decreases |local| + |todo|, more
      {
        ghost var rest := local + todo;
        var task := ExecuteSingle();
        more := task.Some?;
        if more {
          assert rest == [task.value] + (local + todo);
          ran := ran + [task.value];
        }
      }
    }

    /** A pass's timers: exactly the due ones leave, in order. */
    method TakeDue(now: int) returns (due: seq<Timer>)
      modifies `scheduled
      ensures due + scheduled == old(scheduled)
      ensures |due| == DueCount(old(scheduled), now)
    {
      var rest;
      due, rest := CollectDue(scheduled, now);
      scheduled := rest;
    }
  }

  // ------------------------------------------------------------------ the same, step by step

  function Of(s: L.State): Queues {
    Queues(s.todo, s.count, s.local, s.wake, s.scheduled, s.nextTimer)
  }

  /** Steps of the draining thread until it runs something or is done. */
  function DrainRun(s: L.State, steps: nat): L.State
    decreases steps
  {
    if steps == 0 || s.drain == L.Running || s.drain == L.NotDraining then s else DrainRun(L.DrainNext(s), steps - 1)
  }

  /** Undisturbed, the atomic steps of executeSingleFromToDo() add up to what the method does. */
  lemma SoloSingle(s: L.State)
    requires s.drain == L.CheckLocal && Rest(Of(s))
    ensures var t := DrainRun(s, 4);
      Of(t) == Single(Of(s)).0 && (t.drain == L.Running <==> Single(Of(s)).1.Some?)
  {
    var s1 := L.DrainNext(s);
    var s2 := L.DrainNext(s1);
    var s3 := L.DrainNext(s2);
    assert DrainRun(s, 4) == DrainRun(s1, 3);
    if s.local == [] && s.count != 0 {
      assert DrainRun(s1, 3) == DrainRun(s2, 2);
      assert DrainRun(s2, 2) == DrainRun(s3, 1);
    } else if s.local == [] {
      assert DrainRun(s1, 3) == DrainRun(s2, 2);
    }
  }

  /** So do those of execute() ... */
  lemma SoloPost(s: L.State, id: nat, x: Task)
    requires L.Enabled(s, L.Post(id, x))
    ensures var a := L.Apply(s, L.Post(id, x));
      && L.Enabled(a, L.PosterMoves(id))
      && var b := L.Apply(a, L.PosterMoves(id));
         && L.Enabled(b, L.PosterMoves(id))
         && var t := L.Apply(b, L.PosterMoves(id));
            Of(t) == Executed(Of(s), x, false) && t.posters == s.posters
  {
    var a := L.Apply(s, L.Post(id, x));
    assert a.posters[id] == L.Add;
    var b := L.Apply(a, L.PosterMoves(id));
    assert b.posters[id] == L.Signal;
    assert L.Apply(b, L.PosterMoves(id)).posters == s.posters;
  }

  lemma OnLoopThread(s: L.State, x: Task, at: int)
    ensures L.Enabled(s, L.HandlerExecutes(x)) ==> Of(L.Apply(s, L.HandlerExecutes(x))) == Executed(Of(s), x, true)
    ensures L.Enabled(s, L.HandlerSchedules(at)) ==> Of(L.Apply(s, L.HandlerSchedules(at))) == Scheduled(Of(s), at, true)
  {
  }

  /** ... those of schedule(), which hands the loop a wake-up only for a new first timer ... */
  lemma SoloSchedule(s: L.State, id: nat, at: int)
    requires L.Enabled(s, L.Schedule(id, at))
    ensures var a := L.Apply(s, L.Schedule(id, at));
      if id in a.posters then
        && L.Enabled(a, L.PosterMoves(id))
        && var t := L.Apply(a, L.PosterMoves(id));
           Of(t) == Scheduled(Of(s), at, false) && t.posters == s.posters && t.timersLock == s.timersLock
      else Of(a) == Scheduled(Of(s), at, false) && a.posters == s.posters && a.timersLock == s.timersLock
  {
    var a := L.Apply(s, L.Schedule(id, at));
    if id in a.posters {
      assert a.posters[id] == L.TimerSignal;
      assert L.Apply(a, L.PosterMoves(id)).posters == s.posters;
    }
  }

  /** ... and those of fastExecute(), which drains as the loop does. */
  lemma SoloFast(s: L.State, id: nat, x: Task)
    requires L.Enabled(s, L.FastLock(id, x))
    ensures var a := L.Apply(s, L.FastLock(id, x));
      && L.Enabled(a, L.PosterMoves(id))
      && var b := L.Apply(a, L.PosterMoves(id));
         && L.Enabled(b, L.PosterMoves(id))
         && var t := L.Apply(b, L.PosterMoves(id));
            && Of(t).(wake := s.wake + 1) == Executed(Of(s), x, false)
            && t.wake == s.wake && t.drain == L.CheckLocal && t.busy == L.FastOwns(id)
            && t.posters == s.posters[id := L.FastDrain]
  {
    var a := L.Apply(s, L.FastLock(id, x));
    assert a.posters[id] == L.FastEnqueue(x);
    var b := L.Apply(a, L.PosterMoves(id));
    assert b.posters[id] == L.FastAdd;
    assert L.Apply(b, L.PosterMoves(id)).posters == s.posters[id := L.FastDrain];
  }

  /**
    A timer that is set has the time that was asked for, behind those of the same or an earlier time and before the
    later ones; the others stay as they were.
   */
  lemma ScheduledExactly(q: Queues, at: int, own: bool) returns (k: nat)
    requires Sorted(q.scheduled)
    ensures var r := Scheduled(q, at, own);
      && k <= |q.scheduled| && r.scheduled == q.scheduled[..k] + [Timer(at, q.nextTimer)] + q.scheduled[k..]
      && (forall i :: 0 <= i < k ==> q.scheduled[i].at <= at) && (k < |q.scheduled| ==> at < q.scheduled[k].at)
      && r.nextTimer == q.nextTimer + 1
      && r.wake == q.wake + (if !own && (forall i :: 0 <= i < |q.scheduled| ==> at < q.scheduled[i].at) then 1 else 0)
  {
    k := InsertPlace(q.scheduled, Timer(at, q.nextTimer));
    if q.scheduled != [] {
      assert forall i :: 0 < i < |q.scheduled| ==> Before(q.scheduled[0], q.scheduled[i]);
    }
  }
}
