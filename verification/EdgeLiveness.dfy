/**
  Infinite runs of the blocking edge under weak fairness: a thread whose next action stays possible
  eventually takes it. Nobody who has something to wake for sleeps forever.
 */
module EdgeLiveness {
  import opened EdgeData
  import opened EventFd
  import opened EdgeProtocol

  datatype Thread = Producer | Consumer | Helper(id: nat)

  function NextStep(t: Thread): Step {
    match t case Producer => Produce case Consumer => Consume case Helper(id) => Help(id)
  }

  function Waiter(e: Side): Thread {
    match e case Produced => Consumer case Consumed => Producer
  }

  /** The waiter is inside poll(): it can go on only when the event is readable. */
  predicate Polling(s: State, e: Side) {
    match e case Produced => s.consumer.CPoll? case Consumed => s.producer.PPoll?
  }

  ghost predicate StepAt(run: nat -> State, act: nat -> Step, i: nat) {
    Enabled(run(i), act(i)) && run(i + 1) == Apply(run(i), act(i))
  }

  ghost predicate Run(run: nat -> State, act: nat -> Step) {
    Init(run(0)) && forall i: nat :: StepAt(run, act, i)
  }

  ghost predicate TurnAt(run: nat -> State, act: nat -> Step, t: Thread, j: nat) {
    act(j) == NextStep(t) || !Enabled(run(j), NextStep(t))
  }

  ghost predicate Fair(run: nat -> State, act: nat -> Step) {
    forall i: nat, t: Thread :: FairFor(run, act, i, t)
  }

  ghost predicate FairFor(run: nat -> State, act: nat -> Step, i: nat, t: Thread) {
    exists j: nat :: i <= j && TurnAt(run, act, t, j)
  }

  /** How many actions the thread still takes to the end of its signal of `e`; 0 when it sends none. */
  function Distance(s: State, t: Thread, e: Side): nat {
    match t
    case Producer =>
      if e.Consumed? then 0
      else (match s.producer case PCountOccupied => 4 case PCountTotal => 3 case PExchange => 2 case PWrite => 1 case _ => 0)
    case Consumer =>
      if e.Produced? then 0
      else (match s.consumer
            case CCountOccupied(_) => 4 case CCountTotal(_) => 3 case CExchange(_) => 2 case CWrite(_) => 1 case _ => 0)
    case Helper(id) =>
      if id !in s.helpers || s.helpers[id].event != e then 0
      else if s.helpers[id].HExchange? then 2 else 1
  }

  lemma {:induction false} RunInv(run: nat -> State, act: nat -> Step, i: nat)
    requires Run(run, act)
    ensures Inv(run(i))
  {
    if i == 0 {
      InvInit(run(0));
    } else {
      RunInv(run, act, i - 1);
      assert StepAt(run, act, i - 1);
      InvKept(run(i - 1), act(i - 1));
    }
  }

  lemma Signaller(s: State, e: Side) returns (t: Thread)
    requires SignalPending(s, e)
    ensures Distance(s, t, e) > 0
  {
    if e.Produced? && ProducerSignalling(s.producer) {
      t := Producer;
    } else if e.Consumed? && ConsumerSignalling(s.consumer) {
      t := Consumer;
    } else {
      var id :| id in s.helpers && s.helpers[id].event == e;
      t := Helper(id);
    }
  }

  lemma Writer(s: State, e: Side) returns (t: Thread)
    requires WriterPending(s, e)
    ensures Distance(s, t, e) == 1
  {
    if e.Produced? && s.producer.PWrite? {
      t := Producer;
    } else if e.Consumed? && s.consumer.CWrite? {
      t := Consumer;
    } else {
      var id :| id in s.helpers && s.helpers[id] == HWrite(e);
      t := Helper(id);
    }
  }

  /** A thread in the middle of a signal is never blocked. */
  lemma SignallerEnabled(s: State, t: Thread, e: Side)
    requires Distance(s, t, e) > 0
    ensures Enabled(s, NextStep(t))
  {
  }

  /** Nobody else moves a signal along, and nobody takes it back. */
  lemma SignalWaits(s: State, step: Step, t: Thread, e: Side)
    requires Distance(s, t, e) > 0 && Enabled(s, step) && step != NextStep(t)
    ensures Distance(Apply(s, step), t, e) == Distance(s, t, e)
  {
    match step { case Produce => case _ => }
  }

  lemma SignalMoves(s: State, t: Thread, e: Side)
    requires Distance(s, t, e) > 0 && Enabled(s, NextStep(t))
    ensures Distance(s, t, e) >= 3 ==> Distance(Apply(s, NextStep(t)), t, e) == Distance(s, t, e) - 1
    ensures Distance(s, t, e) == 2 && !s.Event(e).flag ==> Distance(Apply(s, NextStep(t)), t, e) == 1
    ensures Distance(s, t, e) == 1 ==> Apply(s, NextStep(t)).Event(e).count > 0
  {
    match t {
      case Producer => match s.producer { case PExchange => case _ => }
      case Consumer => match s.consumer { case CExchange(_) => case _ => }
      case Helper(_) =>
    }
  }

  /** Only the waiter reads the counter. */
  lemma CountStays(s: State, step: Step, e: Side)
    requires s.Event(e).count > 0 && Enabled(s, step) && Polling(s, e)
    ensures Apply(s, step).Event(e).count > 0
  {
    match step {
      case Produce => match s.producer { case PRead => case _ => }
      case Consume => match s.consumer { case CRead => case _ => }
      case _ =>
    }
  }

  /** Fairness: a thread in the middle of a signal takes its next action. */
  lemma {:induction false} FindMove(run: nat -> State, act: nat -> Step, i: nat, k: nat, t: Thread, e: Side)
      returns (j: nat)
    requires Run(run, act) && i <= k && TurnAt(run, act, t, k) && Distance(run(i), t, e) > 0
    ensures i <= j && act(j) == NextStep(t) && Distance(run(j), t, e) == Distance(run(i), t, e)
    decreases k - i
  {
    assert StepAt(run, act, i);
    SignallerEnabled(run(i), t, e);
    if act(i) == NextStep(t) {
      j := i;
    } else {
      SignalWaits(run(i), act(i), t, e);
      j := FindMove(run, act, i + 1, k, t, e);
    }
  }

  /** Every signal on its way to a polling waiter ends with a readable counter, unless it woke before. */
  lemma {:induction false} SignalArrives(run: nat -> State, act: nat -> Step, i: nat, t: Thread, e: Side)
      returns (j: nat)
    requires Run(run, act) && Fair(run, act) && Distance(run(i), t, e) > 0
    ensures i <= j && (run(j).Event(e).count > 0 || !Polling(run(j), e))
    decreases Distance(run(i), t, e)
  {
    assert FairFor(run, act, i, t);
    var k: nat :| i <= k && TurnAt(run, act, t, k);
    var m := FindMove(run, act, i, k, t, e);
    assert StepAt(run, act, m);
    SignalMoves(run(m), t, e);
    if Distance(run(m), t, e) == 1 {
      j := m + 1;
    } else if Distance(run(m), t, e) == 2 && run(m).Event(e).flag {
      RunInv(run, act, m);
      if run(m).Event(e).count > 0 || !Polling(run(m), e) {
        j := m;
      } else {
        var other := Writer(run(m), e);
        j := SignalArrives(run, act, m, other, e);
      }
    } else {
      j := SignalArrives(run, act, m + 1, t, e);
    }
  }

  /** With a readable counter the waiter is never blocked, so it moves. */
  lemma {:induction false} ReadableWakes(run: nat -> State, act: nat -> Step, i: nat, k: nat, e: Side)
      returns (j: nat)
    requires Run(run, act) && i <= k && TurnAt(run, act, Waiter(e), k)
    requires run(i).Event(e).count > 0
    ensures i <= j && !Polling(run(j), e)
    decreases k - i
  {
    assert StepAt(run, act, i);
    if !Polling(run(i), e) {
      j := i;
    } else if act(i) == NextStep(Waiter(e)) {
      j := i + 1;
    } else {
      CountStays(run(i), act(i), e);
      assert i < k;
      j := ReadableWakes(run, act, i + 1, k, e);
    }
  }

  /**
    In every fair run, a side inside poll() whose queue condition or stop flag already holds leaves
    poll(): coalesced writes never let a sleeper down.
   */
  lemma SleeperWakes(run: nat -> State, act: nat -> Step, i: nat, e: Side) returns (j: nat)
    requires Run(run, act) && Fair(run, act)
    requires Polling(run(i), e) && (QueueReady(run(i), e) || FinishRaised(run(i), e))
    ensures i < j && !Polling(run(j), e)
  {
    RunInv(run, act, i);
    var m := i;
    if run(i).Event(e).count == 0 {
      var t := Signaller(run(i), e);
      m := SignalArrives(run, act, i, t, e);
    }
    if Polling(run(m), e) {
      assert FairFor(run, act, m, Waiter(e));
      var k: nat :| m <= k && TurnAt(run, act, Waiter(e), k);
      j := ReadableWakes(run, act, m, k, e);
    } else {
      j := m;
    }
  }
}
