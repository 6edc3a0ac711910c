/**
  The same edge with one more thread, that waits for the queue to run empty. It sleeps on the event that
  tells the producer of room, and so may take a wake-up meant for that. Everything else of the edge survives;
  which steps lose the producer's wake-up, exactly, and a run after which both sides sleep for good.
 */
module EdgeDrain {
  import opened EdgeData
  import opened EdgeProtocol
  import opened EventFd

  /** waitEmpty() between its atomic actions, while the consumer exists. */
  datatype DrainPc = NotDraining | Checking | Polling | Reading | Clearing

  datatype Shared = Shared(edge: State, drain: DrainPc)

  datatype Action =
    | OnEdge(step: Step)
    | StartDrain
    | Drain
    | DrainSpurious

  predicate Can(x: Shared, a: Action) {
    match a
    case OnEdge(step) => Enabled(x.edge, step)
    case StartDrain => x.drain.NotDraining?
    case Drain => !x.drain.NotDraining? && (x.drain.Polling? ==> x.edge.data.consumed.count > 0)
    case DrainSpurious => x.drain.Polling?
  }

  function DrainNext(x: Shared): Shared {
    var d := x.edge.data;
    match x.drain
    case NotDraining => x
    case Checking => x.(drain := if d.occupied > 0 then Polling else NotDraining)
    case Polling => x.(drain := Reading)
    case Reading => x.(edge := x.edge.SetEvent(Consumed, d.consumed.Read()), drain := Clearing)
    case Clearing => x.(edge := x.edge.SetEvent(Consumed, d.consumed.Cleared()), drain := Checking)
  }

  function Do(x: Shared, a: Action): Shared
    requires Can(x, a)
  {
    match a
    case OnEdge(step) => x.(edge := Apply(x.edge, step))
    case StartDrain => x.(drain := Checking)
    case Drain => DrainNext(x)
    case DrainSpurious => x.(drain := Checking)
  }

  least predicate Happens[nat](x: Shared) {
    || (Init(x.edge) && x.drain.NotDraining?)
    || exists y, a :: Happens(y) && Can(y, a) && x == Do(y, a)
  }

  // ------------------------------------------------------------------ what survives

  /** The flag as before, but for the drain's own read. */
  ghost predicate FlagShared(x: Shared) {
    x.edge.data.consumed.flag ==>
      || x.edge.data.consumed.count > 0 || WriterPending(x.edge, Consumed) || WaiterClearing(x.edge, Consumed)
      || x.drain.Clearing?
  }

  /** Items, counters and the consumer's wake-ups. */
  ghost predicate Law(x: Shared) {
    && Fifo(x.edge.accepted, x.edge.removed, x.edge.data.queue) && Counted(x.edge)
    && EventLaws(x.edge, Produced) && FlagShared(x)
  }

  lemma EdgeKeeps(s: State, step: Step)
    requires Fifo(s.accepted, s.removed, s.data.queue) && Counted(s) && EventLaws(s, Produced) && Enabled(s, step)
    ensures var t := Apply(s, step);
      Fifo(t.accepted, t.removed, t.data.queue) && Counted(t) && EventLaws(t, Produced)
  {
    if step.Produce? {
      FifoProduce(s);
      CountedProduce(s);
      ProduceSignals(s);
    } else if step.Consume? {
      FifoConsume(s);
      CountedConsume(s);
      ConsumeWaits(s);
    } else if step.Help? {
      CountedHelp(s, step.id);
      EventLawsHelp(s, step.id, Produced);
    } else if step.RaiseFinish? {
      CountedOther(s, step);
      EventLawsRaise(s, step.id, step.event, Produced);
    } else {
      CountedOther(s, step);
      EventLawsOther(s, step, Produced);
    }
  }

  /** A step that leaves the event unread and its flag set keeps what stood behind that. */
  lemma FlagProduce(x: Shared)
    requires FlagShared(x) && Enabled(x.edge, Produce)
    ensures FlagShared(x.(edge := ProducerNext(x.edge)))
  {
    match x.edge.producer { case PTryQueue => case _ => }
  }

  lemma FlagConsume(x: Shared)
    requires FlagShared(x) && Enabled(x.edge, Consume)
    ensures FlagShared(x.(edge := ConsumerNext(x.edge)))
  {
    match x.edge.consumer { case CTake => case _ => }
  }

  lemma FlagHelp(x: Shared, id: nat)
    requires FlagShared(x) && id in x.edge.helpers
    ensures FlagShared(x.(edge := HelperNext(x.edge, id)))
  {
    var s := x.edge;
    if s.helpers[id] != HWrite(Consumed) {
      HelpersAfterHelp(s, id, HWrite(Consumed));
    }
    if s.helpers[id] == HExchange(Consumed) && !s.data.consumed.flag {
      assert HelperNext(s, id).helpers[id] == HWrite(Consumed);
    }
  }

  lemma FlagRaise(x: Shared, id: nat, on: Side)
    requires FlagShared(x) && id !in x.edge.helpers
    ensures FlagShared(x.(edge := Apply(x.edge, RaiseFinish(id, on))))
  {
    HelpersAfterRaise(x.edge, id, on, HWrite(Consumed));
  }

  lemma HelpersAfterRaise(s: State, id: nat, on: Side, pc: HelperPc)
    requires id !in s.helpers
    ensures AnyHelper(s.helpers, pc) ==> AnyHelper(Apply(s, RaiseFinish(id, on)).helpers, pc)
  {
    var t := Apply(s, RaiseFinish(id, on));
    if AnyHelper(s.helpers, pc) {
      var other :| other in s.helpers && s.helpers[other] == pc;
      assert other in t.helpers && t.helpers[other] == pc;
    }
  }

  lemma FlagOther(x: Shared, step: Step)
    requires FlagShared(x) && Enabled(x.edge, step)
    requires !step.Produce? && !step.Consume? && !step.Help? && !step.RaiseFinish?
    ensures FlagShared(x.(edge := Apply(x.edge, step)))
  {
    match step { case SetFlushing(_) => case _ => }
  }

  lemma FlagKept(x: Shared, step: Step)
    requires FlagShared(x) && Enabled(x.edge, step)
    ensures FlagShared(x.(edge := Apply(x.edge, step)))
  {
    if step.Produce? {
      FlagProduce(x);
    } else if step.Consume? {
      FlagConsume(x);
    } else if step.Help? {
      FlagHelp(x, step.id);
    } else if step.RaiseFinish? {
      FlagRaise(x, step.id, step.event);
    } else {
      FlagOther(x, step);
    }
  }

  lemma DrainKeeps(x: Shared, a: Action)
    requires Law(x) && Can(x, a) && !a.OnEdge?
    ensures Law(Do(x, a))
  {
    match x.drain { case Checking => case _ => }
  }

  /** With a drain, too, items stay in order, counters exact, and the consumer's wake-ups arrive. */
  lemma LawKept(x: Shared, a: Action)
    requires Law(x) && Can(x, a)
    ensures Law(Do(x, a))
  {
    if a.OnEdge? {
      EdgeKeeps(x.edge, a.step);
      FlagKept(x, a.step);
    } else {
      DrainKeeps(x, a);
    }
  }

  least lemma HappensLaw[nat](x: Shared)
    requires Happens(x)
    ensures Law(x)
  {
    if Init(x.edge) && x.drain.NotDraining? {
      InvInit(x.edge);
    } else {
      var y, a :| Happens(y) && Can(y, a) && x == Do(y, a);
      HappensLaw(y);
      LawKept(y, a);
    }
  }

  /** The consumer loses no wake-up, drained or not. */
  lemma ConsumerStillWakes(x: Shared)
    requires Happens(x) && Asleep(x.edge, Produced)
    ensures (!QueueReady(x.edge, Produced) && !FinishRaised(x.edge, Produced)) || SignalPending(x.edge, Produced)
  {
    HappensLaw(x);
  }

  // ------------------------------------------------------------------ how the producer's wake-up is lost

  /** The producer waits, or is about to, and has reason not to. */
  predicate Due(s: State) {
    || (SawNotReady(s, Consumed) && QueueReady(s, Consumed))
    || (SawNoFinish(s, Consumed) && FinishRaised(s, Consumed))
  }

  ghost predicate OtherHelper(helpers: map<nat, HelperPc>, id: nat) {
    exists j :: j in helpers && j != id && helpers[j].event == Consumed
  }

  /**
    The steps that leave a producer with reason to wake unnotified: the drain's read of the last signal, and a
    signal held back because the flag still tells of the one the drain has just read.
   */
  ghost predicate Steals(x: Shared, a: Action) {
    var s := x.edge;
    Due(s)
    && match a
       case Drain => x.drain.Reading? && !SignalPending(s, Consumed)
       case OnEdge(Consume) =>
         && s.consumer.CExchange? && s.data.consumed.flag && s.data.consumed.count == 0
         && !AnyHelper(s.helpers, HExchange(Consumed)) && !AnyHelper(s.helpers, HWrite(Consumed))
       case OnEdge(Help(id)) =>
         && id in s.helpers && s.helpers[id] == HExchange(Consumed) && s.data.consumed.flag && s.data.consumed.count == 0
         && !ConsumerSignalling(s.consumer) && !OtherHelper(s.helpers, id)
       case _ => false
  }

  /** Both need somebody to drain. */
  lemma StealingDrains(x: Shared, a: Action)
    requires Law(x) && Can(x, a) && Steals(x, a)
    ensures x.drain.Reading? || x.drain.Clearing?
  {
    if a.OnEdge? && a.step.Help? {
      var s := x.edge;
      assert !AnyHelper(s.helpers, HWrite(Consumed));
    }
  }

  lemma ProduceOwes(s: State)
    requires WakeLaw(s, Consumed) && Enabled(s, Produce)
    ensures WakeLaw(ProducerNext(s), Consumed)
  {
    match s.producer { case PTryQueue => case _ => }
  }

  lemma ConsumeOwes(x: Shared)
    requires WakeLaw(x.edge, Consumed) && Enabled(x.edge, Consume)
    ensures WakeLaw(ConsumerNext(x.edge), Consumed) <==> !Steals(x, OnEdge(Consume))
  {
    match x.edge.consumer { case CTake => case _ => }
  }

  lemma HelpersLeft(s: State, id: nat)
    requires id in s.helpers && !(s.helpers[id] == HExchange(Consumed) && !s.data.consumed.flag)
    ensures var t := HelperNext(s, id);
      s.helpers[id].event == Consumed ==>
        (AnyHelper(t.helpers, HExchange(Consumed)) || AnyHelper(t.helpers, HWrite(Consumed)) <==> OtherHelper(s.helpers, id))
  {
    var t := HelperNext(s, id);
    if s.helpers[id].event == Consumed && OtherHelper(s.helpers, id) {
      var j :| j in s.helpers && j != id && s.helpers[j].event == Consumed;
      assert j in t.helpers && t.helpers[j] == s.helpers[j];
      assert t.helpers[j] == HExchange(Consumed) || t.helpers[j] == HWrite(Consumed);
    }
  }

  lemma HelpOwes(x: Shared, id: nat)
    requires WakeLaw(x.edge, Consumed) && id in x.edge.helpers
    ensures WakeLaw(HelperNext(x.edge, id), Consumed) <==> !Steals(x, OnEdge(Help(id)))
  {
    var s := x.edge;
    var t := HelperNext(s, id);
    if s.helpers[id] == HExchange(Consumed) && !s.data.consumed.flag {
      assert t.helpers[id] == HWrite(Consumed);
    } else {
      HelpersLeft(s, id);
      if s.helpers[id] != HExchange(Consumed) {
        HelpersAfterHelp(s, id, HExchange(Consumed));
      }
      if s.helpers[id] != HWrite(Consumed) {
        HelpersAfterHelp(s, id, HWrite(Consumed));
      }
    }
  }

  lemma RaiseOwes(s: State, id: nat, on: Side)
    requires WakeLaw(s, Consumed) && id !in s.helpers
    ensures WakeLaw(Apply(s, RaiseFinish(id, on)), Consumed)
  {
    HelpersAfterRaise(s, id, on, HWrite(Consumed));
    HelpersAfterRaise(s, id, on, HExchange(Consumed));
    assert Apply(s, RaiseFinish(id, on)).helpers[id] == HExchange(on);
  }

  lemma OtherOwes(s: State, step: Step)
    requires WakeLaw(s, Consumed) && Enabled(s, step)
    requires !step.Produce? && !step.Consume? && !step.Help? && !step.RaiseFinish?
    ensures WakeLaw(Apply(s, step), Consumed)
  {
    match step { case SetFlushing(_) => case _ => }
  }

  lemma DrainOwes(x: Shared)
    requires WakeLaw(x.edge, Consumed) && Can(x, Drain)
    ensures WakeLaw(DrainNext(x).edge, Consumed) <==> !Steals(x, Drain)
  {
    match x.drain { case Checking => case _ => }
  }

  /** A step leaves the producer asleep with reason to wake and nobody to wake it if and only if it is one of those. */
  lemma ExactlyStolen(x: Shared, a: Action)
    requires WakeLaw(x.edge, Consumed) && Can(x, a)
    ensures WakeLaw(Do(x, a).edge, Consumed) <==> !Steals(x, a)
  {
    match a
    case OnEdge(step) =>
      if step.Produce? {
        ProduceOwes(x.edge);
      } else if step.Consume? {
        ConsumeOwes(x);
      } else if step.Help? {
        HelpOwes(x, step.id);
      } else if step.RaiseFinish? {
        RaiseOwes(x.edge, step.id, step.event);
      } else {
        OtherOwes(x.edge, step);
      }
    case Drain => DrainOwes(x);
    case _ =>
  }

  ghost predicate RunOf(xs: seq<Shared>, acts: seq<Action>) {
    && |xs| == |acts| + 1 && Init(xs[0].edge) && xs[0].drain.NotDraining?
    && forall k :: 0 <= k < |acts| ==> Can(xs[k], acts[k]) && xs[k + 1] == Do(xs[k], acts[k])
  }

  lemma {:induction false} WakesUntilStolen(xs: seq<Shared>, acts: seq<Action>, k: nat)
    requires RunOf(xs, acts) && k <= |acts| && forall j :: 0 <= j < k ==> !Steals(xs[j], acts[j])
    ensures WakeLaw(xs[k].edge, Consumed)
  {
    if k > 0 {
      WakesUntilStolen(xs, acts, k - 1);
      assert xs[k - 1 + 1] == Do(xs[k - 1], acts[k - 1]);
      ExactlyStolen(xs[k - 1], acts[k - 1]);
    }
  }

  /** Over any run the producer is always notified when it has reason to wake, if and only if no step stole a wake-up. */
  lemma WakesUnlessStolen(xs: seq<Shared>, acts: seq<Action>)
    requires RunOf(xs, acts)
    ensures (forall k :: 0 <= k <= |acts| ==> WakeLaw(xs[k].edge, Consumed)) <==>
            (forall k :: 0 <= k < |acts| ==> !Steals(xs[k], acts[k]))
  {
    if forall k :: 0 <= k <= |acts| ==> WakeLaw(xs[k].edge, Consumed) {
      forall k | 0 <= k < |acts|
        ensures !Steals(xs[k], acts[k])
      {
        assert xs[k + 1] == Do(xs[k], acts[k]) && WakeLaw(xs[k + 1].edge, Consumed);
        ExactlyStolen(xs[k], acts[k]);
      }
    } else if forall k :: 0 <= k < |acts| ==> !Steals(xs[k], acts[k]) {
      forall k | 0 <= k <= |acts|
        ensures WakeLaw(xs[k].edge, Consumed)
      {
        WakesUntilStolen(xs, acts, k);
      }
    }
  }

  /** While nobody drains it is the edge of EdgeProtocol, where no wake-up is lost. */
  lemma {:induction false} UndrainedIsEdge(xs: seq<Shared>, acts: seq<Action>, k: nat)
    requires RunOf(xs, acts) && k <= |acts| && forall j :: 0 <= j < k ==> !acts[j].StartDrain?
    ensures xs[k].drain.NotDraining? && Reachable(xs[k].edge)
  {
    if k > 0 {
      UndrainedIsEdge(xs, acts, k - 1);
      assert Can(xs[k - 1], acts[k - 1]) && xs[k - 1 + 1] == Do(xs[k - 1], acts[k - 1]);
    }
  }

  // ------------------------------------------------------------------ a run that loses one

  /** An edge for a single item, with a producer that has put one and waits to put another. */
  function Small(queue: seq<Item>, occupied: int, taken: nat, produced: Ev, consumed: Ev, producer: ProducerPc,
                 item: Item, consumer: ConsumerPc, accepted: seq<Item>, removed: seq<Removal>): State
  {
    State(Data(1, queue, occupied, |accepted|, taken, produced, consumed, false, false, false, false),
          producer, item, true, consumer, Dequeue, map[], accepted, removed)
  }

  lemma Goes(x: Shared, a: Action) returns (y: Shared)
    requires Happens(x) && Can(x, a)
    ensures Happens(y) && y == Do(x, a)
  {
    y := Do(x, a);
  }

  lemma Steps(x: Shared, step: Step) returns (y: Shared)
    requires Happens(x) && Enabled(x.edge, step)
    ensures Happens(y) && y == Shared(Apply(x.edge, step), x.drain)
  {
    y := Goes(x, OnEdge(step));
  }

  lemma Queues(a: Item) returns (x: Shared)
    ensures Happens(x)
    ensures x == Shared(Small([a], 0, 0, Ev(0, false), Ev(0, false), PCountOccupied, a, CIdle, [a], [])
                          .(data := Data(1, [a], 0, 0, 0, Ev(0, false), Ev(0, false), false, false, false, false)),
                        NotDraining)
  {
    x := Shared(Small([], 0, 0, Ev(0, false), Ev(0, false), PIdle, a, CIdle, [], []), NotDraining);
    assert Happens(x);
    x := Steps(x, StartEnqueue(a, true));
    x := Steps(x, Produce);
    x := Steps(x, Produce);
    assert x.edge.data.queue == [a] && x.edge.accepted == [a];
  }

  lemma PutsOne(a: Item) returns (x: Shared)
    ensures Happens(x)
    ensures x == Shared(Small([a], 1, 0, Ev(1, true), Ev(0, false), PIdle, a, CIdle, [a], []), NotDraining)
  {
    x := Queues(a);
    x := Steps(x, Produce);
    x := Steps(x, Produce);
    x := Steps(x, Produce);
    x := Steps(x, Produce);
  }

  /** The producer waits for room, and a drain for the queue to run empty. */
  lemma BothWait(a: Item, b: Item) returns (x: Shared)
    ensures Happens(x)
    ensures x == Shared(Small([a], 1, 0, Ev(1, true), Ev(0, false), PPoll, b, CIdle, [a], []), Polling)
  {
    x := PutsOne(a);
    x := Steps(x, StartEnqueue(b, true));
    x := Steps(x, Produce);
    assert x == Shared(Small([a], 1, 0, Ev(1, true), Ev(0, false), PTryQueue, b, CIdle, [a], []), NotDraining);
    x := Steps(x, Produce);
    x := Steps(x, Produce);
    assert x == Shared(Small([a], 1, 0, Ev(1, true), Ev(0, false), PPoll, b, CIdle, [a], []), NotDraining);
    x := Goes(x, StartDrain);
    x := Goes(x, Drain);
  }

  lemma TakesFirst(a: Item, b: Item) returns (x: Shared)
    ensures Happens(x)
    ensures x == Shared(Small([], 1, 0, Ev(1, true), Ev(0, false), PPoll, b, CCountOccupied(false), [a], [Removal(a, true)]),
                        Polling)
  {
    x := BothWait(a, b);
    x := Steps(x, StartCall(Dequeue));
    x := Steps(x, Consume);
    x := Steps(x, Consume);
    assert x.edge.data.queue == [] && x.edge.removed == [Removal(a, true)];
  }

  /** The item is taken, and the signal of that is there for either to read. */
  lemma TakesIt(a: Item, b: Item) returns (x: Shared)
    ensures Happens(x)
    ensures x == Shared(Small([], 0, 1, Ev(1, true), Ev(1, true), PPoll, b, CIdle, [a], [Removal(a, true)]), Polling)
  {
    x := TakesFirst(a, b);
    x := Steps(x, Consume);
    x := Steps(x, Consume);
    assert x == Shared(Small([], 0, 1, Ev(1, true), Ev(0, false), PPoll, b, CExchange(false), [a], [Removal(a, true)]), Polling);
    x := Steps(x, Consume);
    x := Steps(x, Consume);
  }

  /** The drain reads it, and is done. */
  lemma DrainReads(a: Item, b: Item) returns (x: Shared)
    ensures Happens(x)
    ensures x == Shared(Small([], 0, 1, Ev(1, true), Ev(0, false), PPoll, b, CIdle, [a], [Removal(a, true)]), NotDraining)
  {
    x := TakesIt(a, b);
    x := Goes(x, Drain);
    x := Goes(x, Drain);
    x := Goes(x, Drain);
    x := Goes(x, Drain);
  }

  lemma ComesBack(a: Item, b: Item) returns (x: Shared)
    ensures Happens(x)
    ensures x == Shared(Small([], 0, 1, Ev(1, true), Ev(0, false), PPoll, b, CPoll, [a], [Removal(a, true)]), NotDraining)
  {
    x := DrainReads(a, b);
    x := Steps(x, StartCall(Dequeue));
    x := Steps(x, Consume);
    x := Steps(x, Consume);
    x := Steps(x, Consume);
  }

  lemma ReadsTheOld(a: Item, b: Item) returns (x: Shared)
    ensures Happens(x)
    ensures x == Shared(Small([], 0, 1, Ev(0, true), Ev(0, false), PPoll, b, CClear, [a], [Removal(a, true)]), NotDraining)
  {
    x := ComesBack(a, b);
    x := Steps(x, Consume);
    assert x == Shared(Small([], 0, 1, Ev(1, true), Ev(0, false), PPoll, b, CRead, [a], [Removal(a, true)]), NotDraining);
    x := Steps(x, Consume);
  }

  lemma LooksAgain(a: Item, b: Item) returns (x: Shared)
    ensures Happens(x)
    ensures x == Shared(Small([], 0, 1, Ev(0, false), Ev(0, false), PPoll, b, CCheckFinish, [a], [Removal(a, true)]), NotDraining)
  {
    x := ReadsTheOld(a, b);
    x := Steps(x, Consume);
    assert x == Shared(Small([], 0, 1, Ev(0, false), Ev(0, false), PPoll, b, CTake, [a], [Removal(a, true)]), NotDraining);
    x := Steps(x, Consume);
  }

  /**
    The consumer comes for the next item and sleeps. There is room, the producer sleeps all the same, nobody
    drains or signals any more, and neither side can move.
   */
  lemma BothSleepForGood(a: Item, b: Item) returns (x: Shared)
    ensures Happens(x) && x.drain.NotDraining? && x.edge.helpers == map[]
    ensures Asleep(x.edge, Consumed) && QueueReady(x.edge, Consumed) && !SignalPending(x.edge, Consumed)
    ensures Asleep(x.edge, Produced) && !Enabled(x.edge, Produce) && !Enabled(x.edge, Consume)
  {
    x := LooksAgain(a, b);
    x := Steps(x, Consume);
  }
}
