/**
  What the consumer's calls on an edge do: which step hands an item over and which discard one, and that the
  atomic steps of a call nobody interrupts add up to the sequential call.
 */
module EdgeCalls {
  import opened EdgeData
  import opened EdgeProtocol
  import opened EventFd

  // ------------------------------------------------------------------ what leaves the queue, step by step

  /** The step by which a dequeue hands the oldest item to its caller. */
  predicate HandsOver(s: State, step: Step) {
    step.Consume? && s.consumer.CTake? && s.call.Dequeue? && s.data.queue != []
  }

  /** The steps by which a pop or a flush discards it. */
  predicate Discards(s: State, step: Step) {
    step.Consume? && s.data.queue != [] && (s.consumer.CFlushPop? || (s.consumer.CTake? && s.call.Pop?))
  }

  /**
    Whatever the interleaving, an item leaves the queue by those steps only, the oldest first; it counts as
    delivered exactly when it was handed over, and a peek takes nothing.
   */
  lemma LeavesExactly(s: State, step: Step)
    requires Enabled(s, step)
    ensures var t := Apply(s, step);
      if HandsOver(s, step) then
        t.removed == s.removed + [Removal(s.data.queue[0], true)] && t.data.queue == s.data.queue[1..]
      else if Discards(s, step) then
        t.removed == s.removed + [Removal(s.data.queue[0], false)] && t.data.queue == s.data.queue[1..]
      else t.removed == s.removed && s.data.queue <= t.data.queue
  {
    match step {
      case Produce => match s.producer { case PTryQueue => case _ => }
      case Consume => match s.consumer { case CTake => case _ => }
      case Help(id) => match s.helpers[id].event { case Produced => case Consumed => }
      case _ =>
    }
  }

  /** An item enters only by the producer's try on a queue with room, and is the one it was given. */
  lemma EntersExactly(s: State, step: Step)
    requires Enabled(s, step)
    ensures var t := Apply(s, step);
      if step.Produce? && s.producer.PTryQueue? && |s.data.queue| < s.data.capacity then
        t.data.queue == s.data.queue + [s.item] && t.accepted == s.accepted + [s.item]
      else t.accepted == s.accepted && |t.data.queue| <= |s.data.queue|
    ensures Apply(s, step).item == if step.StartEnqueue? then step.x else s.item
  {
    match step {
      case Produce => match s.producer { case PTryQueue => case _ => }
      case Consume => match s.consumer { case CTake => case _ => }
      case Help(id) => match s.helpers[id].event { case Produced => case Consumed => }
      case _ =>
    }
  }

  /** The flags after a step: a finish request stays up until it is reset. */
  predicate FlagsAfter(s: State, step: Step, e: Data)
    requires Enabled(s, step)
  {
    var d := s.data;
    && e.flushing == (if step.SetFlushing? then step.on else d.flushing)
    && e.flushed == (if step.ResetFlushed? then false else d.flushed || (step.Consume? && s.consumer.CSetFlushed?))
    && e.finishConsumer == (if step.RaiseFinish? && step.event.Produced? then true
                            else if step.ResetFinish? && step.event.Produced? then false else d.finishConsumer)
    && e.finishProducer == (if step.RaiseFinish? && step.event.Consumed? then true
                            else if step.ResetFinish? && step.event.Consumed? then false else d.finishProducer)
  }

  lemma FlagsProduce(s: State)
    requires Enabled(s, Produce)
    ensures FlagsAfter(s, Produce, ProducerNext(s).data) && ProducerNext(s).data.capacity == s.data.capacity
  {
    match s.producer { case PTryQueue => case _ => }
  }

  lemma FlagsConsume(s: State)
    requires Enabled(s, Consume)
    ensures FlagsAfter(s, Consume, ConsumerNext(s).data) && ConsumerNext(s).data.capacity == s.data.capacity
  {
    match s.consumer { case CTake => case _ => }
  }

  lemma FlagsHelp(s: State, id: nat)
    requires Enabled(s, Help(id))
    ensures FlagsAfter(s, Help(id), HelperNext(s, id).data) && HelperNext(s, id).data.capacity == s.data.capacity
  {
    match s.helpers[id].event { case Produced => case Consumed => }
  }

  /** Who raises and lowers which flag; and the capacity never changes. */
  lemma FlagsExactly(s: State, step: Step)
    requires Enabled(s, step)
    ensures FlagsAfter(s, step, Apply(s, step).data) && Apply(s, step).data.capacity == s.data.capacity
  {
    if step.Produce? {
      FlagsProduce(s);
    } else if step.Consume? {
      FlagsConsume(s);
    } else if step.Help? {
      FlagsHelp(s, step.id);
    } else {
      match step { case RaiseFinish(_, e) => match e { case Produced => case Consumed => } case _ => }
    }
  }

  // ------------------------------------------------------------------ why a call comes back

  /** The last action of a signal: the flag was set before, or the counter has been written. */
  predicate ProducerSignalled(s: State) {
    s.producer.PWrite? || (s.producer.PExchange? && s.data.produced.flag)
  }

  /**
    An enqueue comes back when it has signalled its item, or the drop of it; without waiting when the queue is full;
    and a waiting one only when the producer is told to stop. After a wait it looks at the flushing flag anew.
   */
  lemma ProducerReturns(s: State, step: Step)
    requires Enabled(s, step) && !s.producer.PIdle?
    ensures Apply(s, step).producer.PIdle? <==>
      step.Produce? && (ProducerSignalled(s)
                        || (s.producer.PTryQueue? && |s.data.queue| >= s.data.capacity && !s.blocking)
                        || (s.producer.PCheckFinish? && s.data.finishProducer))
    ensures Apply(s, step).blocking == s.blocking
    ensures (s.producer.PClear? && step.Produce?) || step.ProducerSpurious? ==> Apply(s, step).producer.PCheckFlushing?
  {
    match step {
      case Produce => match s.producer { case PTryQueue => case _ => }
      case Consume => match s.consumer { case CTake => case _ => }
      case Help(id) => match s.helpers[id].event { case Produced => case Consumed => }
      case _ =>
    }
  }

  predicate ConsumerSignalled(s: State) {
    s.consumer == CWrite(false) || (s.consumer == CExchange(false) && s.data.consumed.flag)
  }

  /**
    A call of the consumer comes back when it has taken an item and signalled that; a pop also from an empty queue, a
    peek also from one that holds something; and a waiting call only when the consumer is told to stop. A peek that
    has waited looks at that first.
   */
  lemma ConsumerReturns(s: State, step: Step)
    requires Enabled(s, step) && !s.consumer.CIdle?
    ensures Apply(s, step).consumer.CIdle? <==>
      step.Consume? && (ConsumerSignalled(s)
                        || (s.consumer.CTake? && (if s.data.queue == [] then s.call.Pop? else s.call.Peek?))
                        || (s.consumer.CPeekAgain? && s.data.queue != [])
                        || ((s.consumer.CCheckFinish? || s.consumer.CPeekFinish?) && s.data.finishConsumer))
    ensures Apply(s, step).call == s.call
    ensures (s.consumer.CClear? && step.Consume?) || step.ConsumerSpurious? ==>
      Apply(s, step).consumer == if s.call.Peek? then CPeekFinish else CTake
  {
    match step {
      case Produce => match s.producer { case PTryQueue => case _ => }
      case Consume => match s.consumer { case CTake => case _ => }
      case Help(id) => match s.helpers[id].event { case Produced => case Consumed => }
      case _ =>
    }
  }

  /** A finish request that finds a side waiting for the queue ends its call as soon as it looks again. */
  lemma FinishEnds(s: State)
    ensures s.consumer.CTake? && s.data.queue == [] && !s.call.Pop? && s.data.finishConsumer ==>
      ConsumerNext(ConsumerNext(s)) == s.(consumer := CIdle)
    ensures s.producer.PTryQueue? && |s.data.queue| >= s.data.capacity && s.blocking && s.data.finishProducer ==>
      ProducerNext(ProducerNext(s)) == s.(producer := PIdle)
  {
  }

  // ------------------------------------------------------------------ uninterrupted calls of the consumer

  /** The call has returned, or waits for an item. */
  predicate Rests(s: State) {
    s.consumer.CIdle? || s.consumer.CPoll?
  }

  predicate Running(s: State) {
    !Rests(s) && !s.consumer.CRead? && !s.consumer.CClear? && !s.consumer.CPeekFinish? && !s.consumer.CPeekAgain?
  }

  function Left(pc: ConsumerPc): nat {
    match pc
    case CCheckFlushing => 13
    case CCountOccupied(_) => 12 case CCountTotal(_) => 11 case CExchange(_) => 10 case CWrite(_) => 9
    case CFlushPop => 8 case CSetFlushed => 7 case CTake => 6 case _ => 5
  }

  function ConsumerRun(s: State): (t: State)
    requires Running(s)
    ensures Rests(t)
    decreases |s.data.queue|, Left(s.consumer)
  {
    var t := ConsumerNext(s);
    if Rests(t) then t else ConsumerRun(t)
  }

  function Discarded(queue: seq<Item>): (r: seq<Removal>)
    ensures |r| == |queue| && forall i :: 0 <= i < |r| ==> r[i] == Removal(queue[i], false)
  {
    seq(|queue|, i requires 0 <= i < |queue| => Removal(queue[i], false))
  }

  /** The end of a take: counted and signalled. */
  function Counted1(d: Data): Data {
    d.(occupied := d.occupied - 1, dequeuedTotal := d.dequeuedTotal + 1, consumed := d.consumed.Signalled())
  }

  function RunOn(t: State): State
    requires Rests(t) || Running(t)
  {
    if Rests(t) then t else ConsumerRun(t)
  }

  lemma RunStep(s: State, t: State)
    requires Running(s) && t == ConsumerNext(s) && Running(t)
    ensures ConsumerRun(s) == ConsumerRun(t)
  {
  }

  lemma SoloSignalled(s: State, f: bool, t: State)
    requires s.consumer == CExchange(f)
    requires t == s.(data := s.data.(consumed := s.data.consumed.Signalled()), consumer := AfterTake(f))
    ensures ConsumerRun(s) == RunOn(t)
  {
    var s1 := ConsumerNext(s);
    if !s.data.consumed.flag {
      RunStep(s, s1);
      assert ConsumerNext(s1) == t;
    }
  }

  lemma SoloTotalled(s: State, f: bool, t: State)
    requires s.consumer == CCountTotal(f)
    requires t == s.(data := s.data.(dequeuedTotal := s.data.dequeuedTotal + 1, consumed := s.data.consumed.Signalled()),
                     consumer := AfterTake(f))
    ensures ConsumerRun(s) == RunOn(t)
  {
    var s1 := s.(data := s.data.(dequeuedTotal := s.data.dequeuedTotal + 1), consumer := CExchange(f));
    RunStep(s, s1);
    SoloSignalled(s1, f, t);
  }

  lemma SoloCounted(s: State, f: bool, t: State)
    requires s.consumer == CCountOccupied(f) && t == s.(data := Counted1(s.data), consumer := AfterTake(f))
    ensures ConsumerRun(s) == RunOn(t)
  {
    var s1 := s.(data := s.data.(occupied := s.data.occupied - 1), consumer := CCountTotal(f));
    RunStep(s, s1);
    SoloTotalled(s1, f, t);
  }

  function AfterFlush(s: State): State {
    s.(data := Emptied(s.data).(flushed := true), removed := s.removed + Discarded(s.data.queue), consumer := CTake)
  }

  lemma FlushEnds(s: State)
    requires s.consumer.CFlushPop? && s.data.queue == []
    ensures ConsumerRun(s) == ConsumerRun(AfterFlush(s))
  {
    var s1 := ConsumerNext(s);
    assert ConsumerRun(s) == ConsumerRun(s1) == ConsumerRun(ConsumerNext(s1));
    assert s.removed + Discarded([]) == s.removed;
  }

  lemma FlushGoesOn(s: State, t: State)
    requires s.consumer.CFlushPop? && s.data.queue != []
    requires t == s.(data := PopOne(s.data).data, removed := s.removed + [Removal(s.data.queue[0], false)])
    ensures ConsumerRun(s) == ConsumerRun(t)
  {
    var s1 := ConsumerNext(s);
    assert ConsumerRun(s) == ConsumerRun(s1);
    SoloCounted(s1, true, s1.(data := Counted1(s1.data), consumer := CFlushPop));
  }

  lemma Regrouped(a: seq<Removal>, b: seq<Removal>, c: seq<Removal>)
    ensures (a + b) + c == a + (b + c)
  {
  }

  lemma OneDiscarded(removed: seq<Removal>, q: seq<Item>)
    requires q != []
    ensures (removed + [Removal(q[0], false)]) + Discarded(q[1..]) == removed + Discarded(q)
  {
    assert [Removal(q[0], false)] + Discarded(q[1..]) == Discarded(q);
    Regrouped(removed, [Removal(q[0], false)], Discarded(q[1..]));
  }

  lemma SameFlush(s: State, t: State)
    requires s.data.queue != []
    requires t == s.(data := PopOne(s.data).data, removed := s.removed + [Removal(s.data.queue[0], false)])
    ensures AfterFlush(t) == AfterFlush(s)
  {
    EmptiedFromPopOne(s.data);
    OneDiscarded(s.removed, s.data.queue);
  }

  /** maybeFlush(): everything is discarded, and then the take goes on. */
  lemma {:induction false} SoloFlush(s: State)
    requires s.consumer.CFlushPop?
    ensures ConsumerRun(s) == ConsumerRun(AfterFlush(s))
    decreases |s.data.queue|
  {
    if s.data.queue == [] {
      FlushEnds(s);
    } else {
      var t := s.(data := PopOne(s.data).data, removed := s.removed + [Removal(s.data.queue[0], false)]);
      FlushGoesOn(s, t);
      SameFlush(s, t);
      SoloFlush(t);
    }
  }

  /** try_dequeue(), popInternal() or a peek, once flushing is done. */
  lemma SoloTake(s: State)
    requires s.consumer.CTake?
    ensures ConsumerRun(s) ==
      if s.data.queue == [] then
        s.(consumer := if s.call.Pop? || s.data.finishConsumer then CIdle else CPoll)
      else if s.call.Peek? then s.(consumer := CIdle)
      else
        s.(data := PopOne(s.data).data, removed := s.removed + [Removal(s.data.queue[0], s.call.Dequeue?)], consumer := CIdle)
  {
    var s1 := ConsumerNext(s);
    if s.data.queue == [] && !s.call.Pop? {
      assert ConsumerRun(s) == ConsumerRun(s1);
    } else if s.data.queue != [] && !s.call.Peek? {
      assert ConsumerRun(s) == ConsumerRun(s1);
      SoloCounted(s1, false, s1.(data := Counted1(s1.data), consumer := CIdle));
    }
  }

  /** What has left by the time a call looks at the queue. */
  function FlushedAway(d: Data): seq<Removal> {
    if d.flushing then Discarded(d.queue) else []
  }

  lemma SoloCall(s: State, c: Call)
    requires s.consumer.CIdle?
    ensures ConsumerRun(Apply(s, StartCall(c))) ==
      ConsumerRun(s.(data := Flushed(s.data), removed := s.removed + FlushedAway(s.data), call := c, consumer := CTake))
  {
    var s1 := Apply(s, StartCall(c));
    var s2 := ConsumerNext(s1);
    assert ConsumerRun(s1) == ConsumerRun(s2);
    if s.data.flushing {
      SoloFlush(s2);
    } else {
      assert s.removed + [] == s.removed;
    }
  }

  /** An undisturbed wait_dequeue() on an edge that holds something hands out the oldest item, and is told so. */
  lemma SoloDequeue(s: State)
    requires s.consumer.CIdle? && !s.data.flushing && s.data.queue != []
    ensures var t := ConsumerRun(Apply(s, StartCall(Dequeue)));
      && t.consumer.CIdle? && t.data == PopOne(s.data).data
      && t.removed == s.removed + [Removal(s.data.queue[0], true)]
  {
    SoloCall(s, Dequeue);
    SoloTake(s.(data := Flushed(s.data), removed := s.removed + FlushedAway(s.data), call := Dequeue, consumer := CTake));
    assert s.removed + FlushedAway(s.data) == s.removed;
  }

  /** ... and on a flushing or an empty one hands out nothing: it waits, or ends when it was told to. */
  lemma SoloDequeueWaits(s: State)
    requires s.consumer.CIdle? && (s.data.flushing || s.data.queue == [])
    ensures var t := ConsumerRun(Apply(s, StartCall(Dequeue)));
      && t.consumer == (if s.data.finishConsumer then CIdle else CPoll) && t.data == Flushed(s.data)
      && t.removed == s.removed + FlushedAway(s.data)
  {
    SoloCall(s, Dequeue);
    SoloTake(s.(data := Flushed(s.data), removed := s.removed + FlushedAway(s.data), call := Dequeue, consumer := CTake));
  }

  /** An undisturbed pop() does what the sequential method does, and hands out nothing. */
  lemma SoloPop(s: State)
    requires s.consumer.CIdle?
    ensures var t := ConsumerRun(Apply(s, StartCall(Pop))); var d := Flushed(s.data);
      && t.consumer.CIdle? && t.data == PopOne(d).data
      && t.removed == s.removed + FlushedAway(s.data) + (if d.queue == [] then [] else [Removal(d.queue[0], false)])
  {
    SoloCall(s, Pop);
    SoloTake(s.(data := Flushed(s.data), removed := s.removed + FlushedAway(s.data), call := Pop, consumer := CTake));
  }

  /** An undisturbed peek takes nothing but what is flushed, and waits for an item where there is none. */
  lemma SoloPeek(s: State)
    requires s.consumer.CIdle?
    ensures var t := ConsumerRun(Apply(s, StartCall(Peek))); var d := Flushed(s.data);
      && t.data == d && t.removed == s.removed + FlushedAway(s.data)
      && t.consumer == (if d.queue != [] || d.finishConsumer then CIdle else CPoll)
  {
    SoloCall(s, Peek);
    SoloTake(s.(data := Flushed(s.data), removed := s.removed + FlushedAway(s.data), call := Peek, consumer := CTake));
  }
}
