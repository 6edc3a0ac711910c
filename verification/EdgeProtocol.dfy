/**
  The blocking edge as a state machine: one producer thread, one consumer thread and any number of
  threads raising finish requests, each with a program counter. Every queue operation, flag
  exchange, eventfd write and eventfd read is one step; steps interleave freely.
 */
module EdgeProtocol {
  import opened EdgeData
  import opened EventFd

  // ------------------------------------------------------------------ program counters

  /** enqueue() and try_enqueue(), between their atomic actions. */
  datatype ProducerPc =
    | PIdle
    | PCheckFlushing
    | PTryQueue
    | PCountOccupied
    | PCountTotal
    | PExchange
    | PWrite
    | PCheckFinish
    | PPoll
    | PRead
    | PClear

  /** wait_dequeue(), pop() and wait_peek() without a timeout. */
  datatype Call = Dequeue | Pop | Peek

  /** `flushing` marks an item taken by maybeFlush(), which goes on flushing after it. */
  datatype ConsumerPc =
    | CIdle
    | CCheckFlushing
    | CFlushPop
    | CSetFlushed
    | CTake
    | CCountOccupied(flushing: bool)
    | CCountTotal(flushing: bool)
    | CExchange(flushing: bool)
    | CWrite(flushing: bool)
    | CCheckFinish
    | CPoll
    | CRead
    | CClear
    | CPeekFinish      // after a wait, wait_peek() looks at the stop flag before the queue
    | CPeekAgain

  /** A thread inside finishProducer() or finishConsumer(), its flag already raised. */
  datatype HelperPc = HExchange(event: Side) | HWrite(event: Side)

  /** The two events: Produced wakes the consumer, Consumed wakes the producer. */
  datatype Side = Produced | Consumed

  // ------------------------------------------------------------------ state

  /** An item that left the queue: handed to a dequeue, or dropped by pop() or a flush. */
  datatype Removal = Removal(item: Item, delivered: bool)

  datatype State = State(
    data: Data,
    producer: ProducerPc,
    item: Item,
    blocking: bool,
    consumer: ConsumerPc,
    call: Call,
    helpers: map<nat, HelperPc>,
    accepted: seq<Item>,
    removed: seq<Removal>)
  {
    function Event(e: Side): Ev {
      match e case Produced => data.produced case Consumed => data.consumed
    }

    function SetEvent(e: Side, v: Ev): State {
      match e
      case Produced => this.(data := data.(produced := v))
      case Consumed => this.(data := data.(consumed := v))
    }
  }

  predicate Init(s: State) {
    && s.data.capacity >= 1
    && s.data == Data(s.data.capacity, [], 0, 0, 0, Ev(0, false), Ev(0, false), false, false, false, false)
    && s.producer == PIdle && s.consumer == CIdle && s.helpers == map[]
    && s.accepted == [] && s.removed == []
  }

  // ------------------------------------------------------------------ steps

  datatype Step =
    | StartEnqueue(x: Item, blocks: bool)
    | Produce                                // the producer's next action
    | ProducerSpurious                       // its poll returns without a readable event
    | StartCall(c: Call)
    | Consume
    | ConsumerSpurious
    | RaiseFinish(id: nat, event: Side)      // finishProducer() signals Consumed, finishConsumer() Produced
    | Help(id: nat)
    | SetFlushing(on: bool)
    | ResetFlushed
    | ResetFinish(event: Side)

  predicate Enabled(s: State, step: Step) {
    match step
    case StartEnqueue(_, _) => s.producer.PIdle?
    case Produce => !s.producer.PIdle? && (s.producer.PPoll? ==> s.data.consumed.count > 0)
    case ProducerSpurious => s.producer.PPoll?
    case StartCall(_) => s.consumer.CIdle?
    case Consume => !s.consumer.CIdle? && (s.consumer.CPoll? ==> s.data.produced.count > 0)
    case ConsumerSpurious => s.consumer.CPoll?
    case RaiseFinish(id, _) => id !in s.helpers
    case Help(id) => id in s.helpers
    case SetFlushing(_) => true
    case ResetFlushed => true
    case ResetFinish(_) => true
  }

  function ProducerNext(s: State): State
    requires Enabled(s, Produce)
  {
    var d := s.data;
    match s.producer
    case PCheckFlushing => s.(producer := if d.flushing then PExchange else PTryQueue)
    case PTryQueue =>
      if |d.queue| < d.capacity then
        s.(data := d.(queue := d.queue + [s.item]), accepted := s.accepted + [s.item], producer := PCountOccupied)
      else
        s.(producer := if s.blocking then PCheckFinish else PIdle)
    case PCountOccupied => s.(data := d.(occupied := d.occupied + 1), producer := PCountTotal)
    case PCountTotal => s.(data := d.(enqueuedTotal := d.enqueuedTotal + 1), producer := PExchange)
    case PExchange =>
      s.(data := d.(produced := d.produced.Exchanged()), producer := if d.produced.flag then PIdle else PWrite)
    case PWrite => s.(data := d.(produced := d.produced.Written()), producer := PIdle)
    case PCheckFinish => s.(producer := if d.finishProducer then PIdle else PPoll)
    case PPoll => s.(producer := PRead)
    case PRead => s.(data := d.(consumed := d.consumed.Read()), producer := PClear)
    case PClear => s.(data := d.(consumed := d.consumed.Cleared()), producer := PCheckFlushing)
  }

  function Taken(s: State, delivered: bool, flushing: bool): State
    requires s.data.queue != []
  {
    s.(data := s.data.(queue := s.data.queue[1..]),
       removed := s.removed + [Removal(s.data.queue[0], delivered)],
       consumer := CCountOccupied(flushing))
  }

  function ConsumerNext(s: State): State
    requires Enabled(s, Consume)
  {
    var d := s.data;
    match s.consumer
    case CCheckFlushing => s.(consumer := if d.flushing then CFlushPop else CTake)
    case CFlushPop => if d.queue != [] then Taken(s, false, true) else s.(consumer := CSetFlushed)
    case CSetFlushed => s.(data := d.(flushed := true), consumer := CTake)
    case CTake =>
      if d.queue == [] then
        s.(consumer := if s.call.Pop? then CIdle else CCheckFinish)
      else if s.call.Peek? then
        s.(consumer := CIdle)
      else
        Taken(s, s.call.Dequeue?, false)
    case CCountOccupied(f) => s.(data := d.(occupied := d.occupied - 1), consumer := CCountTotal(f))
    case CCountTotal(f) => s.(data := d.(dequeuedTotal := d.dequeuedTotal + 1), consumer := CExchange(f))
    case CExchange(f) =>
      s.(data := d.(consumed := d.consumed.Exchanged()),
         consumer := if !d.consumed.flag then CWrite(f) else AfterTake(f))
    case CWrite(f) => s.(data := d.(consumed := d.consumed.Written()), consumer := AfterTake(f))
    case CCheckFinish => s.(consumer := if d.finishConsumer then CIdle else CPoll)
    case CPoll => s.(consumer := CRead)
    case CRead => s.(data := d.(produced := d.produced.Read()), consumer := CClear)
    case CClear => s.(data := d.(produced := d.produced.Cleared()), consumer := AfterWait(s.call))
    case CPeekFinish => s.(consumer := if d.finishConsumer then CIdle else CPeekAgain)
    case CPeekAgain => s.(consumer := if d.queue == [] then CPoll else CIdle)
  }

  function AfterTake(flushing: bool): ConsumerPc { if flushing then CFlushPop else CIdle }

  function AfterWait(c: Call): ConsumerPc { if c.Peek? then CPeekFinish else CTake }

  function HelperNext(s: State, id: nat): State
    requires id in s.helpers
  {
    match s.helpers[id]
    case HExchange(e) =>
      s.SetEvent(e, s.Event(e).Exchanged())
       .(helpers := if s.Event(e).flag then s.helpers - {id} else s.helpers[id := HWrite(e)])
    case HWrite(e) => s.SetEvent(e, s.Event(e).Written()).(helpers := s.helpers - {id})
  }

  function Apply(s: State, step: Step): State
    requires Enabled(s, step)
  {
    var d := s.data;
    match step
    case StartEnqueue(x, blocks) => s.(producer := PCheckFlushing, item := x, blocking := blocks)
    case Produce => ProducerNext(s)
    case ProducerSpurious => s.(producer := PCheckFlushing)
    case StartCall(c) => s.(consumer := CCheckFlushing, call := c)
    case Consume => ConsumerNext(s)
    case ConsumerSpurious => s.(consumer := AfterWait(s.call))
    case RaiseFinish(id, e) =>
      s.(data := (match e case Produced => d.(finishConsumer := true) case Consumed => d.(finishProducer := true)),
         helpers := s.helpers[id := HExchange(e)])
    case Help(id) => HelperNext(s, id)
    case SetFlushing(on) => s.(data := d.(flushing := on))
    case ResetFlushed => s.(data := d.(flushed := false))
    case ResetFinish(e) =>
      s.(data := (match e case Produced => d.(finishConsumer := false) case Consumed => d.(finishProducer := false)))
  }

  /** Every state some interleaving leads to. */
  least predicate Reachable[nat](s: State) {
    Init(s) || exists r, step :: Reachable(r) && Enabled(r, step) && s == Apply(r, step)
  }

  // ------------------------------------------------------------------ what every step keeps

  ghost predicate AnyHelper(helpers: map<nat, HelperPc>, pc: HelperPc) {
    exists id :: id in helpers && helpers[id] == pc
  }

  /** A thread is between its exchange, which found the flag clear, and its write. */
  ghost predicate WriterPending(s: State, e: Side) {
    || (e.Produced? && s.producer.PWrite?)
    || (e.Consumed? && s.consumer.CWrite?)
    || AnyHelper(s.helpers, HWrite(e))
  }

  predicate ProducerSignalling(pc: ProducerPc) {
    pc.PCountOccupied? || pc.PCountTotal? || pc.PExchange? || pc.PWrite?
  }

  predicate ConsumerSignalling(pc: ConsumerPc) {
    pc.CCountOccupied? || pc.CCountTotal? || pc.CExchange? || pc.CWrite?
  }

  /** A thread has changed what the waiter waits for and has not finished its signal. */
  ghost predicate SignalPending(s: State, e: Side) {
    || (e.Produced? && ProducerSignalling(s.producer))
    || (e.Consumed? && ConsumerSignalling(s.consumer))
    || AnyHelper(s.helpers, HExchange(e)) || AnyHelper(s.helpers, HWrite(e))
  }

  predicate WaiterClearing(s: State, e: Side) {
    match e case Produced => s.consumer.CClear? case Consumed => s.producer.PClear?
  }

  /** The law of the flag: set means readable, about to be written, or read and about to be cleared. */
  ghost predicate FlagLaw(s: State, e: Side) {
    s.Event(e).flag ==> s.Event(e).count > 0 || WriterPending(s, e) || WaiterClearing(s, e)
  }

  ghost predicate Notified(s: State, e: Side) {
    s.Event(e).count > 0 || SignalPending(s, e)
  }

  /** What would end the wait for the event, and whether the waiter has already seen it missing. */
  predicate QueueReady(s: State, e: Side) {
    match e case Produced => s.data.queue != [] case Consumed => |s.data.queue| < s.data.capacity
  }

  predicate FinishRaised(s: State, e: Side) {
    match e case Produced => s.data.finishConsumer case Consumed => s.data.finishProducer
  }

  predicate SawNotReady(s: State, e: Side) {
    match e
    case Produced => s.consumer.CCheckFinish? || s.consumer.CPoll?
    case Consumed => s.producer.PCheckFinish? || s.producer.PPoll?
  }

  predicate SawNoFinish(s: State, e: Side) {
    match e
    case Produced => s.consumer.CPoll? || s.consumer.CPeekAgain?
    case Consumed => s.producer.PPoll?
  }

  ghost predicate WakeLaw(s: State, e: Side) {
    && (SawNotReady(s, e) && QueueReady(s, e) ==> Notified(s, e))
    && (SawNoFinish(s, e) && FinishRaised(s, e) ==> Notified(s, e))
  }

  function Items(r: seq<Removal>): seq<Item> {
    if r == [] then [] else Items(r[..|r| - 1]) + [r[|r| - 1].item]
  }

  /** Accepted items leave in the order they came. */
  predicate Fifo(accepted: seq<Item>, removed: seq<Removal>, queue: seq<Item>) {
    accepted == Items(removed) + queue && |accepted| == |removed| + |queue|
  }

  /** The counters lag the queue by the updates in flight. */
  predicate Counted(s: State) {
    var d := s.data;
    && 1 <= d.capacity && |d.queue| <= d.capacity
    && d.enqueuedTotal == |s.accepted| - (if s.producer.PCountOccupied? || s.producer.PCountTotal? then 1 else 0)
    && d.dequeuedTotal == |s.removed| - (if s.consumer.CCountOccupied? || s.consumer.CCountTotal? then 1 else 0)
    && d.occupied ==
       |d.queue| - (if s.producer.PCountOccupied? then 1 else 0) + (if s.consumer.CCountOccupied? then 1 else 0)
  }

  ghost predicate Inv(s: State) {
    && Fifo(s.accepted, s.removed, s.data.queue) && Counted(s)
    && EventLaws(s, Produced) && EventLaws(s, Consumed)
  }

  lemma FifoAccepts(accepted: seq<Item>, removed: seq<Removal>, queue: seq<Item>, x: Item)
    requires Fifo(accepted, removed, queue)
    ensures Fifo(accepted + [x], removed, queue + [x])
  {
    assert accepted + [x] == Items(removed) + (queue + [x]);
  }

  lemma FifoRemoves(accepted: seq<Item>, removed: seq<Removal>, queue: seq<Item>, delivered: bool)
    requires Fifo(accepted, removed, queue) && queue != []
    ensures Fifo(accepted, removed + [Removal(queue[0], delivered)], queue[1..])
  {
    var after := removed + [Removal(queue[0], delivered)];
    assert after[..|after| - 1] == removed;
    assert Items(after) + queue[1..] == Items(removed) + ([queue[0]] + queue[1..]);
    assert [queue[0]] + queue[1..] == queue;
  }

  lemma FifoProduce(s: State)
    requires Fifo(s.accepted, s.removed, s.data.queue) && Enabled(s, Produce)
    ensures var t := ProducerNext(s); Fifo(t.accepted, t.removed, t.data.queue)
  {
    match s.producer {
      case PTryQueue => FifoAccepts(s.accepted, s.removed, s.data.queue, s.item);
      case _ =>
    }
  }

  /** The consumer's next step takes the oldest item. */
  predicate TakesNext(s: State) {
    s.data.queue != [] && (s.consumer.CFlushPop? || (s.consumer.CTake? && !s.call.Peek?))
  }

  lemma OthersTakeNothing(s: State)
    requires Enabled(s, Consume) && !TakesNext(s)
    ensures var t := ConsumerNext(s);
      t.accepted == s.accepted && t.removed == s.removed && t.data.queue == s.data.queue
  {
    match s.consumer { case CTake => case _ => }
  }

  lemma FifoConsume(s: State)
    requires Fifo(s.accepted, s.removed, s.data.queue) && Enabled(s, Consume)
    ensures var t := ConsumerNext(s); Fifo(t.accepted, t.removed, t.data.queue)
  {
    if TakesNext(s) {
      FifoRemoves(s.accepted, s.removed, s.data.queue, s.consumer.CTake? && s.call.Dequeue?);
    } else {
      OthersTakeNothing(s);
    }
  }

  lemma CountedConsume(s: State)
    requires Counted(s) && Enabled(s, Consume)
    ensures Counted(ConsumerNext(s))
  {
    match s.consumer { case CTake => case _ => }
  }

  lemma CountedProduce(s: State)
    requires Counted(s) && Enabled(s, Produce)
    ensures Counted(ProducerNext(s))
  {
    match s.producer { case PTryQueue => case _ => }
  }

  predicate SameItems(s: State, t: State) {
    t.accepted == s.accepted && t.removed == s.removed && t.data.queue == s.data.queue
  }

  lemma CountedHelp(s: State, id: nat)
    requires Counted(s) && id in s.helpers
    ensures Counted(HelperNext(s, id)) && SameItems(s, HelperNext(s, id))
  {
    match s.helpers[id].event { case Produced => case Consumed => }
  }

  lemma CountedOther(s: State, step: Step)
    requires Counted(s) && Enabled(s, step) && !step.Produce? && !step.Consume? && !step.Help?
    ensures Counted(Apply(s, step)) && SameItems(s, Apply(s, step))
  {
    match step {
      case RaiseFinish(_, e) => match e { case Produced => case Consumed => }
      case ResetFinish(e) => match e { case Produced => case Consumed => }
      case _ =>
    }
  }

  /** The two laws of one event. */
  ghost predicate EventLaws(s: State, e: Side) {
    FlagLaw(s, e) && WakeLaw(s, e)
  }

  lemma ProduceSignals(s: State)
    requires EventLaws(s, Produced) && Enabled(s, Produce)
    ensures EventLaws(ProducerNext(s), Produced)
  {
    match s.producer { case PTryQueue => case _ => }
  }

  lemma ProduceWaits(s: State)
    requires EventLaws(s, Consumed) && Enabled(s, Produce)
    ensures EventLaws(ProducerNext(s), Consumed)
  {
    match s.producer { case PTryQueue => case _ => }
  }

  lemma ConsumeSignals(s: State)
    requires EventLaws(s, Consumed) && Enabled(s, Consume)
    ensures EventLaws(ConsumerNext(s), Consumed)
  {
    match s.consumer { case CTake => case _ => }
  }

  lemma ConsumeWaits(s: State)
    requires EventLaws(s, Produced) && Enabled(s, Consume)
    ensures EventLaws(ConsumerNext(s), Produced)
  {
    match s.consumer { case CTake => case _ => }
  }

  lemma HelpersAfterHelp(s: State, id: nat, pc: HelperPc)
    requires id in s.helpers && s.helpers[id] != pc
    ensures AnyHelper(s.helpers, pc) ==> AnyHelper(HelperNext(s, id).helpers, pc)
  {
    var t := HelperNext(s, id);
    if AnyHelper(s.helpers, pc) {
      var other :| other in s.helpers && s.helpers[other] == pc;
      assert other in t.helpers && t.helpers[other] == pc;
    }
  }

  lemma HelperExchanges(s: State, id: nat, e: Side)
    requires EventLaws(s, e) && id in s.helpers && s.helpers[id].HExchange?
    ensures EventLaws(HelperNext(s, id), e)
  {
    var t := HelperNext(s, id);
    HelpersAfterHelp(s, id, HWrite(e));
    if s.helpers[id] != HExchange(e) {
      HelpersAfterHelp(s, id, HExchange(e));
    } else if !s.Event(e).flag {
      assert t.helpers[id] == HWrite(e);
    }
  }

  lemma HelperWrites(s: State, id: nat, e: Side)
    requires EventLaws(s, e) && id in s.helpers && s.helpers[id].HWrite?
    ensures EventLaws(HelperNext(s, id), e)
  {
    HelpersAfterHelp(s, id, HExchange(e));
    if s.helpers[id] != HWrite(e) {
      HelpersAfterHelp(s, id, HWrite(e));
    }
  }

  lemma EventLawsHelp(s: State, id: nat, e: Side)
    requires EventLaws(s, e) && id in s.helpers
    ensures EventLaws(HelperNext(s, id), e)
  {
    if s.helpers[id].HExchange? {
      HelperExchanges(s, id, e);
    } else {
      HelperWrites(s, id, e);
    }
  }

  lemma EventLawsRaise(s: State, id: nat, on: Side, e: Side)
    requires EventLaws(s, e) && id !in s.helpers
    ensures EventLaws(Apply(s, RaiseFinish(id, on)), e)
  {
    var t := Apply(s, RaiseFinish(id, on));
    assert t.helpers[id] == HExchange(on);
    forall pc | AnyHelper(s.helpers, pc)
      ensures AnyHelper(t.helpers, pc)
    {
      var other :| other in s.helpers && s.helpers[other] == pc;
      assert other in t.helpers && t.helpers[other] == pc;
    }
  }

  lemma EventLawsOther(s: State, step: Step, e: Side)
    requires EventLaws(s, e) && Enabled(s, step)
    requires !step.Produce? && !step.Consume? && !step.Help? && !step.RaiseFinish?
    ensures EventLaws(Apply(s, step), e)
  {
    match step { case SetFlushing(_) => case _ => }
  }

  lemma InvInit(s: State)
    requires Init(s)
    ensures Inv(s)
  {
  }

  lemma InvProduce(s: State)
    requires Inv(s) && Enabled(s, Produce)
    ensures Inv(ProducerNext(s))
  {
    FifoProduce(s);
    CountedProduce(s);
    ProduceSignals(s);
    ProduceWaits(s);
  }

  lemma InvConsume(s: State)
    requires Inv(s) && Enabled(s, Consume)
    ensures Inv(ConsumerNext(s))
  {
    FifoConsume(s);
    CountedConsume(s);
    ConsumeSignals(s);
    ConsumeWaits(s);
  }

  lemma InvOther(s: State, step: Step)
    requires Inv(s) && Enabled(s, step) && !step.Produce? && !step.Consume?
    ensures Inv(Apply(s, step))
  {
    if step.Help? {
      CountedHelp(s, step.id);
      EventLawsHelp(s, step.id, Produced);
      EventLawsHelp(s, step.id, Consumed);
    } else if step.RaiseFinish? {
      CountedOther(s, step);
      EventLawsRaise(s, step.id, step.event, Produced);
      EventLawsRaise(s, step.id, step.event, Consumed);
    } else {
      CountedOther(s, step);
      EventLawsOther(s, step, Produced);
      EventLawsOther(s, step, Consumed);
    }
  }

  lemma InvKept(s: State, step: Step)
    requires Inv(s) && Enabled(s, step)
    ensures Inv(Apply(s, step))
  {
    if step.Produce? {
      InvProduce(s);
    } else if step.Consume? {
      InvConsume(s);
    } else {
      InvOther(s, step);
    }
  }

  least lemma ReachableInv[nat](s: State)
    requires Reachable(s)
    ensures Inv(s)
  {
    if Init(s) {
      InvInit(s);
    } else {
      var r, step :| Reachable(r) && Enabled(r, step) && s == Apply(r, step);
      ReachableInv(r);
      InvKept(r, step);
    }
  }

  // ------------------------------------------------------------------ main results

  predicate Asleep(s: State, e: Side) {
    && s.Event(e).count == 0
    && match e case Produced => s.consumer.CPoll? case Consumed => s.producer.PPoll?
  }

  /**
    No wake-up is lost, in any interleaving: a side asleep with nothing to read has nothing to wake
    for, or some thread is still in the middle of the signal that will wake it.
   */
  lemma NoWakeupLost(s: State, e: Side)
    requires Reachable(s) && Asleep(s, e)
    ensures (!QueueReady(s, e) && !FinishRaised(s, e)) || SignalPending(s, e)
  {
    ReachableInv(s);
  }

  /** A set flag never lies: the counter is readable, about to be, or was read and the flag is about to go. */
  lemma FlagTellsTheTruth(s: State, e: Side)
    requires Reachable(s) && s.Event(e).flag
    ensures s.Event(e).count > 0 || WriterPending(s, e) || WaiterClearing(s, e)
  {
    ReachableInv(s);
  }

  ghost predicate HelperSignals(helpers: map<nat, HelperPc>, e: Side) {
    exists id :: id in helpers && helpers[id].event == e
  }

  /**
    Producer and consumer are never both asleep for good: a finish request is still signalling, to the
    consumer when there is something to take and to the producer when there is room.
   */
  lemma NeverBothAsleep(s: State)
    requires Reachable(s) && Asleep(s, Produced) && Asleep(s, Consumed)
    ensures s.data.queue != [] ==> HelperSignals(s.helpers, Produced)
    ensures |s.data.queue| < s.data.capacity ==> HelperSignals(s.helpers, Consumed)
    ensures HelperSignals(s.helpers, Produced) || HelperSignals(s.helpers, Consumed)
  {
    ReachableInv(s);
  }

  /** Without a finish request under way they are never both asleep at all. */
  lemma SomebodyAwake(s: State)
    requires Reachable(s) && s.helpers == map[]
    ensures !Asleep(s, Produced) || !Asleep(s, Consumed)
  {
    if Asleep(s, Produced) && Asleep(s, Consumed) {
      NeverBothAsleep(s);
    }
  }

  /** Delivered items, oldest first. */
  function Delivered(r: seq<Removal>): seq<Item> {
    if r == [] then []
    else Delivered(r[..|r| - 1]) + (if r[|r| - 1].delivered then [r[|r| - 1].item] else [])
  }

  /** `at` places the items of `sub` in `all`, in order and each at a place of its own. */
  ghost predicate Embeds(sub: seq<Item>, all: seq<Item>, at: seq<nat>) {
    && |at| == |sub|
    && (forall i :: 0 <= i < |at| ==> at[i] < |all| && all[at[i]] == sub[i])
    && (forall i, j :: 0 <= i < j < |at| ==> at[i] < at[j])
  }

  lemma {:induction false} DeliveredEmbeds(r: seq<Removal>) returns (at: seq<nat>)
    ensures Embeds(Delivered(r), Items(r), at)
  {
    if r == [] {
      at := [];
    } else {
      var before := DeliveredEmbeds(r[..|r| - 1]);
      at := if r[|r| - 1].delivered then before + [|Items(r[..|r| - 1])|] else before;
    }
  }

  /**
    Over any interleaving of enqueues, dequeues, pops and flushes: what was delivered is a
    subsequence of what was accepted, in order and without duplicates, and what left is exactly
    the accepted items before the queue.
   */
  lemma DeliveredInOrder(s: State) returns (at: seq<nat>)
    requires Reachable(s)
    ensures Embeds(Delivered(s.removed), s.accepted, at)
    ensures s.accepted == Items(s.removed) + s.data.queue
  {
    ReachableInv(s);
    at := DeliveredEmbeds(s.removed);
  }

  /** Seen from any thread, at any time, the counters differ from the queue by the updates in flight only. */
  lemma CountersLagInFlight(s: State)
    requires Reachable(s)
    ensures var d := s.data;
      && |d.queue| <= d.capacity && -1 <= d.occupied - |d.queue| <= 1
      && -1 <= (d.enqueuedTotal - d.dequeuedTotal) - |d.queue| <= 1 && d.dequeuedTotal <= |s.removed|
  {
    ReachableInv(s);
  }

  /** With both sides idle the counters are exact. */
  lemma CountersExactWhenIdle(s: State)
    requires Reachable(s) && s.producer.PIdle? && s.consumer.CIdle?
    ensures s.data.Idle()
    ensures s.data.enqueuedTotal == |s.accepted| && s.data.dequeuedTotal == |s.removed|
  {
    ReachableInv(s);
  }

  // ------------------------------------------------------------------ uninterrupted calls

  function ProducerRun(s: State): State
    requires s.producer in {PCheckFlushing, PTryQueue, PCountOccupied, PCountTotal, PExchange, PWrite}
    requires !s.blocking
    decreases match s.producer
              case PCheckFlushing => 6 case PTryQueue => 5 case PCountOccupied => 4
              case PCountTotal => 3 case PExchange => 2 case _ => 1
  {
    var t := ProducerNext(s);
    if t.producer.PIdle? then t else ProducerRun(t)
  }

  lemma SoloSignal(s: State)
    requires s.producer.PExchange? && !s.blocking
    ensures ProducerRun(s).data == s.data.(produced := s.data.produced.Signalled())
  {
    var t := ProducerNext(s);
    if !t.producer.PIdle? {
      assert ProducerRun(s) == ProducerRun(t);
    }
  }

  lemma SoloPut(s: State)
    requires s.producer.PTryQueue? && !s.blocking && !s.data.flushing
    ensures ProducerRun(s).data == Offered(s.data, s.item).data
  {
    var s1 := ProducerNext(s);
    if !s1.producer.PIdle? {
      var s2 := ProducerNext(s1);
      var s3 := ProducerNext(s2);
      assert ProducerRun(s) == ProducerRun(s1);
      assert ProducerRun(s1) == ProducerRun(s2);
      assert ProducerRun(s2) == ProducerRun(s3);
      SoloSignal(s3);
    }
  }

  /** A try_enqueue() nobody interrupts does to the edge exactly what the sequential method does. */
  lemma SoloTryEnqueue(s: State, x: Item)
    requires s.producer.PIdle?
    ensures ProducerRun(Apply(s, StartEnqueue(x, false))).data == Offered(s.data, x).data
  {
    var s1 := Apply(s, StartEnqueue(x, false));
    var s2 := ProducerNext(s1);
    assert ProducerRun(s1) == ProducerRun(s2);
    if s.data.flushing {
      SoloSignal(s2);
    } else {
      SoloPut(s2);
    }
  }
}
