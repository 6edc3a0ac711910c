/**
  The data of one edge of the media graph: a bounded queue between one producer and one consumer,
  its counters and flags, over the two coalescing events its sides sleep on.

  The functions describe one atomic action or one uninterrupted call each; the classes carry the
  same state in fields, and their methods are proved against those functions.
 */
module EdgeData {
  import opened EventFd

  /** Frames are opaque here: an item is its identity. */
  type Item = int

  // ------------------------------------------------------------------ the edge

  datatype Data = Data(
    capacity: nat,
    queue: seq<Item>,
    occupied: int,
    enqueuedTotal: nat,
    dequeuedTotal: nat,
    produced: Ev,
    consumed: Ev,
    flushing: bool,
    flushed: bool,
    finishProducer: bool,
    finishConsumer: bool)
  {
    predicate Idle() {
      && |queue| <= capacity
      && occupied == |queue|
      && enqueuedTotal == dequeuedTotal + |queue|
    }
  }

  datatype Attempt = Attempt(data: Data, ok: bool)

  /** try_enqueue(): while flushing the item is dropped, and the call succeeds all the same. */
  function Offered(d: Data, x: Item): Attempt {
    if d.flushing then
      Attempt(d.(produced := d.produced.Signalled()), true)
    else if |d.queue| < d.capacity then
      Attempt(d.(queue := d.queue + [x], occupied := d.occupied + 1,
                 enqueuedTotal := d.enqueuedTotal + 1, produced := d.produced.Signalled()), true)
    else
      Attempt(d, false)
  }

  /** popInternal(), and try_dequeue() with its item: one item leaves, and the producer is told. */
  function PopOne(d: Data): Attempt {
    if d.queue == [] then
      Attempt(d, false)
    else
      Attempt(d.(queue := d.queue[1..], occupied := d.occupied - 1,
                 dequeuedTotal := d.dequeuedTotal + 1, consumed := d.consumed.Signalled()), true)
  }

  /** The loop of maybeFlush() and of clear(): everything leaves. */
  function Emptied(d: Data): Data {
    if d.queue == [] then d
    else d.(queue := [], occupied := d.occupied - |d.queue|,
            dequeuedTotal := d.dequeuedTotal + |d.queue|, consumed := d.consumed.Signalled())
  }

  lemma EmptiedFromPopOne(d: Data)
    requires d.queue != []
    ensures Emptied(PopOne(d).data) == Emptied(d)
  {
  }

  function Flushed(d: Data): Data {
    if d.flushing then Emptied(d).(flushed := true) else d
  }

  /** The idle law: with nobody inside a call the counters agree with the queue, and keep agreeing. */
  lemma CallsKeepIdle(d: Data, x: Item)
    requires d.Idle()
    ensures Offered(d, x).data.Idle() && PopOne(d).data.Idle() && Emptied(d).Idle() && Flushed(d).Idle()
    ensures !d.flushing ==> (Offered(d, x).ok <==> d.occupied < d.capacity)
    ensures PopOne(d).ok <==> d.occupied > 0
    ensures Emptied(d).occupied == 0
  {
  }

  class Edge {
    const capacity: nat
    const produced: Event
    const consumed: Event
    var queue: seq<Item>
    var occupied: int
    var enqueuedTotal: nat
    var dequeuedTotal: nat
    var flushing: bool
    var flushed: bool
    var finishProducer: bool
    var finishConsumer: bool

    ghost predicate Valid() {
      produced != consumed && produced.coalesces && consumed.coalesces
    }

    ghost function State(): Data
      reads this, produced, consumed
    {
      Data(capacity, queue, occupied, enqueuedTotal, dequeuedTotal, produced.Value(), consumed.Value(),
           flushing, flushed, finishProducer, finishConsumer)
    }

    constructor (size: nat)
      ensures Valid() && fresh(produced) && fresh(consumed)
      ensures State() == Data(size, [], 0, 0, 0, Ev(0, false), Ev(0, false), false, false, false, false)
      ensures State().Idle()
    {
      capacity := size;
      produced := new Event(true);
      consumed := new Event(true);
      queue, occupied, enqueuedTotal, dequeuedTotal := [], 0, 0, 0;
      flushing, flushed, finishProducer, finishConsumer := false, false, false, false;
    }

    method TryEnqueue(x: Item) returns (r: bool)
      requires Valid()
      modifies this, produced
      ensures Attempt(State(), r) == Offered(old(State()), x)
    {
      if flushing {
        produced.Signal();
        return true;
      }
      r := |queue| < capacity;
      if r {
        queue := queue + [x];
        occupied := occupied + 1;
        enqueuedTotal := enqueuedTotal + 1;
        produced.Signal();
      }
    }

    method PopInternal() returns (r: bool)
      requires Valid()
      modifies this, consumed
      ensures Attempt(State(), r) == PopOne(old(State()))
    {
      if queue == [] {
        return false;
      }
      queue := queue[1..];
      occupied := occupied - 1;
      dequeuedTotal := dequeuedTotal + 1;
      consumed.Signal();
      r := true;
    }

    method TryDequeue() returns (r: bool, x: Item)
      requires Valid()
      modifies this, consumed
      ensures Attempt(State(), r) == PopOne(old(State()))
      ensures r ==> old(queue) == [x] + queue
    {
      x := 0;
      if queue == [] {
        return false, x;
      }
      x := queue[0];
      r := PopInternal();
    }

    method MaybeFlush() returns (r: bool)
      requires Valid()
      modifies this, consumed
      ensures State() == Flushed(old(State()))
      ensures r <==> old(flushing && queue != [])
    {
      r := false;
      if flushing {
        var popped := PopInternal();
        while popped
          invariant popped ==> r || old(queue) != []
          invariant r ==> old(queue) != []
          invariant !popped ==> queue == [] && (old(queue) != [] ==> r)
          invariant Emptied(State()) == Emptied(old(State()))
          invariant flushing
          decreases |queue|, popped
        {
          r := true;
          popped := PopInternal();
        }
        flushed := true;
      }
    }

    method Pop() returns (r: bool)
      requires Valid()
      modifies this, consumed
      ensures State() == PopOne(Flushed(old(State()))).data
      ensures r <==> old(queue) != []
    {
      r := MaybeFlush();
      var popped := PopInternal();
      r := popped || r;
    }

    /** clear(): whatever the flags, the edge ends empty and idle edges stay idle. */
    method Clear()
      requires Valid()
      modifies this, consumed
      ensures State() == if old(flushing) then Flushed(old(State())) else Emptied(old(State()))
      ensures queue == []
    {
      var more := Pop();
      while more
        invariant !more ==> queue == []
        invariant flushing == old(flushing)
        invariant flushing ==> State() == Flushed(old(State()))
        invariant !flushing ==> Emptied(State()) == Emptied(old(State()))
        decreases |queue|, more
      {
        more := Pop();
      }
    }
  }
}
