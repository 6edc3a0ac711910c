/**
  The ring buffer between one writing and one reading thread. Each load of the other side's position,
  each copied slot and each published position is one step, in any interleaving. A writeFrom() or
  readTo() that wraps asks for a second segment after it has published the first.
 */
module RingBufferThreads {
  import opened RingBuffer

  type Item = int

  /** `rest` is what a wrapped writeFrom() has still to ask for. */
  datatype Writer =
    | NotWriting
    | Writing(seg: seq<Item>, done: nat, rest: seq<Item>)
    | Regranting(rest: seq<Item>)

  /** `out` is what a wrapped readTo() has copied out of its first segment. */
  datatype Reader =
    | NotReading
    | Reading(count: nat, got: seq<Item>, left: nat, out: seq<Item>)
    | Rereading(left: nat, out: seq<Item>)

  /**
    `sent` is everything published by the writer, `received` everything the reader is done with; `calls`
    the items of every write that was not refused, `wanted` the length of every read that was not, and
    `results` what those that returned had copied out.
   */
  datatype State = State(
    buf: seq<Item>,
    r: nat,
    w: nat,
    writer: Writer,
    reader: Reader,
    sent: seq<Item>,
    received: seq<Item>,
    calls: seq<seq<Item>>,
    wanted: seq<nat>,
    results: seq<seq<Item>>)

  predicate Shaped(s: State) {
    0 < |s.buf| && s.r < |s.buf| && s.w < |s.buf|
  }

  predicate Init(s: State) {
    && Shaped(s) && s.r == 0 && s.w == 0 && s.writer == NotWriting && s.reader == NotReading
    && s.sent == [] && s.received == [] && s.calls == [] && s.wanted == [] && s.results == []
  }

  datatype Step =
    | WriteCall(items: seq<Item>)                          // writeFrom() looks at the reader's position
    | WriterGrants(items: seq<Item>, min: nat, max: nat)   // a direct use of getWriteBuffer()
    | WriterCopies
    | WriterPublishes
    | WriterRegrants
    | ReadCall(count: nat)
    | ReaderGrants(min: nat, max: nat)
    | ReaderCopies
    | ReaderPublishes
    | ReaderRegrants

  function WriteGrant(s: State, min: nat, max: nat): nat
    requires Shaped(s)
  {
    Grant(min, max, s.w, EmptyCount(s.r, s.w, |s.buf|), |s.buf|)
  }

  function ReadGrant(s: State, min: nat, max: nat): nat
    requires Shaped(s)
  {
    Grant(min, max, s.r, FillCount(s.r, s.w, |s.buf|), |s.buf|)
  }

  predicate Enabled(s: State, step: Step) {
    Shaped(s)
    && match step
       case WriteCall(_) => s.writer.NotWriting?
       case WriterGrants(items, min, max) => s.writer.NotWriting? && |items| <= WriteGrant(s, min, max)
       case WriterCopies => s.writer.Writing? && s.writer.done < |s.writer.seg| && s.w + s.writer.done < |s.buf|
       case WriterPublishes => s.writer.Writing? && s.writer.done == |s.writer.seg| && s.writer.done <= |s.buf|
       case WriterRegrants => s.writer.Regranting?
       case ReadCall(_) => s.reader.NotReading?
       case ReaderGrants(_, _) => s.reader.NotReading?
       case ReaderCopies => s.reader.Reading? && |s.reader.got| < s.reader.count && s.r + |s.reader.got| < |s.buf|
       case ReaderPublishes => s.reader.Reading? && |s.reader.got| == s.reader.count && s.reader.count <= |s.buf|
       case ReaderRegrants => s.reader.Rereading?
  }

  function CopyIn(s: State): State
    requires Enabled(s, WriterCopies)
  {
    s.(buf := s.buf[s.w + s.writer.done := s.writer.seg[s.writer.done]], writer := s.writer.(done := s.writer.done + 1))
  }

  function Publish(s: State): State
    requires Enabled(s, WriterPublishes)
  {
    s.(w := Wrap(s.w + s.writer.done, |s.buf|), sent := s.sent + s.writer.seg,
       writer := if s.writer.rest == [] then NotWriting else Regranting(s.writer.rest))
  }

  function Consume(s: State): State
    requires Enabled(s, ReaderPublishes)
  {
    var d := s.reader;
    s.(r := Wrap(s.r + d.count, |s.buf|), received := s.received + d.got,
       reader := if d.left == 0 then NotReading else Rereading(d.left, d.out + d.got),
       results := if d.left == 0 then s.results + [d.out + d.got] else s.results)
  }

  function WriterNext(s: State, step: Step): State
    requires Enabled(s, step)
  {
    match step
    case WriteCall(items) =>
      var n := WriteGrant(s, |items|, |items|);
      if n == 0 then s else s.(writer := Writing(items[..n], 0, items[n..]), calls := s.calls + [items])
    case WriterGrants(items, _, _) => s.(writer := Writing(items, 0, []), calls := s.calls + [items])
    case WriterCopies => CopyIn(s)
    case WriterPublishes => Publish(s)
    case WriterRegrants =>
      var rest := s.writer.rest;
      s.(writer := Writing(rest[..WriteGrant(s, |rest|, |rest|)], 0, []))
    case _ => s
  }

  function ReaderNext(s: State, step: Step): State
    requires Enabled(s, step)
  {
    match step
    case ReadCall(count) =>
      var n := ReadGrant(s, count, count);
      if n == 0 then s else s.(reader := Reading(n, [], count - n, []), wanted := s.wanted + [count])
    case ReaderGrants(min, max) =>
      var n := ReadGrant(s, min, max);
      s.(reader := Reading(n, [], 0, []), wanted := s.wanted + [n])
    case ReaderCopies => s.(reader := s.reader.(got := s.reader.got + [s.buf[s.r + |s.reader.got|]]))
    case ReaderPublishes => Consume(s)
    case ReaderRegrants => s.(reader := Reading(ReadGrant(s, s.reader.left, s.reader.left), [], 0, s.reader.out))
    case _ => s
  }

  predicate OfWriter(step: Step) {
    step.WriteCall? || step.WriterGrants? || step.WriterCopies? || step.WriterPublishes? || step.WriterRegrants?
  }

  function Apply(s: State, step: Step): State
    requires Enabled(s, step)
  {
    if OfWriter(step) then WriterNext(s, step) else ReaderNext(s, step)
  }

  least predicate Reachable[nat](s: State) {
    Init(s) || exists q, step :: Reachable(q) && Enabled(q, step) && s == Apply(q, step)
  }

  // ------------------------------------------------------------------ what every step keeps

  predicate Positions(buf: seq<Item>, r: nat, w: nat) {
    0 < |buf| && r < |buf| && w < |buf|
  }

  /** The segment being written is free and written up to `done`, and there is room for all of the call. */
  predicate WriterLaw(buf: seq<Item>, r: nat, w: nat, writer: Writer)
    requires Positions(buf, r, w)
  {
    match writer
    case NotWriting => true
    case Writing(seg, done, rest) =>
      && done <= |seg| && |seg| + |rest| <= EmptyCount(r, w, |buf|)
      && w + |seg| <= |buf| && (rest != [] ==> w + |seg| == |buf|)
      && forall k :: 0 <= k < done ==> buf[w + k] == seg[k]
    case Regranting(rest) => rest != [] && w == 0 && |rest| <= EmptyCount(r, w, |buf|)
  }

  /** The segment being read is unread, what was read of it are its items, and there is enough for all of the call. */
  predicate ReaderLaw(buf: seq<Item>, r: nat, w: nat, reader: Reader)
    requires Positions(buf, r, w)
  {
    match reader
    case NotReading => true
    case Reading(count, got, left, _) =>
      && |got| <= count && count + left <= FillCount(r, w, |buf|)
      && r + count <= |buf| && (left > 0 ==> r + count == |buf|)
      && got == Contents(buf, r, w)[..|got|]
    case Rereading(left, _) => left > 0 && r == 0 && left <= FillCount(r, w, |buf|)
  }

  predicate FifoLaw(buf: seq<Item>, r: nat, w: nat, sent: seq<Item>, received: seq<Item>)
    requires Positions(buf, r, w)
  {
    sent == received + Contents(buf, r, w)
  }

  function Flat(parts: seq<seq<Item>>): seq<Item> {
    if parts == [] then [] else Flat(parts[..|parts| - 1]) + parts[|parts| - 1]
  }

  /** What the write under way has still to publish. */
  function Outstanding(writer: Writer): seq<Item> {
    match writer
    case NotWriting => []
    case Writing(seg, _, rest) => seg + rest
    case Regranting(rest) => rest
  }

  predicate CallLaw(calls: seq<seq<Item>>, sent: seq<Item>, writer: Writer) {
    Flat(calls) == sent + Outstanding(writer)
  }

  /** What the read under way has published of its first segment, and how much it was asked for. */
  function Given(reader: Reader): seq<Item> {
    match reader case NotReading => [] case Reading(_, _, _, out) => out case Rereading(_, out) => out
  }

  function Asked(reader: Reader): seq<nat> {
    match reader
    case NotReading => []
    case Reading(count, _, left, out) => [|out| + count + left]
    case Rereading(left, out) => [|out| + left]
  }

  function Lengths(parts: seq<seq<Item>>): (r: seq<nat>)
    ensures |r| == |parts| && forall k :: 0 <= k < |r| ==> r[k] == |parts[k]|
  {
    seq(|parts|, k requires 0 <= k < |parts| => |parts[k]|)
  }

  predicate ReadLaw(results: seq<seq<Item>>, wanted: seq<nat>, received: seq<Item>, reader: Reader) {
    received == Flat(results) + Given(reader) && wanted == Lengths(results) + Asked(reader)
  }

  predicate Inv(s: State) {
    && Positions(s.buf, s.r, s.w)
    && WriterLaw(s.buf, s.r, s.w, s.writer) && ReaderLaw(s.buf, s.r, s.w, s.reader)
    && FifoLaw(s.buf, s.r, s.w, s.sent, s.received)
    && CallLaw(s.calls, s.sent, s.writer) && ReadLaw(s.results, s.wanted, s.received, s.reader)
  }

  lemma LengthsOn(parts: seq<seq<Item>>, last: seq<Item>)
    ensures Lengths(parts + [last]) == Lengths(parts) + [|last|]
  {
  }

  lemma FlatOn(parts: seq<seq<Item>>, last: seq<Item>)
    ensures Flat(parts + [last]) == Flat(parts) + last
  {
    assert (parts + [last])[..|parts|] == parts;
  }

  lemma Joined<T>(a: seq<T>, b: seq<T>, c: seq<T>)
    ensures (a + b) + c == a + (b + c)
  {
  }

  lemma Split<T>(a: seq<T>, n: nat)
    requires n <= |a|
    ensures a[..n] + a[n..] == a
  {
  }

  // ------------------------------------------------------------------ the writer's steps

  /** Writing into the granted segment does not touch what is unread. */
  lemma UnreadKept(buf: seq<Item>, r: nat, w: nat, seg: nat, done: nat, x: Item)
    requires Positions(buf, r, w) && done < seg <= EmptyCount(r, w, |buf|) && w + seg <= |buf|
    ensures Contents(buf[w + done := x], r, w) == Contents(buf, r, w)
  {
    var after := buf[w + done := x];
    forall k | 0 <= k < FillCount(r, w, |buf|)
      ensures Contents(after, r, w)[k] == Contents(buf, r, w)[k]
    {
      SegmentIsFree(r, w, |buf|, seg, k);
    }
  }

  /** A reader's law looks at the contents only, and more of them does no harm. */
  lemma ReaderUnharmed(a: seq<Item>, b: seq<Item>, r: nat, v: nat, w: nat, reader: Reader)
    requires Positions(a, r, v) && Positions(b, r, w) && |a| == |b| && ReaderLaw(a, r, v, reader)
    requires Contents(a, r, v) <= Contents(b, r, w)
    ensures ReaderLaw(b, r, w, reader)
  {
    if reader.Reading? {
      var n := |reader.got|;
      assert Contents(b, r, w)[..n] == Contents(a, r, v)[..n];
    }
  }

  lemma CopiedIn(buf: seq<Item>, r: nat, w: nat, seg: seq<Item>, done: nat, rest: seq<Item>)
    requires Positions(buf, r, w) && WriterLaw(buf, r, w, Writing(seg, done, rest)) && done < |seg|
    ensures WriterLaw(buf[w + done := seg[done]], r, w, Writing(seg, done + 1, rest))
  {
  }

  lemma CopyWriter(s: State)
    requires Positions(s.buf, s.r, s.w) && WriterLaw(s.buf, s.r, s.w, s.writer) && Enabled(s, WriterCopies)
    ensures var t := CopyIn(s); Positions(t.buf, t.r, t.w) && WriterLaw(t.buf, t.r, t.w, t.writer)
  {
    CopiedIn(s.buf, s.r, s.w, s.writer.seg, s.writer.done, s.writer.rest);
  }

  lemma CopyReader(s: State)
    requires Positions(s.buf, s.r, s.w) && WriterLaw(s.buf, s.r, s.w, s.writer) && Enabled(s, WriterCopies)
    requires ReaderLaw(s.buf, s.r, s.w, s.reader) && FifoLaw(s.buf, s.r, s.w, s.sent, s.received)
    ensures var t := CopyIn(s);
      && Positions(t.buf, t.r, t.w) && ReaderLaw(t.buf, t.r, t.w, t.reader)
      && FifoLaw(t.buf, t.r, t.w, t.sent, t.received)
  {
    var d := s.writer;
    CopyUnseen(s.buf, s.r, s.w, d.seg, d.done, d.rest, s.reader, s.sent, s.received);
  }

  lemma CopyKept(s: State)
    requires Inv(s) && Enabled(s, WriterCopies)
    ensures Inv(CopyIn(s))
  {
    CopyWriter(s);
    CopyReader(s);
  }

  /** The reader and the queue see nothing of a copied slot. */
  lemma CopyUnseen(buf: seq<Item>, r: nat, w: nat, seg: seq<Item>, done: nat, rest: seq<Item>, reader: Reader,
                   sent: seq<Item>, received: seq<Item>)
    requires Positions(buf, r, w) && WriterLaw(buf, r, w, Writing(seg, done, rest)) && done < |seg|
    requires ReaderLaw(buf, r, w, reader) && FifoLaw(buf, r, w, sent, received)
    ensures var after := buf[w + done := seg[done]];
      ReaderLaw(after, r, w, reader) && FifoLaw(after, r, w, sent, received)
  {
    var after := buf[w + done := seg[done]];
    UnreadKept(buf, r, w, |seg|, done, seg[done]);
    ReaderUnharmed(buf, after, r, w, w, reader);
  }

  /** Publishing a segment: the contents grow by it, and there is still room for the rest of the call. */
  lemma Published(buf: seq<Item>, r: nat, w: nat, seg: seq<Item>, rest: seq<Item>, sent: seq<Item>, received: seq<Item>)
    requires Positions(buf, r, w) && WriterLaw(buf, r, w, Writing(seg, |seg|, rest)) && FifoLaw(buf, r, w, sent, received)
    ensures var v := Wrap(w + |seg|, |buf|);
      && Contents(buf, r, w) <= Contents(buf, r, v) && FifoLaw(buf, r, v, sent + seg, received)
      && (rest != [] ==> WriterLaw(buf, r, v, Regranting(rest)))
  {
    Appended(buf, buf, r, w, seg);
    Joined(received, Contents(buf, r, w), seg);
  }

  lemma CallPublished(calls: seq<seq<Item>>, sent: seq<Item>, seg: seq<Item>, done: nat, rest: seq<Item>)
    requires CallLaw(calls, sent, Writing(seg, done, rest))
    ensures CallLaw(calls, sent + seg, if rest == [] then NotWriting else Regranting(rest))
  {
    Joined(sent, seg, rest);
  }

  lemma PublishQueue(s: State)
    requires Positions(s.buf, s.r, s.w) && WriterLaw(s.buf, s.r, s.w, s.writer) && Enabled(s, WriterPublishes)
    requires ReaderLaw(s.buf, s.r, s.w, s.reader) && FifoLaw(s.buf, s.r, s.w, s.sent, s.received)
    ensures var t := Publish(s);
      && Positions(t.buf, t.r, t.w) && WriterLaw(t.buf, t.r, t.w, t.writer) && ReaderLaw(t.buf, t.r, t.w, t.reader)
      && FifoLaw(t.buf, t.r, t.w, t.sent, t.received)
  {
    var w := s.writer;
    Published(s.buf, s.r, s.w, w.seg, w.rest, s.sent, s.received);
    ReaderUnharmed(s.buf, s.buf, s.r, s.w, Publish(s).w, s.reader);
  }

  lemma PublishKept(s: State)
    requires Inv(s) && Enabled(s, WriterPublishes)
    ensures Inv(Publish(s))
  {
    PublishQueue(s);
    CallPublished(s.calls, s.sent, s.writer.seg, s.writer.done, s.writer.rest);
  }

  /** The second grant of a wrapped writeFrom() is all of what is left: room only grew since the first. */
  lemma SecondGrantSuffices(s: State)
    requires Inv(s) && s.writer.Regranting?
    ensures WriteGrant(s, |s.writer.rest|, |s.writer.rest|) == |s.writer.rest|
  {
  }

  lemma WriteGranted(s: State, items: seq<Item>, n: nat)
    requires Inv(s) && s.writer.NotWriting? && n <= |items|
    requires |items| <= EmptyCount(s.r, s.w, |s.buf|) && s.w + n <= |s.buf| && (n < |items| ==> s.w + n == |s.buf|)
    ensures Inv(s.(writer := Writing(items[..n], 0, items[n..]), calls := s.calls + [items]))
  {
    FlatOn(s.calls, items);
    Split(items, n);
  }

  lemma WriteCallKept(s: State, items: seq<Item>)
    requires Inv(s) && Enabled(s, WriteCall(items))
    ensures Inv(WriterNext(s, WriteCall(items)))
  {
    var n := WriteGrant(s, |items|, |items|);
    if n > 0 {
      WriteGranted(s, items, n);
    }
  }

  lemma GrantKept(s: State, items: seq<Item>, min: nat, max: nat)
    requires Inv(s) && Enabled(s, WriterGrants(items, min, max))
    ensures Inv(WriterNext(s, WriterGrants(items, min, max)))
  {
    WriteGranted(s, items, |items|);
    assert items[..|items|] == items && items[|items|..] == [];
  }

  lemma RegrantKept(s: State)
    requires Inv(s) && Enabled(s, WriterRegrants)
    ensures Inv(WriterNext(s, WriterRegrants))
  {
    SecondGrantSuffices(s);
    var rest := s.writer.rest;
    assert rest[..|rest|] == rest;
    assert rest + [] == rest;
  }

  lemma WriterKept(s: State, step: Step)
    requires Inv(s) && Enabled(s, step) && OfWriter(step)
    ensures Inv(WriterNext(s, step))
  {
    match step
    case WriteCall(items) => WriteCallKept(s, items);
    case WriterGrants(items, min, max) => GrantKept(s, items, min, max);
    case WriterCopies => CopyKept(s);
    case WriterPublishes => PublishKept(s);
    case WriterRegrants => RegrantKept(s);
    case _ =>
  }

  // ------------------------------------------------------------------ the reader's steps

  /** A reader that moves on only leaves the writer more room. */
  lemma RoomGrows(buf: seq<Item>, r: nat, w: nat, writer: Writer, n: nat)
    requires Positions(buf, r, w) && WriterLaw(buf, r, w, writer) && n <= FillCount(r, w, |buf|)
    ensures WriterLaw(buf, Wrap(r + n, |buf|), w, writer)
  {
    Removed(buf, r, w, n);
    CountsAddUp(r, w, |buf|);
    CountsAddUp(Wrap(r + n, |buf|), w, |buf|);
  }

  /** Consuming a segment: its items leave the contents, and there is still enough for the rest of the call. */
  lemma Consumed(buf: seq<Item>, r: nat, w: nat, d: Reader, sent: seq<Item>, received: seq<Item>)
    requires Positions(buf, r, w) && ReaderLaw(buf, r, w, d) && d.Reading? && |d.got| == d.count
    requires FifoLaw(buf, r, w, sent, received)
    ensures var v := Wrap(r + d.count, |buf|);
      && FifoLaw(buf, v, w, sent, received + d.got)
      && (d.left > 0 ==> ReaderLaw(buf, v, w, Rereading(d.left, d.out + d.got)))
  {
    ReaderConsumed(buf, r, w, d.count, d.got, d.left, d.out);
    FifoConsumed(buf, r, w, sent, received, d.got);
  }

  lemma FifoConsumed(buf: seq<Item>, r: nat, w: nat, sent: seq<Item>, received: seq<Item>, got: seq<Item>)
    requires Positions(buf, r, w) && FifoLaw(buf, r, w, sent, received)
    requires |got| <= FillCount(r, w, |buf|) && got == Contents(buf, r, w)[..|got|]
    ensures FifoLaw(buf, Wrap(r + |got|, |buf|), w, sent, received + got)
  {
    var all := Contents(buf, r, w);
    Removed(buf, r, w, |got|);
    Split(all, |got|);
    Joined(received, got, all[|got|..]);
  }

  lemma ConsumeQueue(s: State)
    requires Positions(s.buf, s.r, s.w) && ReaderLaw(s.buf, s.r, s.w, s.reader) && Enabled(s, ReaderPublishes)
    requires FifoLaw(s.buf, s.r, s.w, s.sent, s.received)
    ensures var t := Consume(s);
      && Positions(t.buf, t.r, t.w) && ReaderLaw(t.buf, t.r, t.w, t.reader)
      && FifoLaw(t.buf, t.r, t.w, t.sent, t.received)
  {
    Consumed(s.buf, s.r, s.w, s.reader, s.sent, s.received);
  }

  lemma ConsumeReads(s: State)
    requires Enabled(s, ReaderPublishes) && ReadLaw(s.results, s.wanted, s.received, s.reader)
    ensures var t := Consume(s); ReadLaw(t.results, t.wanted, t.received, t.reader)
  {
    var d := s.reader;
    ReadPublished(s.results, s.wanted, s.received, d.count, d.got, d.left, d.out);
  }

  lemma ConsumeRoom(s: State)
    requires Positions(s.buf, s.r, s.w) && WriterLaw(s.buf, s.r, s.w, s.writer) && Enabled(s, ReaderPublishes)
    requires s.reader.count <= FillCount(s.r, s.w, |s.buf|)
    ensures var t := Consume(s); Positions(t.buf, t.r, t.w) && WriterLaw(t.buf, t.r, t.w, t.writer)
  {
    RoomGrows(s.buf, s.r, s.w, s.writer, s.reader.count);
  }

  lemma ConsumeKept(s: State)
    requires Inv(s) && Enabled(s, ReaderPublishes)
    ensures Inv(Consume(s))
  {
    ConsumeQueue(s);
    ConsumeReads(s);
    ConsumeRoom(s);
  }

  lemma ReaderConsumed(buf: seq<Item>, r: nat, w: nat, count: nat, got: seq<Item>, left: nat, out: seq<Item>)
    requires Positions(buf, r, w) && ReaderLaw(buf, r, w, Reading(count, got, left, out)) && |got| == count
    ensures got == Contents(buf, r, w)[..count]
    ensures left > 0 ==> ReaderLaw(buf, Wrap(r + count, |buf|), w, Rereading(left, out + got))
  {
    Removed(buf, r, w, count);
  }

  lemma ReadPublished(results: seq<seq<Item>>, wanted: seq<nat>, received: seq<Item>,
                      count: nat, got: seq<Item>, left: nat, out: seq<Item>)
    requires ReadLaw(results, wanted, received, Reading(count, got, left, out)) && |got| == count
    ensures left == 0 ==> ReadLaw(results + [out + got], wanted, received + got, NotReading)
    ensures left > 0 ==> ReadLaw(results, wanted, received + got, Rereading(left, out + got))
  {
    Joined(Flat(results), out, got);
    FlatOn(results, out + got);
    LengthsOn(results, out + got);
  }

  lemma CopiedOut(buf: seq<Item>, r: nat, w: nat, d: Reader)
    requires Positions(buf, r, w) && ReaderLaw(buf, r, w, d) && d.Reading? && |d.got| < d.count
    ensures ReaderLaw(buf, r, w, d.(got := d.got + [buf[r + |d.got|]]))
  {
    var all, n := Contents(buf, r, w), |d.got|;
    assert all[n] == buf[r + n];
    assert all[..n + 1] == all[..n] + [all[n]];
  }

  lemma CopyOutKept(s: State)
    requires Inv(s) && Enabled(s, ReaderCopies)
    ensures Inv(ReaderNext(s, ReaderCopies))
  {
    CopiedOut(s.buf, s.r, s.w, s.reader);
  }

  lemma ReadGranted(s: State, n: nat, count: nat)
    requires Inv(s) && s.reader.NotReading? && n <= count
    requires count <= FillCount(s.r, s.w, |s.buf|) && s.r + n <= |s.buf| && (n < count ==> s.r + n == |s.buf|)
    ensures Inv(s.(reader := Reading(n, [], count - n, []), wanted := s.wanted + [count]))
  {
  }

  /** The second grant of a wrapped readTo() is all of what is left: what is unread only grew since the first. */
  lemma SecondReadSuffices(s: State)
    requires Inv(s) && s.reader.Rereading?
    ensures ReadGrant(s, s.reader.left, s.reader.left) == s.reader.left
  {
  }

  lemma ReaderKept(s: State, step: Step)
    requires Inv(s) && Enabled(s, step) && !OfWriter(step)
    ensures Inv(ReaderNext(s, step))
  {
    match step
    case ReadCall(count) =>
      if ReadGrant(s, count, count) > 0 {
        ReadGranted(s, ReadGrant(s, count, count), count);
      }
    case ReaderGrants(min, max) => ReadGranted(s, ReadGrant(s, min, max), ReadGrant(s, min, max));
    case ReaderCopies => CopyOutKept(s);
    case ReaderPublishes => ConsumeKept(s);
    case ReaderRegrants => SecondReadSuffices(s);
    case _ =>
  }

  lemma InvKept(s: State, step: Step)
    requires Inv(s) && Enabled(s, step)
    ensures Inv(Apply(s, step))
  {
    if OfWriter(step) {
      WriterKept(s, step);
    } else {
      ReaderKept(s, step);
    }
  }

  least lemma ReachableInv[nat](s: State)
    requires Reachable(s)
    ensures Inv(s)
  {
    if !Init(s) {
      var q, step :| Reachable(q) && Enabled(q, step) && s == Apply(q, step);
      ReachableInv(q);
      InvKept(q, step);
    }
  }

  // ------------------------------------------------------------------ main results

  /** What the reader is done with, and what it is copying out, are the oldest items sent, in order. */
  lemma ReadsInOrder(s: State)
    requires Reachable(s)
    ensures s.received <= s.sent
    ensures s.reader.Reading? ==> s.received + s.reader.got <= s.sent
    ensures Shaped(s) && s.sent[|s.received|..] == Contents(s.buf, s.r, s.w)
  {
    ReachableInv(s);
    if s.reader.Reading? {
      var all, n := Contents(s.buf, s.r, s.w), |s.reader.got|;
      Split(all, n);
      Joined(s.received, all[..n], all[n..]);
    }
  }

  /** No slot is written while it holds an unread item, nor while the reader is copying it. */
  lemma NeverOverwritesUnread(s: State, k: nat)
    requires Reachable(s) && Enabled(s, WriterCopies)
    ensures k < FillCount(s.r, s.w, |s.buf|) ==> s.w + s.writer.done != Wrap(s.r + k, |s.buf|)
    ensures s.reader.Reading? && k < s.reader.count ==> s.w + s.writer.done != s.r + k
  {
    ReachableInv(s);
    if k < FillCount(s.r, s.w, |s.buf|) {
      SegmentIsFree(s.r, s.w, |s.buf|, |s.writer.seg|, k);
    }
  }

  lemma WriterGoesOn(s: State)
    requires Positions(s.buf, s.r, s.w) && WriterLaw(s.buf, s.r, s.w, s.writer) && s.writer.Writing?
    ensures Enabled(s, WriterCopies) || Enabled(s, WriterPublishes)
  {
    if s.writer.done < |s.writer.seg| {
      assert Enabled(s, WriterCopies);
    } else {
      assert Enabled(s, WriterPublishes);
    }
  }

  lemma ReaderGoesOn(s: State)
    requires Positions(s.buf, s.r, s.w) && ReaderLaw(s.buf, s.r, s.w, s.reader) && s.reader.Reading?
    ensures Enabled(s, ReaderCopies) || Enabled(s, ReaderPublishes)
  {
    if |s.reader.got| < s.reader.count {
      assert Enabled(s, ReaderCopies);
    } else {
      assert Enabled(s, ReaderPublishes);
    }
  }

  /** A grant stays good: whatever the other side does meanwhile, neither thread is ever blocked half-way. */
  lemma GrantsStayGood(s: State)
    requires Reachable(s)
    ensures s.writer.Writing? ==> Enabled(s, WriterCopies) || Enabled(s, WriterPublishes)
    ensures s.reader.Reading? ==> Enabled(s, ReaderCopies) || Enabled(s, ReaderPublishes)
  {
    ReachableInv(s);
    if s.writer.Writing? {
      WriterGoesOn(s);
    }
    if s.reader.Reading? {
      ReaderGoesOn(s);
    }
  }

  /**
    Under any interleaving a write is published whole or refused: between writes what was sent is exactly
    the items of the writes not refused, and during one all but the rest of that one.
   */
  lemma WritesAllOrNothing(s: State)
    requires Reachable(s)
    ensures s.writer.NotWriting? ==> s.sent == Flat(s.calls)
    ensures s.sent + Outstanding(s.writer) == Flat(s.calls)
    ensures s.writer.Regranting? ==> WriteGrant(s, |s.writer.rest|, |s.writer.rest|) == |s.writer.rest|
  {
    ReachableInv(s);
    if s.writer.Regranting? {
      SecondGrantSuffices(s);
    }
  }

  /** ... refused exactly when it is empty or larger than the room there is when it begins, and then without effect. */
  lemma WriteRefused(s: State, items: seq<Item>)
    requires Reachable(s) && Enabled(s, WriteCall(items))
    ensures var t := Apply(s, WriteCall(items));
      && (t == s <==> items == [] || |items| > EmptyCount(s.r, s.w, |s.buf|))
      && (t != s ==> t.calls == s.calls + [items])
  {
  }

  /**
    Under any interleaving a read fills its whole destination or is refused: every read that returned
    copied out as many items as it was asked for, and together they are exactly what was received.
   */
  lemma ReadsAllOrNothing(s: State)
    requires Reachable(s)
    ensures forall k :: 0 <= k < |s.results| ==> k < |s.wanted| && |s.results[k]| == s.wanted[k]
    ensures s.reader.NotReading? ==> s.received == Flat(s.results) && |s.wanted| == |s.results|
    ensures s.reader.Rereading? ==> ReadGrant(s, s.reader.left, s.reader.left) == s.reader.left
  {
    ReachableInv(s);
    if s.reader.Rereading? {
      SecondReadSuffices(s);
    }
  }

  /** ... refused exactly when it is for nothing or for more than is unread when it begins, and then without effect. */
  lemma ReadRefused(s: State, count: nat)
    requires Reachable(s) && Enabled(s, ReadCall(count))
    ensures var t := Apply(s, ReadCall(count));
      && (t == s <==> count == 0 || count > FillCount(s.r, s.w, |s.buf|))
      && (t != s ==> t.wanted == s.wanted + [count])
  {
  }

  // ------------------------------------------------------------------ neither side waits for the other

  /** The step a write under way takes next, and how many it still takes. */
  function NextOfWriter(writer: Writer): Step {
    match writer
    case NotWriting => WriterPublishes
    case Writing(seg, done, _) => if done < |seg| then WriterCopies else WriterPublishes
    case Regranting(_) => WriterRegrants
  }

  function WriterLeft(writer: Writer): int {
    match writer
    case NotWriting => 0
    case Writing(seg, done, rest) => |seg| - done + 1 + if rest == [] then 0 else |rest| + 2
    case Regranting(rest) => |rest| + 2
  }

  function NextOfReader(reader: Reader): Step {
    match reader
    case NotReading => ReaderPublishes
    case Reading(count, got, _, _) => if |got| < count then ReaderCopies else ReaderPublishes
    case Rereading(_, _) => ReaderRegrants
  }

  function ReaderLeft(reader: Reader): int {
    match reader
    case NotReading => 0
    case Reading(count, got, left, _) => count - |got| + 1 + if left == 0 then 0 else left + 2
    case Rereading(left, _) => left + 2
  }

  lemma WriterMoves(s: State)
    requires Inv(s) && s.writer != NotWriting
    ensures Enabled(s, NextOfWriter(s.writer))
    ensures WriterLeft(Apply(s, NextOfWriter(s.writer)).writer) == WriterLeft(s.writer) - 1
    ensures Apply(s, NextOfWriter(s.writer)).reader == s.reader
  {
    match s.writer { case Writing(seg, done, rest) => case _ => }
  }

  lemma ReaderMoves(s: State)
    requires Inv(s) && s.reader != NotReading
    ensures Enabled(s, NextOfReader(s.reader))
    ensures ReaderLeft(Apply(s, NextOfReader(s.reader)).reader) == ReaderLeft(s.reader) - 1
    ensures Apply(s, NextOfReader(s.reader)).writer == s.writer
  {
    match s.reader { case Reading(count, got, left, out) => case _ => }
  }

  /** A write under way, at any time, comes to its end in so many steps of its own, whatever the reader does meanwhile. */
  lemma WritesEnd(s: State, step: Step)
    requires Reachable(s) && s.writer != NotWriting && Enabled(s, step)
    ensures Enabled(s, NextOfWriter(s.writer)) && WriterLeft(s.writer) > 0
    ensures if OfWriter(step) then WriterLeft(Apply(s, step).writer) == WriterLeft(s.writer) - 1
      else Apply(s, step).writer == s.writer
  {
    ReachableInv(s);
    WriterMoves(s);
    OneAtATime(s, step);
  }

  /** ... and so does a read. */
  lemma ReadsEnd(s: State, step: Step)
    requires Reachable(s) && s.reader != NotReading && Enabled(s, step)
    ensures Enabled(s, NextOfReader(s.reader)) && ReaderLeft(s.reader) > 0
    ensures if OfWriter(step) then Apply(s, step).reader == s.reader
      else ReaderLeft(Apply(s, step).reader) == ReaderLeft(s.reader) - 1
  {
    ReachableInv(s);
    ReaderMoves(s);
    OneAtATime(s, step);
  }

  /** Each side takes its own steps one after another, and leaves the other's alone. */
  lemma OneAtATime(s: State, step: Step)
    requires Enabled(s, step)
    ensures OfWriter(step) && s.writer != NotWriting ==> step == NextOfWriter(s.writer)
    ensures !OfWriter(step) && s.reader != NotReading ==> step == NextOfReader(s.reader)
    ensures if OfWriter(step) then Apply(s, step).reader == s.reader else Apply(s, step).writer == s.writer
  {
    match step { case WriteCall(_) => case _ => }
  }

  /** A segment asked for directly is as long as there is room or unread items in one piece, up to the maximum. */
  lemma DirectGrants(s: State, items: seq<Item>, min: nat, max: nat)
    requires Shaped(s)
    ensures s.reader.NotReading? ==>
      var unread := FillCount(s.r, s.w, |s.buf|); var t := Apply(s, ReaderGrants(min, max));
      t.reader == Reading(if unread < min then 0 else Least(Least(unread, |s.buf| - s.r), max), [], 0, []) && t.writer == s.writer
    ensures s.writer.NotWriting? ==>
      var room := EmptyCount(s.r, s.w, |s.buf|);
      var n := if room < min then 0 else Least(Least(room, |s.buf| - s.w), max);
      && (Enabled(s, WriterGrants(items, min, max)) <==> |items| <= n)
      && (|items| <= n ==> Apply(s, WriterGrants(items, min, max)).writer == Writing(items, 0, []))
  {
  }
}
