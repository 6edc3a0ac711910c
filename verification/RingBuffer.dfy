/**
  A ring buffer with one writer and one reader: one slot is always left free, positions are kept
  modulo the size, and an operation uses at most two contiguous segments.
 */
module RingBuffer {

  // ------------------------------------------------------------------ positions

  /** The remainder by the size, of anything less than one turn beyond it. */
  function Wrap(i: nat, size: nat): (r: nat)
    requires 0 < size && i < 2 * size
    ensures r == if i < size then i else i - size
  {
    if i >= size then assert i % size == (i - size) % size; i % size else i % size
  }

  function FillCount(r: nat, w: nat, size: nat): (n: nat)
    requires r < size && w < size
    ensures n < size && w == Wrap(r + n, size)
  {
    Wrap(size + w - r, size)
  }

  function EmptyCount(r: nat, w: nat, size: nat): (n: nat)
    requires r < size && w < size
    ensures n < size
  {
    Wrap(size + r - w - 1, size)
  }

  /** The counts always make up all slots but one. */
  lemma CountsAddUp(r: nat, w: nat, size: nat)
    requires r < size && w < size
    ensures FillCount(r, w, size) + EmptyCount(r, w, size) == size - 1
  {
    assert w >= r ==> size + r - w - 1 < size;
  }

  function Least(a: nat, b: nat): nat { if a < b then a else b }

  /** getBufferCommon(): how many slots from `pos` on are granted, none when fewer than `min` are available. */
  function Grant(min: nat, max: nat, pos: nat, count: nat, size: nat): (n: nat)
    requires pos < size
    ensures count >= min ==> n == Least(Least(count, size - pos), max)
    ensures count < min ==> n == 0
  {
    if count < min then 0
    else
      var till := if size - pos < count then size - pos else count;
      if till > max then max else till
  }

  // ------------------------------------------------------------------ contents

  /** The `count` items from position `r` on, oldest first. */
  function Stored<T>(buf: seq<T>, r: nat, count: nat): (s: seq<T>)
    requires r < |buf| && count <= |buf|
    ensures |s| == count && forall k :: 0 <= k < count ==> s[k] == buf[Wrap(r + k, |buf|)]
  {
    seq(count, k requires 0 <= k < count => buf[Wrap(r + k, |buf|)])
  }

  function Contents<T>(buf: seq<T>, r: nat, w: nat): seq<T>
    requires r < |buf| && w < |buf|
  {
    Stored(buf, r, FillCount(r, w, |buf|))
  }

  ghost predicate WroteAt<T>(before: seq<T>, after: seq<T>, w: nat, seg: seq<T>) {
    && |before| == |after| && w + |seg| <= |before|
    && (forall k :: 0 <= k < |seg| ==> after[w + k] == seg[k])
    && (forall k :: 0 <= k < |before| && !(w <= k < w + |seg|) ==> after[k] == before[k])
  }

  /** Slots within the granted segment hold nothing unread. */
  lemma SegmentIsFree(r: nat, w: nat, size: nat, seg: nat, k: nat)
    requires r < size && w < size && seg <= EmptyCount(r, w, size) && w + seg <= size && k < FillCount(r, w, size)
    ensures !(w <= Wrap(r + k, size) < w + seg)
  {
    CountsAddUp(r, w, size);
  }

  /** Writing a granted segment and publishing it appends it. */
  lemma Appended<T>(before: seq<T>, after: seq<T>, r: nat, w: nat, seg: seq<T>)
    requires r < |before| && w < |before| && WroteAt(before, after, w, seg) && |seg| <= EmptyCount(r, w, |before|)
    ensures var w' := Wrap(w + |seg|, |before|);
      && FillCount(r, w', |before|) == FillCount(r, w, |before|) + |seg|
      && EmptyCount(r, w', |before|) == EmptyCount(r, w, |before|) - |seg|
      && Contents(after, r, w') == Contents(before, r, w) + seg
  {
    var size, w' := |before|, Wrap(w + |seg|, |before|);
    CountsAddUp(r, w, size);
    CountsAddUp(r, w', size);
    var fill := FillCount(r, w, size);
    assert FillCount(r, w', size) == fill + |seg|;
    forall k | 0 <= k < fill + |seg|
      ensures Contents(after, r, w')[k] == (Contents(before, r, w) + seg)[k]
    {
      if k < fill {
        SegmentIsFree(r, w, size, |seg|, k);
      } else {
        assert Wrap(r + k, size) == w + (k - fill);
      }
    }
  }

  /** Reading a granted segment and publishing that removes the oldest items. */
  lemma Removed<T>(buf: seq<T>, r: nat, w: nat, n: nat)
    requires r < |buf| && w < |buf| && n <= FillCount(r, w, |buf|)
    ensures var r' := Wrap(r + n, |buf|);
      && FillCount(r', w, |buf|) == FillCount(r, w, |buf|) - n
      && Contents(buf, r', w) == Contents(buf, r, w)[n..]
  {
    var size, r' := |buf|, Wrap(r + n, |buf|);
    assert FillCount(r', w, size) == FillCount(r, w, size) - n;
    forall k | 0 <= k < FillCount(r, w, size) - n
      ensures Contents(buf, r', w)[k] == Contents(buf, r, w)[n..][k]
    {
      assert Wrap(r' + k, size) == Wrap(r + (n + k), size);
    }
  }

  // ------------------------------------------------------------------ the buffer itself

  class Ring<T(0)> {
    const buffer: array<T>
    var readPos: nat
    var writePos: nat

    ghost predicate Valid()
      reads this
    {
      readPos < buffer.Length && writePos < buffer.Length
    }

    ghost function Items(): seq<T>
      requires Valid()
      reads this, buffer
    {
      Contents(buffer[..], readPos, writePos)
    }

    constructor (size: nat, zero: T)
      requires 0 < size
      ensures Valid() && buffer.Length == size && Items() == [] && fresh(buffer)
    {
      buffer := new T[size](_ => zero);
      readPos, writePos := 0, 0;
    }

    function Readable(): nat
      requires Valid()
      reads this
    {
      FillCount(readPos, writePos, buffer.Length)
    }

    function Writable(): nat
      requires Valid()
      reads this
    {
      EmptyCount(readPos, writePos, buffer.Length)
    }

    /** std::copy() into the granted segment. */
    method CopyIn(seg: seq<T>)
      requires Valid() && writePos + |seg| <= buffer.Length
      modifies buffer
      ensures WroteAt(old(buffer[..]), buffer[..], writePos, seg)
    {
      var k := 0;
      while k < |seg|
        invariant 0 <= k <= |seg|
        invariant WroteAt(old(buffer[..]), buffer[..], writePos, seg[..k])
      {
        buffer[writePos + k] := seg[k];
        k := k + 1;
      }
      assert seg[..|seg|] == seg;
    }

    method WriteDone(count: nat)
      requires Valid() && count <= buffer.Length
      modifies `writePos
      ensures Valid() && writePos == Wrap(old(writePos) + count, buffer.Length)
    {
      writePos := Wrap(writePos + count, buffer.Length);
    }

    method ReadDone(count: nat)
      requires Valid() && count <= buffer.Length
      modifies `readPos
      ensures Valid() && readPos == Wrap(old(readPos) + count, buffer.Length)
    {
      readPos := Wrap(readPos + count, buffer.Length);
    }

    /** A granted segment, copied and published. */
    method PutSegment(seg: seq<T>)
      requires Valid() && |seg| <= Writable() && writePos + |seg| <= buffer.Length
      modifies `writePos, buffer
      ensures Valid() && writePos == Wrap(old(writePos) + |seg|, buffer.Length)
      ensures Items() == old(Items()) + seg && Writable() == old(Writable()) - |seg|
    {
      CopyIn(seg);
      Appended(old(buffer[..]), buffer[..], readPos, writePos, seg);
      WriteDone(|seg|);
    }

    /** All or nothing, in at most two segments; an empty write is refused. */
    method WriteFrom(src: seq<T>) returns (ok: bool)
      requires Valid()
      modifies `writePos, buffer
      ensures Valid() && (ok <==> 0 < |src| <= old(Writable()))
      ensures Items() == if ok then old(Items()) + src else old(Items())
    {
      var first := Grant(|src|, |src|, writePos, Writable(), buffer.Length);
      if first == 0 {
        return false;
      }
      PutSegment(src[..first]);
      if first != |src| {
        assert writePos == 0;
        var second := Grant(|src| - first, |src| - first, writePos, Writable(), buffer.Length);
        assert src == src[..first] + src[first..];
        PutSegment(src[first..first + second]);
      }
      ok := true;
    }

    /** std::copy() out of the granted segment. */
    method CopyOut(dst: array<T>, at: nat, n: nat)
      requires Valid() && readPos + n <= buffer.Length && at + n <= dst.Length && dst != buffer
      modifies dst
      ensures dst[..] == old(dst[..at]) + buffer[readPos..readPos + n] + old(dst[at + n..])
    {
      var k := 0;
      while k < n
        invariant 0 <= k <= n
        invariant forall j :: 0 <= j < dst.Length ==>
          dst[j] == if at <= j < at + k then buffer[readPos + (j - at)] else old(dst[j])
      {
        dst[at + k] := buffer[readPos + k];
        k := k + 1;
      }
    }

    /** Copies the n oldest items out, within one segment, and publishes that. */
    method GetSegment(dst: array<T>, at: nat, n: nat)
      requires Valid() && n <= Readable() && readPos + n <= buffer.Length && at + n <= dst.Length && dst != buffer
      modifies `readPos, dst
      ensures Valid() && readPos == Wrap(old(readPos) + n, buffer.Length) && Readable() == old(Readable()) - n
      ensures Items() == old(Items())[n..]
      ensures dst[..] == old(dst[..at]) + old(Items())[..n] + old(dst[at + n..])
    {
      Removed(buffer[..], readPos, writePos, n);
      assert buffer[readPos..readPos + n] == Items()[..n];
      CopyOut(dst, at, n);
      ReadDone(n);
    }

    /** Fills the whole destination with the oldest items, or leaves everything alone. */
    method ReadTo(dst: array<T>) returns (ok: bool)
      requires Valid() && dst != buffer
      modifies `readPos, dst
      ensures Valid() && (ok <==> 0 < dst.Length <= old(Readable()))
      ensures ok ==> dst[..] + Items() == old(Items())
      ensures !ok ==> dst[..] == old(dst[..]) && Items() == old(Items())
    {
      var count := dst.Length;
      var first := Grant(count, count, readPos, Readable(), buffer.Length);
      if first == 0 {
        return false;
      }
      ghost var all, was := Items(), dst[..];
      GetSegment(dst, 0, first);
      ghost var half := dst[..];
      var second := count - first;
      if first != count {
        second := Grant(count - first, count - first, readPos, Readable(), buffer.Length);
        GetSegment(dst, first, second);
      }
      TwoParts(was, half, dst[..], all, first, second);
      ok := true;
    }

    /**
      fill() publishes its second segment with the length of the first, so it appends what it was asked
      for exactly when the two are equal or there is no second one.
     */
    method Fill(count: nat, value: T) returns (ok: bool)
      requires Valid()
      modifies `writePos, buffer
      ensures Valid() && (ok <==> 0 < count <= old(Writable()))
      ensures !ok ==> Items() == old(Items())
      ensures ok ==> (Items() == old(Items()) + Copies(count, value) <==> FillsRight(count, old(writePos), buffer.Length))
    {
      var first := Grant(count, count, writePos, Writable(), buffer.Length);
      if first == 0 {
        return false;
      }
      PutSegment(Copies(first, value));
      if first != count {
        var second := Grant(count - first, count - first, writePos, Writable(), buffer.Length);
        assert Copies(first, value) + Copies(second, value) == Copies(count, value);
        ghost var items := Items();
        PutShort(Copies(second, value), first);
        assert items + Copies(second, value) == old(Items()) + Copies(count, value);
      }
      ok := true;
    }

    /** A granted segment published with a length of `count`: right exactly when that is its own. */
    method PutShort(seg: seq<T>, count: nat)
      requires Valid() && |seg| <= Writable() && writePos + |seg| <= buffer.Length
      requires writePos == 0 && count < buffer.Length
      modifies `writePos, buffer
      ensures Valid() && (Items() == old(Items()) + seg <==> count == |seg|)
    {
      CopyIn(seg);
      Appended(old(buffer[..]), buffer[..], readPos, writePos, seg);
      ghost var right := Wrap(writePos + |seg|, buffer.Length);
      WriteDone(count);
      if writePos != right {
        DifferentCounts(readPos, writePos, right, buffer.Length);
      }
    }
  }

  /** A destination filled part by part. */
  lemma TwoParts<T>(was: seq<T>, half: seq<T>, full: seq<T>, all: seq<T>, first: nat, second: nat)
    requires |was| == first + second <= |all|
    requires half == was[..0] + all[..first] + was[first..]
    requires full == (if second == 0 then half else half[..first] + all[first..][..second] + half[first + second..])
    ensures full + all[first..][second..] == all
  {
    assert half == all[..first] + was[first..];
    assert half[..first] == all[..first];
    assert all[first..][..second] == all[first..first + second];
    assert full == all[..first] + all[first..first + second];
    assert all[first..][second..] == all[first + second..];
  }

  lemma DifferentCounts(r: nat, v: nat, w: nat, size: nat)
    requires r < size && v < size && w < size && v != w
    ensures FillCount(r, v, size) != FillCount(r, w, size)
  {
  }

  function Copies<T>(n: nat, value: T): (s: seq<T>)
    ensures |s| == n && forall k :: 0 <= k < n ==> s[k] == value
  {
    seq(n, _ => value)
  }

  /** No wrap, or a wrap into two equal halves. */
  predicate FillsRight(count: nat, w: nat, size: nat) {
    count <= size - w || count == 2 * (size - w)
  }

  /** Three items asked for at the last slot of an empty buffer of four: two are counted. */
  lemma FillMayGoWrong()
    ensures 3 <= EmptyCount(3, 3, 4) && Grant(3, 3, 3, EmptyCount(3, 3, 4), 4) == 1 && !FillsRight(3, 3, 4)
    ensures FillCount(3, Wrap(Wrap(3 + 1, 4) + 1, 4), 4) == 2
  {
  }
}
