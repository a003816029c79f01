/** `CircularBuffer`: a bounded store of the most recent metrics. Below
    capacity it grows at the end; at capacity it overwrites the slot at the
    write index, advances the index modulo the capacity and marks itself
    full. Its contents in chronological order start at the write index. */
module RingBuffer {

  datatype Ring<T> = Ring(maxSize: int, buffer: seq<T>, index: int, full: bool) {

    /** The ring invariant. The write index stays at 0 until the first
        overwrite, and the buffer is at capacity once anything has been
        overwritten. */
    predicate Valid() {
      && 1 <= maxSize
      && |buffer| <= maxSize
      && 0 <= index < maxSize
      && (!full ==> index == 0)
      && (full ==> |buffer| == maxSize)
    }

    /** `append`. */
    function Append(item: T): (r: Ring<T>)
      requires Valid()
      ensures r.Valid() && r.maxSize == maxSize
      ensures |buffer| < maxSize ==> r.buffer == buffer + [item] && r.index == index && r.full == full
      ensures |buffer| == maxSize ==>
        && |r.buffer| == maxSize && r.buffer[index] == item
        && (forall k | 0 <= k < maxSize && k != index :: r.buffer[k] == buffer[k])
        && r.index == (index + 1) % maxSize && r.full
    {
      if |buffer| < maxSize then this.(buffer := buffer + [item])
      else this.(buffer := buffer[index := item], index := (index + 1) % maxSize, full := true)
    }

    /** `get_all`: the stored items, oldest first. */
    function GetAll(): (r: seq<T>)
      requires Valid()
      ensures |r| == |buffer|
      ensures !full ==> r == buffer
    {
      if !full then buffer
      else buffer[index..] + buffer[..index]
    }

    /** `size`. */
    function Size(): (n: nat)
      ensures Valid() ==> n <= maxSize
    {
      |buffer|
    }

    /** `is_full`: set by the first overwrite, so a full ring is at
        capacity, and a ring that is not full stores its items oldest
        first. */
    function IsFull(): (b: bool)
      ensures Valid() && b ==> Size() == maxSize
      ensures Valid() && !b ==> GetAll() == buffer
    {
      full
    }
  }

  /** `get_all` reorders the stored items without losing or adding any. */
  lemma GetAllPermutes<T>(r: Ring<T>)
    requires r.Valid()
    ensures multiset(r.GetAll()) == multiset(r.buffer)
  {
    if r.full {
      assert r.buffer == r.buffer[..r.index] + r.buffer[r.index..];
    }
  }

  /** `CircularBuffer()`'s default capacity: `NewRing(DefaultMaxSize)` is
      the call that leaves `max_size` out. */
  const DefaultMaxSize := 1000

  /** `CircularBuffer(max_size)`: empty, write index 0, not full. */
  function NewRing<T>(maxSize: int): (r: Ring<T>)
    ensures r.Size() == 0 && !r.IsFull() && r.maxSize == maxSize
    ensures 1 <= maxSize ==> r.Valid()
  {
    Ring(maxSize, [], 0, false)
  }

  /** Appending the items one after another. */
  function AppendAll<T>(r: Ring<T>, items: seq<T>): (r': Ring<T>)
    requires r.Valid()
    ensures r'.Valid() && r'.maxSize == r.maxSize
    decreases |items|
  {
    if |items| == 0 then r else AppendAll(r.Append(items[0]), items[1..])
  }

  /** The last `n` items of a sequence (all of them when there are fewer). */
  function LastN<T>(items: seq<T>, n: nat): (r: seq<T>)
    ensures |r| == if |items| <= n then |items| else n
  {
    if |items| <= n then items else items[|items| - n..]
  }

  /** Seen through `get_all`, an append is a bounded-queue push: the new
      item goes at the end, and at capacity the oldest item drops off the
      front. */
  lemma AppendQueue<T>(r: Ring<T>, item: T)
    requires r.Valid()
    ensures r.Append(item).GetAll() ==
      if |r.buffer| < r.maxSize then r.GetAll() + [item] else r.GetAll()[1..] + [item]
  {
    var b, i := r.buffer, r.index;
    var a := r.Append(item);
    if |b| < r.maxSize {
      assert !r.full && a.buffer == b + [item] && !a.full;
    } else {
      assert r.GetAll() == b[i..] + b[..i] by {
        if !r.full { assert b[0..] == b && b[..0] == []; }
      }
      assert a.buffer == b[i := item] && a.index == (i + 1) % |b| && a.full;
      assert a.GetAll() == a.buffer[a.index..] + a.buffer[..a.index];
      OverwriteRotates(b, i, item);
    }
  }

  /** Overwriting slot `i` of a full buffer and advancing the index drops
      the oldest item of the rotation starting at `i` and adds the new one. */
  lemma OverwriteRotates<T>(b: seq<T>, i: int, item: T)
    requires 0 <= i < |b|
    ensures var b', i' := b[i := item], (i + 1) % |b|;
      b'[i'..] + b'[..i'] == (b[i..] + b[..i])[1..] + [item]
  {
    var b' := b[i := item];
    if i + 1 < |b| {
      assert (i + 1) % |b| == i + 1;
      assert b'[i + 1..] == b[i + 1..];
      assert b'[..i + 1] == b[..i] + [item];
      assert (b[i..] + b[..i])[1..] == b[i + 1..] + b[..i];
    } else {
      assert (i + 1) % |b| == 0;
      assert b' == b[..i] + [item];
      assert (b[i..] + b[..i])[1..] == b[..i];
      assert b'[0..] + b'[..0] == b';
    }
  }

  /** Keeping the last `n` of a prefix and then of the whole is keeping the
      last `n` of the whole. */
  lemma LastNOfLastN<T>(a: seq<T>, b: seq<T>, n: nat)
    ensures LastN(LastN(a, n) + b, n) == LastN(a + b, n)
  {
    if n < |a| {
      var k := |a| - n;
      assert a + b == a[..k] + (a[k..] + b);
      assert (a + b)[k..] == a[k..] + b;
      if n < |a[k..] + b| {
        assert (a + b)[|a + b| - n..] == (a[k..] + b)[|a[k..] + b| - n..];
      }
    }
  }

  /** One append, in terms of `LastN`. */
  lemma AppendStep<T>(r: Ring<T>, item: T)
    requires r.Valid()
    ensures r.Append(item).GetAll() == LastN(r.GetAll() + [item], r.maxSize)
    ensures r.Append(item).Size() == if |r.buffer| + 1 <= r.maxSize then |r.buffer| + 1 else r.maxSize
    ensures r.Append(item).IsFull() <==> r.full || |r.buffer| + 1 > r.maxSize
  {
    AppendQueue(r, item);
    var g := r.GetAll() + [item];
    if |r.buffer| == r.maxSize {
      assert LastN(g, r.maxSize) == g[1..];
      assert g[1..] == r.GetAll()[1..] + [item];
    }
  }

  /** Appending items to any valid ring: the contents are the last
      `max_size` items of old contents followed by the new items. */
  lemma {:induction false} AppendAllContents<T>(r: Ring<T>, items: seq<T>)
    requires r.Valid()
    ensures AppendAll(r, items).GetAll() == LastN(r.GetAll() + items, r.maxSize)
    decreases |items|
  {
    if |items| == 0 {
      assert r.GetAll() + items == r.GetAll();
    } else {
      var x, rest := items[0], items[1..];
      var r1 := r.Append(x);
      var g, g1 := r.GetAll(), r1.GetAll();
      assert AppendAll(r, items) == AppendAll(r1, rest);
      AppendStep(r, x);
      AppendAllContents(r1, rest);
      calc {
        AppendAll(r, items).GetAll();
        AppendAll(r1, rest).GetAll();
        LastN(g1 + rest, r.maxSize);
        { assert g1 == LastN(g + [x], r.maxSize); }
        LastN(LastN(g + [x], r.maxSize) + rest, r.maxSize);
        { LastNOfLastN(g + [x], rest, r.maxSize); }
        LastN(g + [x] + rest, r.maxSize);
        { assert g + [x] + rest == g + items; }
        LastN(g + items, r.maxSize);
      }
    }
  }

  /** Appending items to any valid ring: the size grows up to `max_size`,
      and the ring is full exactly when it was, or when something was
      overwritten. */
  lemma {:induction false} AppendAllSize<T>(r: Ring<T>, items: seq<T>)
    requires r.Valid()
    ensures AppendAll(r, items).Size() == if |r.buffer| + |items| <= r.maxSize then |r.buffer| + |items| else r.maxSize
    ensures AppendAll(r, items).IsFull() <==> r.full || |r.buffer| + |items| > r.maxSize
    decreases |items|
  {
    if |items| != 0 {
      var r1 := r.Append(items[0]);
      assert AppendAll(r, items) == AppendAll(r1, items[1..]);
      AppendStep(r, items[0]);
      AppendAllSize(r1, items[1..]);
    }
  }

  /** Starting from an empty buffer of capacity `max_size >= 1`, after
      appending `items`: `get_all` is the last `max_size` items, oldest
      first; `size` is the smaller of the count and the capacity; and the
      buffer reports full only after more than `max_size` appends (after
      exactly `max_size` it is at capacity but not yet full). */
  lemma Chronological<T>(maxSize: int, items: seq<T>)
    requires 1 <= maxSize
    ensures var r := AppendAll(NewRing(maxSize), items);
      && r.GetAll() == LastN(items, maxSize)
      && r.Size() == (if |items| <= maxSize then |items| else maxSize)
      && (r.IsFull() <==> |items| > maxSize)
  {
    var r0: Ring<T> := NewRing(maxSize);
    AppendAllContents(r0, items);
    AppendAllSize(r0, items);
    assert r0.GetAll() + items == items;
  }

  /** A buffer built with the default capacity keeps the last thousand
      items appended, oldest first, and reports full only from the
      thousand-and-first on. */
  lemma DefaultKeepsLastThousand<T>(items: seq<T>)
    ensures var r := AppendAll(NewRing(DefaultMaxSize), items);
      && r.GetAll() == LastN(items, 1000)
      && (r.IsFull() <==> |items| >= 1001)
  {
    Chronological(DefaultMaxSize, items);
  }
}
