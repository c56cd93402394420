/**
 Where the elements of a bounded queue lie in its circular buffer, and the
 sizes that `queue_init` computes for it.
 */
module RingLayout {
  import opened Bytes

  /** The constants of an initialised queue: capacity in elements, capacity of one
      element, and the offset of the buffer from the start of the region. */
  datatype Ring = Ring(max: nat, dataMax: nat, base: nat) {

    /** Bytes taken by one element, whatever the length of its data. */
    function Stride(): nat {
      SIZE_T_BYTES + dataMax
    }

    /** One past the last byte of the buffer. */
    function End(): nat {
      base + max * Stride()
    }

    /** The offset of the `i`-th element ever pushed. */
    function Slot(i: nat): nat {
      if max == 0 then base else base + (i % max) * Stride()
    }

    /** The tail wraps lazily: it may rest on the end of the buffer. */
    predicate TailAt(tail: nat, i: nat) {
      tail == Slot(i) || (tail == End() && Slot(i) == base && i > 0)
    }

    predicate Fits(data: Bytes) {
      0 < |data| <= dataMax && dataMax < SIZE_T_LIMIT
    }
  }

  /** The bytes at the slot of element `i` are the frame of `data`. */
  predicate Holds(r: Ring, mem: Bytes, i: nat, data: Bytes) {
    && r.Fits(data)
    && r.Slot(i) + r.Stride() <= |mem|
    && mem[r.Slot(i)..r.Slot(i) + SIZE_T_BYTES + |data|] == Frame(data)
  }

  /** Elements `from`, ..., `|pushed| - 1` are all in place. */
  predicate Stored(r: Ring, mem: Bytes, pushed: seq<Bytes>, from: nat) {
    forall i :: from <= i < |pushed| ==> Holds(r, mem, i, pushed[i])
  }

  /** What a queue at rest satisfies: `pushed` and `popped` count every completed
      push and pop since initialisation. */
  predicate AtRest(r: Ring, mem: Bytes, head: nat, tail: nat, cur: nat, pushed: seq<Bytes>, popped: nat) {
    && r.End() <= |mem|
    && popped <= |pushed|
    && cur == |pushed| - popped <= r.max
    && head == r.Slot(popped)
    && r.TailAt(tail, |pushed|)
    && Stored(r, mem, pushed, popped)
  }

  // ---- Ring arithmetic ------------------------------------------------------------

  lemma MulOrder(a: nat, b: nat, s: nat)
    requires a < b
    ensures a * s + s <= b * s
  {
    assert b * s == (b - a) * s + a * s;
    assert (b - a - 1) * s >= 0;
  }

  lemma SlotBounds(r: Ring, i: nat)
    requires r.max > 0
    ensures r.base <= r.Slot(i) && r.Slot(i) + r.Stride() <= r.End()
  {
    MulOrder(i % r.max, r.max, r.Stride());
    assert (i % r.max) * r.Stride() >= 0;
  }

  lemma ModNext(i: nat, n: nat)
    requires n > 0
    ensures (i + 1) % n == if i % n == n - 1 then 0 else i % n + 1
  {
    if i % n == n - 1 {
      DivModUnique(i + 1, n, i / n + 1, 0);
    } else {
      DivModUnique(i + 1, n, i / n, i % n + 1);
    }
  }

  lemma ModDistinct(i: nat, j: nat, n: nat)
    requires i < j < i + n
    ensures i % n != j % n
  {
    var d := j / n - i / n;
    assert j - i == d * n + (j % n - i % n);
    MultipleGap(d, n);
  }

  /** Fewer than `max` elements apart, two elements never share a byte. */
  lemma SlotsApart(r: Ring, i: nat, j: nat)
    requires i < j < i + r.max
    ensures r.Slot(i) + r.Stride() <= r.Slot(j) || r.Slot(j) + r.Stride() <= r.Slot(i)
  {
    ModDistinct(i, j, r.max);
    var a, b := i % r.max, j % r.max;
    if a < b {
      MulOrder(a, b, r.Stride());
    } else {
      MulOrder(b, a, r.Stride());
    }
  }

  /** One slot on is the next slot, or the end of the buffer when the next slot is the first. */
  lemma SlotNext(r: Ring, i: nat)
    requires r.max > 0
    ensures r.Slot(i) + r.Stride() == r.End() ==> r.Slot(i + 1) == r.base
    ensures r.Slot(i) + r.Stride() != r.End() ==> r.Slot(i + 1) == r.Slot(i) + r.Stride()
    ensures r.TailAt(r.Slot(i) + r.Stride(), i + 1)
  {
    ModNext(i, r.max);
    var a, s := i % r.max, r.Stride();
    assert a * s + s == (a + 1) * s;
    if a == r.max - 1 {
      assert (a + 1) * s == r.max * s;
    } else {
      MulOrder(a + 1, r.max, s);
      SlotBounds(r, i + 1);
    }
  }

  /** A store into the slot of element `j` leaves every element of the window in place. */
  lemma StoredFrame(r: Ring, mem: Bytes, mem': Bytes, pushed: seq<Bytes>, from: nat, j: nat)
    requires Stored(r, mem, pushed, from)
    requires |pushed| <= j < from + r.max && |mem'| == |mem|
    requires forall a :: 0 <= a < |mem| && !(r.Slot(j) <= a < r.Slot(j) + r.Stride()) ==> mem'[a] == mem[a]
    ensures Stored(r, mem', pushed, from)
  {
    forall i | from <= i < |pushed| ensures Holds(r, mem', i, pushed[i]) {
      SlotsApart(r, i, j);
      assert Holds(r, mem, i, pushed[i]);
      var lo, hi := r.Slot(i), r.Slot(i) + SIZE_T_BYTES + |pushed[i]|;
      assert mem'[lo..hi] == mem[lo..hi];
    }
  }

  /** Writing a frame at the next slot adds one stored element and keeps the others. */
  lemma PushStored(r: Ring, mem: Bytes, mem': Bytes, pushed: seq<Bytes>, popped: nat, data: Bytes)
    requires r.max > 0 && r.End() <= |mem| == |mem'|
    requires popped <= |pushed| < popped + r.max
    requires Stored(r, mem, pushed, popped) && r.Fits(data)
    requires r.Slot(|pushed|) + SIZE_T_BYTES + |data| <= |mem'|
    requires mem'[r.Slot(|pushed|)..r.Slot(|pushed|) + SIZE_T_BYTES] == EncodeLE(|data|, SIZE_T_BYTES)
    requires mem'[r.Slot(|pushed|) + SIZE_T_BYTES..r.Slot(|pushed|) + SIZE_T_BYTES + |data|] == data
    requires forall a :: 0 <= a < |mem| && !(r.Slot(|pushed|) <= a < r.Slot(|pushed|) + SIZE_T_BYTES + |data|)
               ==> mem'[a] == mem[a]
    ensures Stored(r, mem', pushed + [data], popped)
  {
    var j, lo := |pushed|, r.Slot(|pushed|);
    SlotBounds(r, j);
    StoredFrame(r, mem, mem', pushed, popped, j);
    HoldsWritten(r, mem', j, data, lo, lo + SIZE_T_BYTES, lo + SIZE_T_BYTES + |data|);
    forall i | popped <= i < |pushed + [data]| ensures Holds(r, mem', i, (pushed + [data])[i]) {
      assert i < j ==> Holds(r, mem', i, pushed[i]);
    }
  }

  lemma Joined(mem: Bytes, lo: nat, mid: nat, hi: nat)
    requires lo <= mid <= hi <= |mem|
    ensures mem[lo..hi] == mem[lo..mid] + mem[mid..hi]
  {
  }

  /** A header and its data, one after the other, are a frame. */
  lemma HoldsWritten(r: Ring, mem: Bytes, j: nat, data: Bytes, lo: nat, mid: nat, hi: nat)
    requires r.Fits(data) && lo == r.Slot(j) && lo + r.Stride() <= |mem|
    requires mid == lo + SIZE_T_BYTES && hi == mid + |data|
    requires mem[lo..mid] == EncodeLE(|data|, SIZE_T_BYTES) && mem[mid..hi] == data
    ensures Holds(r, mem, j, data)
  {
    Joined(mem, lo, mid, hi);
  }

  /** A stored element reads back: its header as its length, the bytes after it as its data. */
  lemma HeldElement(r: Ring, mem: Bytes, i: nat, data: Bytes)
    requires Holds(r, mem, i, data)
    ensures DecodeLE(mem[r.Slot(i)..r.Slot(i) + SIZE_T_BYTES]) == |data|
    ensures mem[r.Slot(i) + SIZE_T_BYTES..r.Slot(i) + SIZE_T_BYTES + |data|] == data
  {
    FrameHeader(data);
    var lo := r.Slot(i);
    var f := mem[lo..lo + SIZE_T_BYTES + |data|];
    assert f[..SIZE_T_BYTES] == mem[lo..lo + SIZE_T_BYTES];
    assert f[SIZE_T_BYTES..] == mem[lo + SIZE_T_BYTES..lo + SIZE_T_BYTES + |data|];
  }

  /** At rest both offsets stand a whole number of elements into the buffer, as many as
      operations have completed, counted round; the head is never at the end of the buffer,
      and the tail is there at most until the next push. */
  lemma OffsetsAtRest(r: Ring, mem: Bytes, head: nat, tail: nat, cur: nat, pushed: seq<Bytes>, popped: nat)
    requires AtRest(r, mem, head, tail, cur, pushed, popped) && r.max > 0
    ensures head - r.base == (popped % r.max) * r.Stride() && head + r.Stride() <= r.End() <= |mem|
    ensures r.base <= tail <= r.End()
    ensures (tail - r.base) % (r.max * r.Stride()) == (|pushed| % r.max) * r.Stride()
    ensures (tail == r.base || tail == r.End()) <==> |pushed| % r.max == 0
  {
    SlotBounds(r, popped);
    SlotBounds(r, |pushed|);
    var i, s, n := |pushed| % r.max, r.Stride(), r.max * r.Stride();
    assert n > 0 by {
      MulOrder(0, r.max, s);
    }
    if i > 0 {
      MulOrder(0, i, s);
    }
    MulOrder(i, r.max, s);
    if tail == r.End() {
      assert tail - r.base == n;
      DivModUnique(n, n, 1, 0);
    } else {
      DivModUnique(i * s, n, 0, i * s);
    }
  }
}
