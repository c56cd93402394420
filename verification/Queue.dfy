/**
 The queue of `queue.c` used by one thread at a time: the structure's fields, the
 real byte buffer, and the two operations with their different wrap rules. Its
 meaning is a bounded first-in first-out list of byte strings.
 */
module Queue {
  import opened Bytes
  import opened RingLayout
  import opened QueueInit

  /** `Blocked`: the call would wait on a condition that only another thread can change. */
  datatype Outcome = Ok | Fail | Blocked

  class Queue {
    var headOffset: nat
    var tailOffset: nat
    var curSize: nat
    const maxSize: nat
    const dataMaxSize: nat
    const bufOffset: nat
    const bufSize: nat
    const totalSize: nat
    /** The mapped region; offset 0 is the queue structure itself. */
    const region: array<byte>

    /** Every element ever pushed, and how many of them have been popped. */
    ghost var pushed: seq<Bytes>
    ghost var popped: nat

    ghost function Layout(): Ring {
      Ring(maxSize, dataMaxSize, bufOffset)
    }

    ghost predicate Valid()
      reads this, region
    {
      && region.Length == totalSize
      && dataMaxSize < SIZE_T_LIMIT
      && bufOffset + bufSize == Layout().End()
      && AtRest(Layout(), region[..], headOffset, tailOffset, curSize, pushed, popped)
    }

    /** The elements in the queue, front first. */
    ghost function Contents(): (c: seq<Bytes>)
      reads this
      requires popped <= |pushed|
    {
      pushed[popped..]
    }

    /** `queue_init`, for sizes whose arithmetic fits a `size_t` (see `RegionFitsIffNoOverflow`). */
    constructor (q: Request)
      requires q.Valid() && q.NoOverflow()
      ensures Valid() && fresh(region)
      ensures maxSize == q.maxSize && dataMaxSize == q.dataMaxSize
      ensures pushed == [] && popped == 0
    {
      var aligned := q.StructSizeAligned();
      var total := q.TotalSize();
      maxSize := q.maxSize;
      curSize := 0;
      dataMaxSize := q.dataMaxSize;
      totalSize := total;
      bufSize := q.BufSize();
      bufOffset := aligned;
      headOffset := aligned;
      tailOffset := aligned;
      region := new byte[total];
      pushed := [];
      popped := 0;
      RegionFitsIffNoOverflow(q);
      new;
      assert Layout() == q.Layout();
      assert Layout().Slot(0) == bufOffset;
    }

    function BytesPerElem(): nat {
      SIZE_T_BYTES + dataMaxSize
    }

    /** memcpy into the region. */
    method CopyIn(at: nat, src: Bytes)
      requires at + |src| <= region.Length
      modifies region
      ensures region[at..at + |src|] == src
      ensures forall a :: 0 <= a < region.Length && !(at <= a < at + |src|) ==> region[a] == old(region[a])
    {
      forall k | 0 <= k < |src| {
        region[at + k] := src[k];
      }
    }

    /** The size header and the data go to the slot at the tail. */
    method FillSlot(src: Bytes)
      requires Valid() && curSize < maxSize && Layout().Fits(src) && tailOffset == Layout().Slot(|pushed|)
      modifies region
      ensures Stored(Layout(), region[..], pushed + [src], popped)
      ensures region[..bufOffset] == old(region[..bufOffset])
    {
      ghost var before := region[..];
      SlotBounds(Layout(), |pushed|);
      CopyIn(tailOffset, EncodeLE(|src|, SIZE_T_BYTES));
      CopyIn(tailOffset + SIZE_T_BYTES, src);
      PushStored(Layout(), before, region[..], pushed, popped, src);
    }

    method PushCommon(data: array?<byte>, dataSize: nat, shouldWait: bool) returns (r: Outcome)
      requires Valid()
      requires data != null ==> dataSize <= data.Length && data != region
      modifies this, region
      ensures Valid()
      ensures r == Ok <==> data != null && 0 < dataSize <= dataMaxSize && old(curSize) != maxSize
      ensures r == Blocked <==> data != null && 0 < dataSize <= dataMaxSize && old(curSize) == maxSize && shouldWait
      ensures r == Ok ==> pushed == old(pushed) + [data[..dataSize]]
      ensures r != Ok ==> pushed == old(pushed) && unchanged(this) && unchanged(region)
      ensures popped == old(popped)
      ensures region[..bufOffset] == old(region[..bufOffset])
    {
      if data == null || dataSize == 0 || dataSize > dataMaxSize {
        return Fail;
      }
      if curSize == maxSize {
        return if shouldWait then Blocked else Fail;
      }

      SlotBounds(Layout(), |pushed|);
      SlotNext(Layout(), |pushed|);
      tailOffset := if tailOffset == bufOffset + bufSize then bufOffset else tailOffset;
      FillSlot(data[..dataSize]);
      tailOffset := tailOffset + BytesPerElem();
      curSize := curSize + 1;
      pushed := pushed + [data[..dataSize]];
      r := Ok;
    }

    method TryPush(data: array?<byte>, dataSize: nat) returns (r: Outcome)
      requires Valid()
      requires data != null ==> dataSize <= data.Length && data != region
      modifies this, region
      ensures Valid()
      ensures r == Ok <==> data != null && 0 < dataSize <= dataMaxSize && old(curSize) != maxSize
      ensures r != Blocked
      ensures r == Ok ==> Contents() == old(Contents()) + [data[..dataSize]]
      ensures r == Ok ==> pushed == old(pushed) + [data[..dataSize]]
      ensures r != Ok ==> pushed == old(pushed) && unchanged(region)
      ensures popped == old(popped)
    {
      r := PushCommon(data, dataSize, false);
    }

    /** memcpy out of the region. */
    method CopyOut(at: nat, n: nat, data: array<byte>)
      requires at + n <= region.Length && n <= data.Length && data != region
      modifies data
      ensures data[..] == region[at..at + n] + old(data[n..])
    {
      forall k | 0 <= k < n {
        data[k] := region[at + k];
      }
      assert data[..n] == region[at..at + n] && data[n..] == old(data[n..]);
      assert data[..] == data[..n] + data[n..];
    }

    /** The bytes at the head are the front element: its size, then its data. */
    lemma FrontInPlace()
      requires Valid() && curSize > 0
      ensures headOffset + BytesPerElem() <= bufOffset + bufSize
      ensures |Contents()[0]| <= dataMaxSize
      ensures DecodeLE(region[headOffset..headOffset + SIZE_T_BYTES]) == |Contents()[0]|
      ensures region[headOffset + SIZE_T_BYTES..headOffset + SIZE_T_BYTES + |Contents()[0]|] == Contents()[0]
    {
      var front, lo := pushed[popped], headOffset + SIZE_T_BYTES;
      SlotBounds(Layout(), popped);
      assert Holds(Layout(), region[..], popped, front);
      HeldElement(Layout(), region[..], popped, front);
      assert region[headOffset..lo] == region[..][headOffset..lo];
      assert region[lo..lo + |front|] == region[..][lo..lo + |front|];
    }

    /** The size is an in-out parameter: `newSize` is what `*data_size` holds on return. */
    method PopCommon(data: array?<byte>, dataSize: nat, shouldWait: bool) returns (r: Outcome, newSize: nat)
      requires Valid()
      requires data != null ==> dataSize <= data.Length && data != region
      modifies this, data
      ensures Valid()
      ensures r == Ok <==> data != null && old(curSize) != 0 && |old(Contents())[0]| <= dataSize
      ensures r == Blocked <==> data != null && old(curSize) == 0 && shouldWait
      ensures r == Ok ==> popped == old(popped) + 1 && newSize == |old(Contents())[0]|
      ensures r == Ok ==> data[..] == old(Contents())[0] + old(data[newSize..])
      ensures r != Ok ==> newSize == dataSize && unchanged(this)
      ensures r != Ok && data != null ==> data[..] == old(data[..])
      ensures pushed == old(pushed)
    {
      newSize := dataSize;
      if data == null {
        return Fail, newSize;
      }
      if curSize == 0 {
        return if shouldWait then Blocked else Fail, newSize;
      }

      FrontInPlace();
      var elemSize := DecodeLE(region[headOffset..headOffset + SIZE_T_BYTES]);
      if dataSize < elemSize {
        return Fail, newSize;
      }
      newSize := elemSize;
      CopyOut(headOffset + SIZE_T_BYTES, newSize, data);

      SlotNext(Layout(), popped);
      SlotBounds(Layout(), popped + 1);
      headOffset := if headOffset == bufOffset + bufSize - BytesPerElem()
                    then bufOffset else headOffset + BytesPerElem();
      curSize := curSize - 1;
      popped := popped + 1;
      r := Ok;
    }

    method TryPop(data: array?<byte>, dataSize: nat) returns (r: Outcome, newSize: nat)
      requires Valid()
      requires data != null ==> dataSize <= data.Length && data != region
      modifies this, data
      ensures Valid()
      ensures r == Ok <==> data != null && old(curSize) != 0 && |old(Contents())[0]| <= dataSize
      ensures r != Blocked
      ensures r == Ok ==> popped == old(popped) + 1 && newSize == |old(Contents())[0]|
      ensures r == Ok ==> data[..] == old(Contents())[0] + old(data[newSize..])
      ensures r != Ok ==> newSize == dataSize && popped == old(popped)
      ensures r != Ok && data != null ==> data[..] == old(data[..])
      ensures pushed == old(pushed)
    {
      r, newSize := PopCommon(data, dataSize, false);
    }
  }
}
