/**
 The size arithmetic of `queue_init`, in `size_t`, and when the region it asks
 for is large enough for the ring it then describes.
 */
module QueueInit {
  import opened Bytes
  import opened RingLayout

  /** What `queue_init` is given: sizeof(queue_t), the page size, and the two capacities. */
  datatype Request = Request(structSize: nat, pageSize: nat, maxSize: nat, dataMaxSize: nat) {

    /** Sizes the platform can report: a page is at least one byte, the structure is
        small beside the address space, the capacities are `size_t`. */
    predicate Valid() {
      && pageSize > 0
      && 2 * structSize < SIZE_T_LIMIT
      && maxSize < SIZE_T_LIMIT
      && dataMaxSize < SIZE_T_LIMIT
    }

    function StructSizeAligned(): nat
      requires Valid()
    {
      Wrap(structSize + structSize % pageSize)
    }

    function BufSize(): nat {
      Wrap(Wrap(SIZE_T_BYTES + dataMaxSize) * maxSize)
    }

    function TotalSize(): nat
      requires Valid()
    {
      Wrap(StructSizeAligned() + Wrap(BufSize() + BufSize() % pageSize))
    }

    /** The ring the initialised fields describe, in unbounded arithmetic. */
    function Layout(): Ring
      requires Valid()
    {
      Ring(maxSize, dataMaxSize, StructSizeAligned())
    }

    /** Bytes the elements need, in unbounded arithmetic. */
    function Needed(): nat {
      maxSize * (SIZE_T_BYTES + dataMaxSize)
    }

    /** None of the sums and products exceeds a `size_t`. */
    predicate NoOverflow()
      requires Valid()
    {
      structSize + structSize % pageSize + Needed() + Needed() % pageSize < SIZE_T_LIMIT
    }
  }

  /** Unsigned arithmetic keeps the remainder. */
  function Wrap(n: nat): (w: nat)
    ensures w < SIZE_T_LIMIT
    ensures n < SIZE_T_LIMIT ==> w == n
  {
    n % SIZE_T_LIMIT
  }

  lemma WrapBelow(n: nat)
    ensures SIZE_T_LIMIT <= n < 2 * SIZE_T_LIMIT ==> Wrap(n) == n - SIZE_T_LIMIT
  {
  }

  /** Wrapping the stride first gives the same product. */
  lemma BufSizeIsWrapped(q: Request)
    requires q.Valid()
    ensures q.BufSize() == Wrap(q.Needed())
  {
    var s, w := SIZE_T_BYTES + q.dataMaxSize, Wrap(SIZE_T_BYTES + q.dataMaxSize);
    if s >= SIZE_T_LIMIT {
      WrapBelow(s);
      var p := w * q.maxSize;
      assert q.Needed() == p + q.maxSize * SIZE_T_LIMIT by {
        assert (s - SIZE_T_LIMIT) * q.maxSize == s * q.maxSize - SIZE_T_LIMIT * q.maxSize;
      }
      DivModUnique(q.Needed(), SIZE_T_LIMIT, p / SIZE_T_LIMIT + q.maxSize, p % SIZE_T_LIMIT);
    } else {
      assert w * q.maxSize == q.Needed();
    }
  }

  /** Wrapped sums reach the true end only when nothing wrapped. */
  lemma WrappedSum(base: nat, need: nat, pad: nat)
    requires base < SIZE_T_LIMIT && need < SIZE_T_LIMIT && pad <= need
    ensures base + need <= Wrap(base + Wrap(need + pad)) <==> base + need + pad < SIZE_T_LIMIT
  {
    WrapBelow(need + pad);
    WrapBelow(base + Wrap(need + pad));
  }

  lemma RemainderBelow(x: nat, d: nat)
    requires d > 0
    ensures x % d <= x
  {
    MultipleGap(x / d, d);
  }

  /** The region holds the whole ring exactly when the size arithmetic did not overflow. */
  lemma RegionFitsIffNoOverflow(q: Request)
    requires q.Valid()
    ensures q.Layout().End() <= q.TotalSize() <==> q.NoOverflow()
    ensures q.NoOverflow() ==> q.BufSize() == q.Needed() && q.Layout().End() == q.StructSizeAligned() + q.BufSize()
    ensures q.NoOverflow() ==>
              q.TotalSize() == q.structSize + q.structSize % q.pageSize + q.Needed() + q.Needed() % q.pageSize
  {
    BufSizeIsWrapped(q);
    RemainderBelow(q.structSize, q.pageSize);
    var base, need := q.structSize + q.structSize % q.pageSize, q.Needed();
    assert q.Layout().End() == base + need;
    if need < SIZE_T_LIMIT {
      RemainderBelow(need, q.pageSize);
      WrappedSum(base, need, need % q.pageSize);
    }
  }

  /** With an overflow the last slot really lies outside: a concrete request. */
  lemma OverflowExample()
    ensures var q := Request(512, 4096, 2, 0x8000_0000_0000_0000 - 8);
            q.Valid() && q.TotalSize() == 1024 && q.Layout().Slot(1) > q.TotalSize()
  {
    var q := Request(512, 4096, 2, 0x8000_0000_0000_0000 - 8);
    assert q.BufSize() == 0;
    assert q.Layout().Slot(1) == 1024 + 0x8000_0000_0000_0000;
  }

  /** `x + x % page` is a multiple of the page only for these two remainders, so the
      rounding in `queue_init` leaves room but does not align. */
  lemma AlignedIff(x: nat, page: nat)
    requires page > 0
    ensures (x + x % page) % page == 0 <==> x % page == 0 || 2 * (x % page) == page
  {
    var r := x % page;
    assert x + r == (x / page) * page + 2 * r;
    if 2 * r < page {
      DivModUnique(x + r, page, x / page, 2 * r);
    } else {
      assert (x / page + 1) * page == (x / page) * page + page;
      DivModUnique(x + r, page, x / page + 1, 2 * r - page);
    }
  }
}
