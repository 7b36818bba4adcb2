/**
 The physical page-frame allocator (src/kernel/memory/pmm.c).

 A set bit marks a free frame.  `free` is the set of free frames; the code keeps
 its size in `freePages` and scans for the next free frame from `searchStart`.
 */
module Pmm {
  import opened Bits

  const PAGE_SIZE := 4096
  /** Frames of a 32-bit physical address space. */
  const MAX_PAGES := 0x100000

  /** What pmm_free_page does: frees, or stops the kernel. */
  datatype FreeOutcome = Freed | PanicUnaligned | PanicRange | PanicDoubleFree

  class FrameAllocator {
    const bitmap: array<byte>
    const totalPages: nat
    var freePages: nat
    var searchStart: nat
    ghost var free: set<nat>

    ghost predicate Valid()
      reads this, bitmap
    {
      && totalPages <= 8 * bitmap.Length
      && totalPages <= MAX_PAGES
      && free == Where(Flags(bitmap[..]), totalPages, true)
      && freePages == |free|
      && (totalPages > 0 ==> searchStart < totalPages)
    }

    /** The counting half of pmm_init, once the bit of every usable frame is set. */
    constructor (frames: array<byte>, pages: nat)
      requires pages <= 8 * frames.Length && pages <= MAX_PAGES
      ensures Valid() && bitmap == frames && totalPages == pages
    {
      bitmap := frames;
      totalPages := pages;
      searchStart := 0;
      free := Where(Flags(frames[..]), pages, true);
      var n, i := 0, 0;
      while i < pages
        invariant 0 <= i <= pages
        invariant n == |Where(Flags(frames[..]), i, true)|
      {
        WhereGrows(Flags(frames[..]), i, true);
        FlagsAt(frames[..], i);
        if Bit(frames[..], i) {
          n := n + 1;
        }
        i := i + 1;
      }
      freePages := n;
    }

    /** bitmap_test. */
    predicate Test(i: nat)
      requires i < 8 * bitmap.Length
      reads bitmap
    {
      Has(bitmap[i / 8], i % 8)
    }

    /** bitmap_set / bitmap_clear together with the counter update that follows. */
    method Put(i: nat, v: bool)
      requires Valid() && i < totalPages && (v <==> i !in free)
      modifies this`freePages, this`free, bitmap
      ensures Valid()
      ensures free == if v then old(free) + {i} else old(free) - {i}
    {
      SetBitFlags(bitmap[..], i, v);
      WhereUpdate(Flags(bitmap[..]), i, v, totalPages);
      ghost var updated := SetBit(bitmap[..], i, v);
      bitmap[i / 8] := ByteWithBit(bitmap[i / 8], i % 8, v);
      assert bitmap[..] == updated;
      if v {
        free := free + {i};
        freePages := freePages + 1;
      } else {
        assert |free - {i}| == |free| - 1;
        free := free - {i};
        freePages := freePages - 1;
      }
    }

    lemma TestFree(i: nat)
      requires Valid() && i < totalPages
      ensures Test(i) <==> i in free
    {
      FlagsAt(bitmap[..], i);
    }

    /** The scan of pmm_alloc_page: the first free frame at or after the cursor, wrapping around. */
    method FindFree() returns (found: bool, index: nat)
      requires Valid()
      ensures found <==> free != {}
      ensures found ==> index in free && NextFit(free, totalPages, searchStart, index)
    {
      var i := 0;
      while i < totalPages
        invariant 0 <= i <= totalPages
        invariant NoneWithin(free, totalPages, searchStart, i)
      {
        index := (searchStart + i) % totalPages;
        StepsToSelf(searchStart, totalPages, i);
        TestFree(index);
        if Test(index) {
          return true, index;
        }
        i := i + 1;
      }
      NoneAtAll(free, totalPages, searchStart);
      return false, 0;
    }

    /** pmm_alloc_page. */
    method AllocPage() returns (address: nat)
      requires Valid()
      modifies this`freePages, this`searchStart, this`free, bitmap
      ensures Valid()
      ensures old(free) == {} ==> address == 0 && free == {}
      ensures old(free) != {} ==>
                && address % PAGE_SIZE == 0
                && address / PAGE_SIZE in old(free)
                && free == old(free) - {address / PAGE_SIZE}
                && NextFit(old(free), totalPages, old(searchStart), address / PAGE_SIZE)
      ensures searchStart == if old(free) == {} then old(searchStart) else After(address / PAGE_SIZE, totalPages)
    {
      var found, index := FindFree();
      if !found {
        return 0;
      }
      Put(index, false);
      searchStart := After(index, totalPages);
      address := Address(index);
    }

    /** pmm_free_page. */
    method FreePage(address: nat) returns (r: FreeOutcome)
      requires Valid()
      modifies this`freePages, this`free, bitmap
      ensures Valid()
      ensures r == (if address % PAGE_SIZE != 0 then PanicUnaligned
                    else if address / PAGE_SIZE >= totalPages then PanicRange
                    else if address / PAGE_SIZE in old(free) then PanicDoubleFree
                    else Freed)
      ensures free == if r.Freed? then old(free) + {address / PAGE_SIZE} else old(free)
    {
      if address % PAGE_SIZE != 0 {
        return PanicUnaligned;
      }
      var index := address / PAGE_SIZE;
      if index >= totalPages {
        return PanicRange;
      }
      TestFree(index);
      if Test(index) {
        return PanicDoubleFree;
      }
      Put(index, true);
      return Freed;
    }

    /** pmm_is_page_free. */
    method IsPageFree(index: nat) returns (b: bool)
      requires Valid()
      ensures b <==> index in free
    {
      if index >= totalPages {
        return false;
      }
      TestFree(index);
      return Test(index);
    }

    /** pmm_mark_page_used: a no-op on frames that are used or out of range. */
    method MarkPageUsed(index: nat)
      requires Valid()
      modifies this`freePages, this`free, bitmap
      ensures Valid()
      ensures free == old(free) - {index}
    {
      if index >= totalPages {
        return;
      }
      TestFree(index);
      if Test(index) {
        Put(index, false);
      }
    }

    lemma FreeInRange()
      requires Valid()
      ensures forall f :: f in free ==> f < totalPages
    {
    }

    /** The loop of pmm_mark_region_used, on frame numbers. */
    method MarkPagesUsed(first: nat, end: nat)
      requires Valid()
      modifies this`freePages, this`free, bitmap
      ensures Valid()
      ensures forall f :: f in free <==> f in old(free) && !(first <= f < end)
    {
      FreeInRange();
      ghost var was := free;
      var page := first;
      while page < end && page < totalPages
        invariant first <= page && (page <= end || page == first)
        invariant Valid()
        invariant forall f :: f in free <==> f in was && !(first <= f < page)
      {
        MarkPageUsed(page);
        page := page + 1;
      }
    }

    /** pmm_mark_region_used. */
    method MarkRegionUsed(start: nat, end: nat)
      requires Valid()
      modifies this`freePages, this`free, bitmap
      ensures Valid()
      ensures forall f :: f in free <==> f in old(free) && !(start / PAGE_SIZE <= f < end / PAGE_SIZE)
    {
      MarkPagesUsed(start / PAGE_SIZE, end / PAGE_SIZE);
    }
  }

  /** The next position of the cyclic scan. */
  function After(index: nat, total: nat): (next: nat)
    requires total > 0
    ensures next < total
  {
    (index + 1) % total
  }

  function Address(frame: nat): (a: nat)
    ensures a % PAGE_SIZE == 0 && a / PAGE_SIZE == frame
  {
    frame * PAGE_SIZE
  }

  /** How many steps of the cyclic scan lead from `start` to `f`. */
  function StepsTo(start: nat, total: nat, f: nat): (i: nat)
    requires start < total && f < total
    ensures i < total
  {
    if f >= start then f - start else f + total - start
  }

  lemma StepsToSelf(start: nat, total: nat, i: nat)
    requires start < total && i < total
    ensures var index := (start + i) % total;
            index < total && forall f: nat :: f < total ==> (StepsTo(start, total, f) == i <==> f == index)
  {
    Wrapped(start + i, total);
  }

  lemma Wrapped(x: nat, total: nat)
    requires x < 2 * total
    ensures x % total == if x < total then x else x - total
  {
    var q := x / total;
    Twice(q, total);
    assert q == 0 || q == 1;
  }

  lemma Twice(q: nat, total: nat)
    ensures q >= 2 ==> q * total >= 2 * total
  {
    assert q >= 2 ==> (q - 2) * total >= 0;
  }

  /** The first `n` frames of the scan are all used. */
  ghost predicate NoneWithin(free: set<nat>, total: nat, start: nat, n: nat) {
    forall f :: f in free ==> start < total && f < total && n <= StepsTo(start, total, f)
  }

  lemma NoneAtAll(free: set<nat>, total: nat, start: nat)
    requires NoneWithin(free, total, start, total)
    ensures free == {}
  {
  }

  /** No free frame is met before `index` when stepping cyclically from `start`. */
  ghost predicate NextFit(free: set<nat>, total: nat, start: nat, index: nat) {
    start < total && index < total && NoneWithin(free, total, start, StepsTo(start, total, index))
  }
}
