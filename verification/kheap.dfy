/**
 The kernel heap (src/kernel/memory/heap.c): first fit over a linked list of
 blocks in physical memory, growing by pages of the frame allocator.
 */
module KernelHeap {
  import opened Bits
  import opened Words
  import opened Pmm
  import opened Heap
  import opened HeapMemory

  const INITIAL_PAGES := 16
  /** Requests up to here cannot wrap the 32-bit size arithmetic. */
  const MAX_REQUEST := LIMIT32 - 2 * PAGE

  class KHeap {
    const pmm: FrameAllocator
    const mem: array<byte>
    const heapStart: nat
    var heapEnd: nat
    var totalAllocs: nat
    var totalFrees: nat
    var currentUsage: nat
    var peakUsage: nat
    ghost var blocks: seq<Block>

    /** The linked list in memory is the block list, and it tiles the heap. */
    ghost predicate Listed()
      reads this`heapEnd, this`blocks, mem
    {
      && 0 < heapStart && heapEnd <= mem.Length <= LIMIT32
      && Heaped(blocks, heapStart, heapEnd) && Chained(mem[..], blocks)
    }

    ghost predicate Valid()
      reads this, mem, pmm, pmm.bitmap
    {
      && pmm.Valid() && mem != pmm.bitmap && mem.Length == pmm.totalPages * PAGE
      && heapStart % PAGE == 0 && heapEnd % PAGE == 0
      && Listed()
      && PagesTaken()
      && currentUsage == Sum(blocks, false) <= peakUsage
      && totalAllocs == totalFrees + |Used(blocks)|
    }

    /** The heap's own frames are never free, so the frame allocator cannot hand one out. */
    ghost predicate PagesTaken()
      reads this`heapEnd, pmm`free
    {
      forall f :: heapStart / PAGE <= f < heapEnd / PAGE ==> f !in pmm.free
    }

    /** heap_init: one free block over the first sixteen pages. */
    constructor (allocator: FrameAllocator, memory: array<byte>, start: nat)
      requires allocator.Valid() && memory != allocator.bitmap && memory.Length == allocator.totalPages * PAGE
      requires 0 < start && start % PAGE == 0 && start + INITIAL_PAGES * PAGE <= memory.Length <= LIMIT32
      modifies allocator, allocator.bitmap, memory
      ensures Valid() && pmm == allocator && mem == memory
      ensures blocks == Whole(start, INITIAL_PAGES * PAGE) && Used(blocks) == {}
    {
      pmm, mem, heapStart := allocator, memory, start;
      heapEnd := start + INITIAL_PAGES * PAGE;
      totalAllocs, totalFrees, currentUsage, peakUsage := 0, 0, 0, 0;
      blocks := Whole(start, INITIAL_PAGES * PAGE);
      hide FrameAllocator.Valid, HeaderAt, PutHeader, Sum, Heaped, Chained, Used, Whole;
      new;
      InitialEnd(start);
      WholeHeap(mem[..], start, INITIAL_PAGES * PAGE);
      Store(heapStart, Header(INITIAL_PAGES * PAGE - HEADER, true, 0));
      assert Listed();
      pmm.MarkRegionUsed(heapStart, heapEnd);
    }

    /** Loads and stores of one header. */
    function Load(a: nat): Header
      requires a + HEADER <= mem.Length
      reads mem
    {
      HeaderAt(mem[..], a)
    }

    method Store32(a: nat, v: nat)
      requires a + 4 <= mem.Length && v < LIMIT32
      modifies mem
      ensures mem[..] == Put32(old(mem[..]), a, v)
    {
      var t := Bytes32(v);
      mem[a], mem[a + 1], mem[a + 2], mem[a + 3] := t[0], t[1], t[2], t[3];
    }

    method Store(a: nat, h: Header)
      requires a + HEADER <= mem.Length && Storable(h)
      modifies mem
      ensures mem[..] == PutHeader(old(mem[..]), a, h)
    {
      hide Put32;
      Store32(a, h.size);
      mem[a + 4] := if h.free then 1 else 0;
      Store32(a + 8, h.next);
    }

    lemma Known(k: nat)
      requires Listed() && k < |blocks|
      ensures Heaped(blocks, heapStart, heapEnd) && 0 < heapStart && heapEnd <= mem.Length
      ensures heapStart <= blocks[k].addr && blocks[k].Ptr() < blocks[k].End() <= heapEnd
      ensures Storable(HeaderOf(blocks, k))
      ensures Load(blocks[k].addr) == HeaderOf(blocks, k)
      ensures k + 1 < |blocks| ==> blocks[k + 1].addr > 0
      ensures Load(blocks[k].addr).next + HEADER <= mem.Length
    {
      TiledDisjoint(blocks, heapStart, heapEnd);
      ChainedStorable(mem[..], blocks, heapStart, heapEnd, k);
    }

    /** heap_split. */
    method HeapSplit(a: nat, n: nat, ghost k: nat)
      requires Listed() && k < |blocks| && blocks[k].addr == a && n % 4 == 0 && n > 0 && n <= blocks[k].size
      modifies mem, this`blocks
      ensures Listed() && blocks == Split(old(blocks), k, n)
      ensures DataKeptBut(old(mem[..]), mem[..], old(blocks), k)
      ensures mem[..][a + HEADER..a + HEADER + n] == old(mem[..])[a + HEADER..a + HEADER + n]
    {
      hide HeaderAt, PutHeader, Chained, DataKeptBut, Tiled, Aligned;
      ghost var m, bs := mem[..], blocks;
      Known(k);
      SplitChained(m, bs, heapStart, heapEnd, k, n);
      SplitHeaped(bs, heapStart, heapEnd, k, n);
      var h := Load(a);
      if h.size >= n + HEADER + MIN_DATA {
        var rest := a + HEADER + n;
        Store(rest, Header(h.size - n - HEADER, true, h.next));
        Store(a, Header(n, h.free, rest));
        assert mem[..] == SplitIn(m, bs, k, n);
        blocks := Split(blocks, k, n);
      }
    }
  
    /** Sets the free flag of one block. */
    method SetFree(a: nat, free: bool, ghost k: nat)
      requires Listed() && k < |blocks| && blocks[k].addr == a
      modifies mem, this`blocks
      ensures Listed() && blocks == Mark(old(blocks), k, free)
      ensures Keeps(old(mem[..]), mem[..], Used(old(blocks)))
    {
      hide HeaderAt, PutHeader, Chained, Keeps, Used, Tiled, Aligned;
      Known(k);
      MarkChained(mem[..], blocks, heapStart, heapEnd, k, free);
      MarkHeaped(blocks, heapStart, heapEnd, k, free);
      Store(a, Load(a).(free := free));
      blocks := Mark(blocks, k, free);
    }

    /** One absorption step: block `k` takes over its right neighbour. */
    method Absorb(a: nat, ghost k: nat)
      requires Listed() && k + 1 < |blocks| && blocks[k].addr == a
      modifies mem, this`blocks
      ensures Listed() && blocks == Merge(old(blocks), k)
      ensures Keeps(old(mem[..]), mem[..], Used(old(blocks)))
    {
      hide HeaderAt, PutHeader, Chained, Keeps, Used, Tiled, Aligned;
      Known(k);
      Known(k + 1);
      MergeStorable(mem[..], blocks, heapStart, heapEnd, k);
      MergeChained(mem[..], blocks, heapStart, heapEnd, k);
      MergeHeaped(blocks, heapStart, heapEnd, k);
      var h := Load(a);
      var next := Load(h.next);
      Store(a, Header(h.size + HEADER + next.size, h.free, next.next));
      blocks := Merge(blocks, k);
    }

    /** heap_coalesce. */
    method HeapCoalesce(a: nat, ghost k: nat)
      requires Listed() && k < |blocks| && blocks[k].addr == a && blocks[k].free
      modifies mem, this`blocks
      ensures Listed() && blocks == Coalesce(old(blocks), k)
      ensures Keeps(old(mem[..]), mem[..], Used(old(blocks)))
    {
      hide HeaderAt, PutHeader, Chained, Keeps, Used, Heaped;
      Known(k);
      KeepsSame(mem[..], blocks, heapStart, heapEnd);
      while Load(a).next != 0 && Load(Load(a).next).free
        invariant Listed() && k < |blocks| && blocks[k].addr == a && blocks[k].free
        invariant a + HEADER <= mem.Length
        invariant Load(a).next + HEADER <= mem.Length
        invariant Coalesce(blocks, k) == Coalesce(old(blocks), k)
        invariant Used(blocks) == Used(old(blocks))
        invariant Keeps(old(mem[..]), mem[..], Used(old(blocks)))
        decreases |blocks|
      {
        Known(k);
        Known(k + 1);
        ghost var m := mem[..];
        MergeUsedFree(blocks, heapStart, heapEnd, k);
        Absorb(a, k);
        Known(k);
        KeepsTrans(old(mem[..]), m, mem[..], Used(old(blocks)), Used(old(blocks)));
      }
      Known(k);
      if k + 1 < |blocks| { Known(k + 1); }
    }
  
    /** The first-fit search of kmalloc: the header address, or 0. */
    method FindFit(n: nat) returns (a: nat, ghost k: nat)
      requires Listed()
      ensures k == FirstFit(blocks, n)
      ensures a == if k < |blocks| then blocks[k].addr else 0
      ensures k < |blocks| ==> a > 0
    {
      hide HeaderAt, Chained;
      a, k := heapStart, 0;
      Known(0);
      while a != 0
        invariant 0 <= k <= |blocks|
        invariant a == if k < |blocks| then blocks[k].addr else 0
        invariant k < |blocks| ==> a > 0
        invariant forall j :: 0 <= j < k ==> !(blocks[j].free && blocks[j].size >= n)
        decreases |blocks| - k
      {
        Known(k);
        if Load(a).free && Load(a).size >= n {
          return;
        }
        a, k := Load(a).next, k + 1;
      }
    }

    /** The last block of the list. */
    method FindLast() returns (a: nat)
      requires Listed()
      ensures a == blocks[|blocks| - 1].addr
    {
      hide HeaderAt, Chained;
      a := heapStart;
      ghost var k := 0;
      Known(0);
      while Load(a).next != 0
        invariant 0 <= k < |blocks| && a == blocks[k].addr && a + HEADER <= mem.Length
        decreases |blocks| - k
      {
        Known(k);
        a, k := Load(a).next, k + 1;
        Known(k);
      }
      Known(k);
    }

    /** The page loop of heap_expand, with its roll-back. */
    method ClaimPages(first: nat, count: nat) returns (ok: bool)
      requires pmm.Valid()
      modifies pmm, pmm.bitmap
      ensures pmm.Valid()
      ensures ok <==> forall f :: first <= f < first + count ==> f in old(pmm.free)
      ensures ok ==> count == 0 || first + count <= pmm.totalPages
      ensures forall f :: f in pmm.free <==> f in old(pmm.free) && !(ok && first <= f < first + count)
    {
      hide FrameAllocator.Valid;
      var i := 0;
      while i < count
        invariant 0 <= i <= count && pmm.Valid()
        invariant i == 0 || first + i <= pmm.totalPages
        invariant forall f :: first <= f < first + i ==> f in old(pmm.free)
        invariant forall f :: f in pmm.free <==> f in old(pmm.free) && !(first <= f < first + i)
      {
        var free := pmm.IsPageFree(first + i);
        if !free {
          GiveBack(first, i, old(pmm.free));
          return false;
        }
        pmm.FreeInRange();
        pmm.MarkPageUsed(first + i);
        i := i + 1;
      }
      return true;
    }

    method GiveBack(first: nat, count: nat, ghost was: set<nat>)
      requires pmm.Valid()
      requires count == 0 || first + count <= pmm.totalPages
      requires forall f :: first <= f < first + count ==> f in was
      requires forall f :: f in pmm.free <==> f in was && !(first <= f < first + count)
      modifies pmm, pmm.bitmap
      ensures pmm.Valid()
      ensures forall f :: f in pmm.free <==> f in was
    {
      hide FrameAllocator.Valid;
      var j := 0;
      while j < count
        invariant 0 <= j <= count && pmm.Valid()
        invariant forall f :: f in pmm.free <==> f in was && !(first + j <= f < first + count)
      {
        var r := pmm.FreePage(Address(first + j));
        j := j + 1;
      }
    }
  
    /** heap_expand for `n` more bytes. */
    method HeapExpand(n: nat) returns (ok: bool)
      requires Valid()
      modifies mem, pmm, pmm.bitmap, this`heapEnd, this`blocks
      ensures Valid()
      ensures ok <==> CanExpand(old(pmm.free), old(heapEnd), n)
      ensures !ok ==>
                pmm.free == old(pmm.free) && heapEnd == old(heapEnd) && blocks == old(blocks) && mem[..] == old(mem[..])
      ensures ok ==>
                heapEnd == old(heapEnd) + PagesFor(n) * PAGE &&
                blocks == Extend(old(blocks), old(heapEnd), PagesFor(n) * PAGE)
      ensures ok ==> Keeps(old(mem[..]), mem[..], Used(old(blocks)))
    {
      hide FrameAllocator.Valid, Chained, Keeps, Used, Sum, Heaped;
      var pages := PagesFor(n);
      ghost var free := pmm.free;
      ok := ClaimPages(heapEnd / PAGE, pages);
      if !ok {
        assert pmm.free == free;
        return;
      }
      PageArithmetic(heapEnd, pages, pmm.totalPages);
      AppendBlock(pages * PAGE);
    }

    /** The list half of heap_expand: a new last block, or a larger one. */
    method AppendBlock(bytes: nat)
      requires Listed() && HEADER < bytes && heapEnd + bytes <= mem.Length && bytes % 4 == 0 && heapEnd % 4 == 0
      modifies mem, this`heapEnd, this`blocks
      ensures Listed() && heapEnd == old(heapEnd) + bytes
      ensures blocks == Extend(old(blocks), old(heapEnd), bytes)
      ensures Used(blocks) == Used(old(blocks)) && Sum(blocks, false) == Sum(old(blocks), false)
      ensures Keeps(old(mem[..]), mem[..], Used(old(blocks)))
    {
      hide HeaderAt, PutHeader, Chained, Keeps, Used, Sum, Heaped;
      ExtendLemmas(mem[..], blocks, heapStart, heapEnd, bytes);
      var last := FindLast();
      Known(|blocks| - 1);
      var h := Load(last);
      Store(heapEnd, Header(bytes - HEADER, true, 0));
      if h.free {
        Store(last, h.(size := h.size + bytes));
      } else {
        Store(last, h.(next := heapEnd));
      }
      blocks := Extend(blocks, heapEnd, bytes);
      heapEnd := heapEnd + bytes;
    }

    /** The tail of both searches in kmalloc: split, mark, count. */
    method TakeBlock(a: nat, n: nat, ghost k: nat)
      requires Valid() && k < |blocks| && blocks[k].addr == a && n % 4 == 0 && n > 0 && blocks[k].free
      requires n <= blocks[k].size
      modifies mem, this`blocks, this`totalAllocs, this`currentUsage, this`peakUsage
      ensures Valid()
      ensures blocks == Allocate(old(blocks), k, n)
      ensures Keeps(old(mem[..]), mem[..], Used(old(blocks)))
    {
      hide FrameAllocator.Valid, HeaderAt, Chained, Keeps, Used, Sum, Heaped, Allocate, Split, Listed, PagesTaken;
      Known(k);
      AllocateLemmas(blocks, heapStart, heapEnd, k, n);
      TakeList(a, n, k);
      Known(k);
      totalAllocs := totalAllocs + 1;
      currentUsage := currentUsage + Load(a).size;
      if currentUsage > peakUsage {
        peakUsage := currentUsage;
      }
    }

    method TakeList(a: nat, n: nat, ghost k: nat)
      requires Listed() && k < |blocks| && blocks[k].addr == a && n % 4 == 0 && n > 0 && blocks[k].free
      requires n <= blocks[k].size
      modifies mem, this`blocks
      ensures Listed() && blocks == Allocate(old(blocks), k, n)
      ensures Keeps(old(mem[..]), mem[..], Used(old(blocks)))
    {
      hide HeaderAt, Chained, Keeps, Used, Sum, Heaped, DataKeptBut, Split, Listed;
      ghost var m, bs := mem[..], blocks;
      Known(k);
      AllocateLemmas(bs, heapStart, heapEnd, k, n);
      HeapSplit(a, n, k);
      ghost var m1 := mem[..];
      FreeKept(m, m1, bs, k);
      SetFree(a, false, k);
      KeepsTrans(m, m1, mem[..], Used(bs), Used(bs));
    }

    /** kmalloc: the data pointer, or 0.  `b` is the block that was handed out. */
    method Kmalloc(size: nat) returns (ptr: nat, ghost b: Block)
      requires Valid() && size <= MAX_REQUEST
      modifies mem, pmm, pmm.bitmap, this
      ensures Valid()
      ensures ptr != 0 <==>
                size > 0 && (Fits(old(blocks), size) || CanExpand(old(pmm.free), old(heapEnd), Align4(size)))
      ensures ptr == 0 ==> Same(old(blocks), old(mem[..]), old(pmm.free), old(heapEnd))
      ensures ptr != 0 ==>
                && ptr == b.Ptr() && ptr % 4 == 0 && b.size >= size && b !in Used(old(blocks))
                && Used(blocks) == Used(old(blocks)) + {b}
                && Keeps(old(mem[..]), mem[..], Used(old(blocks)))
                && LowestFit(old(blocks), size, b)
      ensures size > 0 && FirstFit(old(blocks), Align4(size)) < |old(blocks)| ==>
                ptr != 0 && blocks == Allocate(old(blocks), FirstFit(old(blocks), Align4(size)), Align4(size))
      ensures ptr != 0 ==> Bought(old(blocks), old(heapEnd), blocks, heapEnd, size, b)
      ensures ptr != 0 ==> totalAllocs == old(totalAllocs) + 1 && currentUsage == old(currentUsage) + b.size
      ensures Coalesced(old(blocks)) ==> Coalesced(blocks)
    {
      hide FrameAllocator.Valid, HeaderAt, Chained, Keeps, Used, Sum, Heaped, Fits, LowestFit, Coalesced, Allocate,
        Extend, Bought, PagesTaken;
      b := Block(0, 0, true);
      if size == 0 {
        return 0, b;
      }
      var n := Align4(size);
      ghost var m, bs := mem[..], blocks;
      var a, k := FindFit(n);
      FitsAligned(bs, heapStart, heapEnd, size);
      if a == 0 {
        var grown := HeapExpand(n);
        if !grown {
          return 0, b;
        }
        ExtendedKeeps(bs, heapStart, old(heapEnd), PagesFor(n) * PAGE);
        ExtendedFits(bs, old(heapEnd), n);
        a, k := FindFit(n);
      }
      ghost var m1, bs1 := mem[..], blocks;
      BoughtIs(bs, old(heapEnd), bs1, heapStart, heapEnd, size, k);
      KeepsSame(m, bs, heapStart, old(heapEnd));
      AllocateLemmas(bs1, heapStart, heapEnd, k, n);
      TakeBlock(a, n, k);
      KeepsTrans(m, m1, mem[..], Used(bs), Used(bs));
      b := blocks[k];
      ptr := a + HEADER;
      HeapedAt(blocks, heapStart, heapEnd, k);
      LowestAligned(bs, heapStart, old(heapEnd), size, b);
    }

    /** The predecessor walk of kfree: the header before `a`, or 0. */
    method FindPrevious(a: nat, ghost k: nat) returns (prev: nat)
      requires Listed() && k < |blocks| && blocks[k].addr == a
      ensures prev == if k == 0 then 0 else blocks[k - 1].addr
      ensures k > 0 ==> prev > 0
    {
      hide HeaderAt, Chained;
      OnlyOnce(blocks, heapStart, heapEnd, k);
      prev := heapStart;
      ghost var j := 0;
      Known(0);
      while prev != 0 && Load(prev).next != a
        invariant 0 <= j <= |blocks|
        invariant prev == if j < |blocks| then blocks[j].addr else 0
        invariant j < |blocks| ==> prev > 0 && prev + HEADER <= mem.Length
        invariant k > 0 ==> j < k
        decreases |blocks| - j
      {
        Known(j);
        prev, j := Load(prev).next, j + 1;
        if j < |blocks| { Known(j); }
      }
      if j < |blocks| { Known(j); }
    }

    /** kfree.  `b` is the block whose data area starts at `ptr`. */
    method Kfree(ptr: nat, ghost b: Block) returns (r: FreeResult)
      requires Valid() && (ptr == 0 || ptr < heapStart || ptr >= heapEnd || (b in blocks && b.Ptr() == ptr))
      modifies mem, this`blocks, this`totalFrees, this`currentUsage
      ensures Valid()
      ensures r == (if ptr == 0 then Done
                    else if ptr < heapStart || ptr >= heapEnd then PanicOutside
                    else if b.free then PanicFreedTwice else Done)
      ensures !r.Done? || ptr == 0 ==> Same(old(blocks), old(mem[..]), old(pmm.free), old(heapEnd))
      ensures r.Done? && ptr != 0 ==>
                Used(blocks) == Used(old(blocks)) - {b} && Keeps(old(mem[..]), mem[..], Used(old(blocks)) - {b})
      ensures r.Done? && ptr != 0 ==> Returned(old(blocks), blocks, b)
      ensures Coalesced(old(blocks)) ==> Coalesced(blocks)
    {
      hide FrameAllocator.Valid, HeaderAt, Chained, Keeps, Used, Sum, Heaped, Coalesced, Release, Returned;
      if ptr == 0 {
        return Done;
      }
      if ptr < heapStart || ptr >= heapEnd {
        return PanicOutside;
      }
      ghost var k :| 0 <= k < |blocks| && blocks[k] == b;
      Known(k);
      var a := ptr - HEADER;
      if Load(a).free {
        return PanicFreedTwice;
      }
      ghost var bs := blocks;
      ReleaseLemmas(bs, heapStart, heapEnd, k);
      totalFrees := totalFrees + 1;
      currentUsage := currentUsage - Load(a).size;
      ReleaseBlock(a, k);
      ReleaseNumbers(bs, heapStart, heapEnd, k);
      r := Done;
    }

    /** The list half of kfree. */
    method ReleaseBlock(a: nat, ghost k: nat)
      requires Listed() && k < |blocks| && blocks[k].addr == a && !blocks[k].free
      modifies mem, this`blocks
      ensures Listed() && blocks == Release(old(blocks), k)
      ensures Keeps(old(mem[..]), mem[..], Used(old(blocks)) - {old(blocks)[k]})
    {
      hide HeaderAt, Chained, Keeps, Used, Heaped, Coalesce;
      ghost var m, bs := mem[..], blocks;
      ReleaseSteps(bs, heapStart, heapEnd, k);
      ghost var live := Used(bs) - {bs[k]};
      SetFree(a, true, k);
      ghost var m1 := mem[..];
      HeapCoalesce(a, k);
      ghost var m2 := mem[..];
      KeepsTrans3(m, m1, m2, Used(bs), live);
      var prev := FindPrevious(a, k);
      if prev != 0 {
        Known(k - 1);
        if Load(prev).free {
          HeapCoalesce(prev, k - 1);
          KeepsTrans(m, m2, mem[..], live, live);
        }
      }
    }

    /** krealloc, first path: the block is large enough. */
    method ShrinkInPlace(a: nat, n: nat, ghost k: nat)
      requires Valid() && k < |blocks| && blocks[k].addr == a && !blocks[k].free && n % 4 == 0 && n > 0
      requires n <= blocks[k].size
      modifies mem, this`blocks, this`currentUsage
      ensures Valid() && blocks == Split(old(blocks), k, n)
      ensures Resized(old(blocks), old(mem[..]), blocks, mem[..], k, n)
    {
      hide FrameAllocator.Valid, HeaderAt, Chained, Keeps, Used, Sum, Heaped, DataKeptBut, Split, Listed, Resized,
        PagesTaken;
      Known(k);
      ShrinkLemmas(blocks, heapStart, heapEnd, k, n);
      var was := Load(a).size;
      ShrinkList(a, n, k);
      Known(k);
      if Load(a).size != was {
        currentUsage := currentUsage - (was - Load(a).size);
      }
    }

    method ShrinkList(a: nat, n: nat, ghost k: nat)
      requires Listed() && k < |blocks| && blocks[k].addr == a && !blocks[k].free && n % 4 == 0 && n > 0
      requires n <= blocks[k].size
      modifies mem, this`blocks
      ensures Listed() && blocks == Split(old(blocks), k, n)
      ensures Resized(old(blocks), old(mem[..]), blocks, mem[..], k, n)
    {
      hide HeaderAt, Chained, Keeps, Used, Sum, Heaped, DataKeptBut, Split, Listed, Resized;
      ghost var m, bs := mem[..], blocks;
      Known(k);
      ShrinkLemmas(bs, heapStart, heapEnd, k, n);
      HeapSplit(a, n, k);
      Known(k);
      ShrinkResized(bs, m, blocks, mem[..], k, n);
    }

    /** krealloc, second path: the free right neighbour makes room. */
    method GrowInPlace(a: nat, n: nat, ghost k: nat)
      requires Valid() && k + 1 < |blocks| && blocks[k].addr == a && !blocks[k].free && blocks[k + 1].free && n % 4 == 0
      requires n > 0
      requires blocks[k].size < n <= blocks[k].size + HEADER + blocks[k + 1].size
      modifies mem, this`blocks, this`currentUsage, this`peakUsage
      ensures Valid() && blocks == Grow(old(blocks), k, n)
      ensures Resized(old(blocks), old(mem[..]), blocks, mem[..], k, n)
    {
      hide FrameAllocator.Valid, HeaderAt, Chained, Keeps, Used, Sum, Heaped, Grow, Listed, Resized, PagesTaken;
      Known(k);
      GrowLemmas(blocks, heapStart, heapEnd, k, n);
      var was := Load(a).size;
      GrowList(a, n, k);
      Known(k);
      currentUsage := currentUsage + (Load(a).size - was);
      if currentUsage > peakUsage {
        peakUsage := currentUsage;
      }
    }

    method GrowList(a: nat, n: nat, ghost k: nat)
      requires Listed() && k + 1 < |blocks| && blocks[k].addr == a && !blocks[k].free && blocks[k + 1].free
      requires n % 4 == 0 && n > 0
      requires blocks[k].size < n <= blocks[k].size + HEADER + blocks[k + 1].size
      modifies mem, this`blocks
      ensures Listed() && blocks == Grow(old(blocks), k, n)
      ensures Resized(old(blocks), old(mem[..]), blocks, mem[..], k, n)
    {
      hide HeaderAt, Chained, Keeps, Used, Sum, Heaped, DataKeptBut, Split, Merge, Listed;
      ghost var m, bs := mem[..], blocks;
      Known(k);
      GrowLemmas(bs, heapStart, heapEnd, k, n);
      Absorb(a, k);
      ghost var m1 := mem[..];
      HeapSplit(a, n, k);
      Known(k);
      GrowKeeps(m, m1, mem[..], bs, k, n);
    }

    /** memcpy between disjoint stretches of memory. */
    method CopyBytes(dst: nat, src: nat, n: nat)
      requires dst + n <= mem.Length && src + n <= mem.Length && (dst + n <= src || src + n <= dst)
      modifies mem
      ensures mem[..] == Splice(old(mem[..]), dst, old(mem[..])[src..src + n])
    {
      var i := 0;
      while i < n
        invariant 0 <= i <= n
        invariant forall x :: 0 <= x < mem.Length && !(dst <= x < dst + i) ==> mem[x] == old(mem[x])
        invariant forall x :: dst <= x < dst + i ==> mem[x] == old(mem[src + (x - dst)])
      {
        mem[dst + i] := mem[src + i];
        i := i + 1;
      }
    }

    /** A write inside the data area of a live block. */
    lemma Writable(k: nat, o: nat, t: seq<byte>)
      requires Listed() && k < |blocks| && blocks[k].Ptr() <= o && o + |t| <= blocks[k].End()
      ensures blocks[k].End() <= mem.Length
      ensures Chained(Splice(mem[..], o, t), blocks)
      ensures Keeps(mem[..], Splice(mem[..], o, t), Used(blocks) - {blocks[k]})
    {
      hide Chained, Keeps, DataKeptBut, Splice;
      Known(k);
      DataWrite(mem[..], blocks, heapStart, heapEnd, k, o, t);
      KeptButUsed(mem[..], Splice(mem[..], o, t), blocks, k);
    }

    /** Copies the first `n` bytes of live block `from` into live block `to`. */
    method CopyData(from: Block, to: Block, n: nat)
      requires Valid() && from in Used(blocks) && to in Used(blocks) && from != to && n <= from.size && n <= to.size
      modifies mem
      ensures Valid() && to.Ptr() + n <= mem.Length && from.Ptr() + n <= mem.Length
      ensures Keeps(old(mem[..]), mem[..], Used(blocks) - {to})
      ensures mem[..][to.Ptr()..to.Ptr() + n] == old(mem[..])[from.Ptr()..from.Ptr() + n]
    {
      hide FrameAllocator.Valid, Keeps, Used, Sum, PagesTaken, Listed;
      CopyListed(from, to, n);
    }

    method CopyListed(from: Block, to: Block, n: nat)
      requires Listed() && from in Used(blocks) && to in Used(blocks) && from != to && n <= from.size && n <= to.size
      modifies mem
      ensures Listed() && to.Ptr() + n <= mem.Length && from.Ptr() + n <= mem.Length
      ensures Keeps(old(mem[..]), mem[..], Used(blocks) - {to})
      ensures mem[..][to.Ptr()..to.Ptr() + n] == old(mem[..])[from.Ptr()..from.Ptr() + n]
    {
      hide HeaderAt, Chained, Keeps, Used, Heaped, Splice;
      ghost var i, j := IndexOf(blocks, from), IndexOf(blocks, to);
      Known(i);
      Known(j);
      BlocksApart(blocks, heapStart, heapEnd, i, j);
      Writable(j, to.Ptr(), mem[..][from.Ptr()..from.Ptr() + n]);
      CopyBytes(to.Ptr(), from.Ptr(), n);
    }

    /** krealloc, third path: allocate, copy, free. */
    method Move(ptr: nat, newSize: nat, ghost b: Block) returns (res: nat, ghost nb: Block)
      requires Valid() && 0 < newSize <= MAX_REQUEST && b in Used(blocks) && b.Ptr() == ptr
      modifies mem, pmm, pmm.bitmap, this
      ensures Valid()
      ensures res != 0 <==> Fits(old(blocks), newSize) || CanExpand(old(pmm.free), old(heapEnd), Align4(newSize))
      ensures res == 0 ==> Same(old(blocks), old(mem[..]), old(pmm.free), old(heapEnd))
      ensures res != 0 ==> res == nb.Ptr() && Moved(old(blocks), old(mem[..]), blocks, mem[..], b, nb, newSize)
      ensures res != 0 ==>
                exists bs: seq<Block> ::
                  Bought(old(blocks), old(heapEnd), bs, heapEnd, newSize, nb) && Returned(bs, blocks, b)
      ensures Coalesced(old(blocks)) ==> Coalesced(blocks)
    {
      hide *;
      res, nb := Kmalloc(newSize);
      if res == 0 {
        return;
      }
      ghost var bs := blocks;
      CopyAndFree(ptr, res, newSize, b, nb, old(blocks), old(mem[..]));
      assert Bought(old(blocks), old(heapEnd), bs, heapEnd, newSize, nb) && Returned(bs, blocks, b);
    }

    /** The copying part of krealloc: as many bytes as both blocks have. */
    method CopyOver(ptr: nat, res: nat, newSize: nat, ghost b: Block, ghost nb: Block) returns (n: nat)
      requires Valid() && b in Used(blocks) && nb in Used(blocks) && b != nb && nb.size >= newSize
      requires ptr == b.Ptr() && res == nb.Ptr()
      modifies mem
      ensures Valid() && n == (if newSize <= b.size then newSize else b.size) && 0 < heapStart <= ptr < heapEnd
      ensures nb.End() <= mem.Length && b.End() <= mem.Length && Keeps(old(mem[..]), mem[..], Used(blocks) - {nb})
      ensures mem[..][nb.Ptr()..nb.Ptr() + n] == old(mem[..])[b.Ptr()..b.Ptr() + n]
    {
      hide FrameAllocator.Valid, HeaderAt, Chained, Keeps, Used, Sum, Heaped, PagesTaken, Listed;
      Known(IndexOf(blocks, b));
      Known(IndexOf(blocks, nb));
      n := Load(ptr - HEADER).size;
      if n > newSize {
        n := newSize;
      }
      CopyData(BlockAt(ptr), BlockAt(res), n);
    }

    method CopyAndFree(ptr: nat, res: nat, newSize: nat, ghost b: Block, ghost nb: Block, ghost bs: seq<Block>,
                       ghost m: seq<byte>)
      requires Valid() && b in Used(bs) && nb !in Used(bs) && Used(blocks) == Used(bs) + {nb} && nb.size >= newSize
      requires ptr == b.Ptr() && res == nb.Ptr() && |m| == mem.Length && Keeps(m, mem[..], Used(bs))
      modifies mem, this`blocks, this`totalFrees, this`currentUsage
      ensures Valid()
      ensures Moved(bs, m, blocks, mem[..], b, nb, newSize) && Returned(old(blocks), blocks, b)
      ensures Coalesced(old(blocks)) ==> Coalesced(blocks)
    {
      hide FrameAllocator.Valid, HeaderAt, Chained, Keeps, Used, Sum, Heaped, PagesTaken, Coalesced, Moved, Listed;
      ghost var m1 := mem[..];
      var n := CopyOver(ptr, res, newSize, b, nb);
      ghost var m2 := mem[..];
      InBlocks(blocks, b);
      var _ := Kfree(ptr, b);
      MoveKeeps(m, m1, m2, mem[..], bs, b, nb, n);
      MoveDone(bs, m, blocks, mem[..], b, nb, newSize);
    }

    /** The block whose data area starts at `ptr`, as its header describes it. */
    function BlockAt(ptr: nat): Block
      requires HEADER <= ptr <= mem.Length
      reads mem
    {
      Block(ptr - HEADER, Load(ptr - HEADER).size, Load(ptr - HEADER).free)
    }

    /** krealloc.  `b` is the block at `ptr`, `nb` the block at the result. */
    method Krealloc(ptr: nat, newSize: nat, ghost b: Block) returns (res: nat, ghost nb: Block)
      requires Valid() && newSize <= MAX_REQUEST && (ptr == 0 || (b in Used(blocks) && b.Ptr() == ptr))
      modifies mem, pmm, pmm.bitmap, this
      ensures Valid()
      ensures newSize > 0 && (ptr == 0 || !InPlace(old(blocks), b, Align4(newSize))) ==>
                (res != 0 <==> Fits(old(blocks), newSize) || CanExpand(old(pmm.free), old(heapEnd), Align4(newSize)))
      ensures newSize > 0 && ptr != 0 && InPlace(old(blocks), b, Align4(newSize)) ==> res == ptr
      ensures newSize == 0 ==> res == 0
      ensures ptr == 0 && res != 0 ==> res == nb.Ptr() && nb.size >= newSize && Used(blocks) == Used(old(blocks)) + {nb}
                                       && nb !in Used(old(blocks)) && Keeps(old(mem[..]), mem[..], Used(old(blocks)))
      ensures ptr != 0 && newSize == 0 ==> res == 0 && Used(blocks) == Used(old(blocks)) - {b}
                                           && Keeps(old(mem[..]), mem[..], Used(old(blocks)) - {b})
      ensures res == 0 && (ptr == 0 || newSize > 0) ==> Same(old(blocks), old(mem[..]), old(pmm.free), old(heapEnd))
      ensures ptr != 0 && res != 0 ==>
                res == nb.Ptr() && Moved(old(blocks), old(mem[..]), blocks, mem[..], b, nb, newSize)
      ensures ptr == 0 || newSize == 0 || b.size < Align4(newSize) ==> (Coalesced(old(blocks)) ==> Coalesced(blocks))
      ensures ptr != 0 && 0 < newSize && Align4(newSize) <= b.size ==>
                exists k: nat ::
                  k < |old(blocks)| && old(blocks)[k] == b && blocks == Split(old(blocks), k, Align4(newSize))
      ensures ptr == 0 && res != 0 ==> Bought(old(blocks), old(heapEnd), blocks, heapEnd, newSize, nb)
      ensures ptr != 0 && res != 0 ==> Resold(old(blocks), old(heapEnd), blocks, heapEnd, newSize, b, nb)
    {
      hide FrameAllocator.Valid, HeaderAt, Chained, Keeps, Used, Sum, Heaped, PagesTaken, Coalesced, LowestFit, Moved,
        Fits, CanExpand, Split, Grow, Resized, InPlace, Bought, Returned, CutDown, CutInto;
      nb := b;
      if ptr == 0 {
        res, nb := Kmalloc(newSize);
        return;
      }
      InBlocks(blocks, b);
      ghost var k := IndexOf(blocks, b);
      ghost var m, bs := mem[..], blocks;
      Known(k);
      if newSize == 0 {
        var r := Kfree(ptr, b);
        return 0, nb;
      }
      var n := Align4(newSize);
      var a := ptr - HEADER;
      var h := Load(a);
      if h.size >= n {
        FitsInPlace(bs, k, n);
        ShrinkInPlace(a, n, k);
        ResizedMoved(bs, m, blocks, mem[..], heapStart, heapEnd, k, n, newSize);
        ShrinkNumbers(bs, heapStart, heapEnd, k, n);
        return ptr, blocks[k];
      }
      if h.next != 0 {
        Known(k + 1);
        var next := Load(h.next);
        if next.free && h.size + HEADER + next.size >= n {
          FitsInPlace(bs, k, n);
          GrowInPlace(a, n, k);
          ResizedMoved(bs, m, blocks, mem[..], heapStart, heapEnd, k, n, newSize);
          GrowApart(bs, k, n);
          GrowNumbers(bs, heapStart, heapEnd, k, n);
          assert bs[k + 1] in bs && bs[k + 1].addr == b.End() by { NextAt(bs, heapStart, heapEnd, k); }
          return ptr, blocks[k];
        }
      }
      NotInPlace(bs, heapStart, heapEnd, k, n);
      res, nb := Move(ptr, newSize, b);
    }

    /** memset of the first `n` bytes of a live block to zero. */
    method ZeroData(ptr: nat, n: nat, ghost b: Block)
      requires Valid() && b in Used(blocks) && b.Ptr() == ptr && n <= b.size
      modifies mem
      ensures Valid() && ptr + n <= mem.Length
      ensures Keeps(old(mem[..]), mem[..], Used(blocks) - {b})
      ensures forall x :: ptr <= x < ptr + n ==> mem[x] == 0
    {
      hide FrameAllocator.Valid, HeaderAt, Chained, Keeps, Used, Sum, Heaped, PagesTaken;
      ghost var k := IndexOf(blocks, b);
      ghost var zeros := seq(n, _ => 0 as byte);
      Known(k);
      Writable(k, ptr, zeros);
      ghost var m := mem[..];
      FillZero(ptr, n);
      assert mem[..] == Splice(m, ptr, zeros);
    }

    method FillZero(ptr: nat, n: nat)
      requires ptr + n <= mem.Length
      modifies mem
      ensures forall x :: ptr <= x < ptr + n ==> mem[x] == 0
      ensures forall x :: 0 <= x < mem.Length && !(ptr <= x < ptr + n) ==> mem[x] == old(mem[x])
    {
      var i := 0;
      while i < n
        invariant 0 <= i <= n
        invariant forall x :: ptr <= x < ptr + i ==> mem[x] == 0
        invariant forall x :: 0 <= x < mem.Length && !(ptr <= x < ptr + i) ==> mem[x] == old(mem[x])
      {
        mem[ptr + i] := 0;
        i := i + 1;
      }
    }

    /** kcalloc: fails when count * size does not fit 32 bits, otherwise a zeroed kmalloc. */
    method Kcalloc(count: nat, size: nat) returns (ptr: nat, ghost b: Block)
      requires Valid() && count < LIMIT32 && size < LIMIT32 && count * size % LIMIT32 <= MAX_REQUEST
      modifies mem, pmm, pmm.bitmap, this
      ensures Valid()
      ensures ptr != 0 ==>
                && 0 < count * size < LIMIT32 && ptr == b.Ptr() && b.size >= count * size && b !in Used(old(blocks))
                && Used(blocks) == Used(old(blocks)) + {b}
                && Keeps(old(mem[..]), mem[..], Used(old(blocks)))
                && ptr + count * size <= mem.Length && forall x :: ptr <= x < ptr + count * size ==> mem[x] == 0
      ensures ptr != 0 ==> Bought(old(blocks), old(heapEnd), blocks, heapEnd, count * size, b)
      ensures ptr == 0 ==> Same(old(blocks), old(mem[..]), old(pmm.free), old(heapEnd))
      ensures ptr == 0 && 0 < count * size < LIMIT32 ==>
                !Fits(old(blocks), count * size) && !CanExpand(old(pmm.free), old(heapEnd), Align4(count * size))
      ensures Coalesced(old(blocks)) ==> Coalesced(blocks)
    {
      hide FrameAllocator.Valid, Keeps, Used, Sum, Heaped, Listed, PagesTaken, LowestFit, Fits, CanExpand, Coalesced,
        Align4, Bought;
      b := Block(0, 0, true);
      var total := count * size % LIMIT32;
      OverflowCheck(count, size);
      if count != 0 && total / count != size {
        return 0, b;
      }
      ghost var m, bs := mem[..], blocks;
      ptr, b := Kmalloc(total);
      if ptr != 0 {
        ghost var m1 := mem[..];
        ZeroData(ptr, total, b);
        KeepsFresh(m, m1, mem[..], Used(bs), b);
      }
    }

    /** heap_free_size and heap_block_count, and how they add up with the usage counter. */
    method Totals() returns (freeBytes: nat, count: nat)
      requires Valid()
      ensures freeBytes == Sum(blocks, true) && count == |blocks|
      ensures freeBytes + currentUsage + HEADER * count == heapEnd - heapStart
    {
      hide FrameAllocator.Valid, HeaderAt, Chained, Sum, PagesTaken;
      freeBytes, count := 0, 0;
      var a := heapStart;
      Known(0);
      SumNone(blocks, true);
      while a != 0
        invariant 0 <= count <= |blocks|
        invariant a == if count < |blocks| then blocks[count].addr else 0
        invariant count < |blocks| ==> a > 0
        invariant freeBytes == Sum(blocks[..count], true)
        decreases |blocks| - count
      {
        Known(count);
        SumStep(blocks, count, true);
        if Load(a).free {
          freeBytes := freeBytes + Load(a).size;
        }
        a, count := Load(a).next, count + 1;
      }
      assert blocks[..count] == blocks;
      Accounting(blocks, heapStart, heapEnd);
    }

    ghost predicate Same(bs: seq<Block>, m: seq<byte>, free: set<nat>, end: nat)
      reads this, mem, pmm
    {
      blocks == bs && mem[..] == m && pmm.free == free && heapEnd == end
    }
  }

  /** The free block that an allocation was cut from stood in the list, or heap_expand brought it. */
  ghost predicate Bought(bs: seq<Block>, end: nat, bs': seq<Block>, end': nat, size: nat, b: Block) {
    if Fits(bs, size)
    then end' == end && exists c: Block :: c in bs && c.free && CutFrom(bs, bs', c, Align4(size), b)
    else exists pages: nat, bs1: seq<Block>, c: Block ::
           && PagesNeeded(Align4(size), pages) && end' == end + pages * 4096 && Lengthened(bs, bs1, end, pages * 4096)
           && c in bs1 && c.free && CutFrom(bs1, bs', c, Align4(size), b)
  }

  lemma BoughtIs(bs: seq<Block>, end: nat, bs1: seq<Block>, start: nat, end': nat, size: nat, k: nat)
    requires Heaped(bs1, start, end') && 0 < size && k < |bs1| && bs1[k].free && bs1[k].size >= Align4(size) && |bs| > 0
    requires if Fits(bs, size) then bs1 == bs && end' == end
             else var pages := PagesFor(Align4(size));
                  bs1 == Extend(bs, end, pages * PAGE) && end' == end + pages * PAGE
    ensures k < |Allocate(bs1, k, Align4(size))|
    ensures Bought(bs, end, Allocate(bs1, k, Align4(size)), end', size, Allocate(bs1, k, Align4(size))[k])
  {
    hide Heaped, Fits, CutFrom, Extend, Allocate, PagesNeeded, Lengthened;
    var n := Align4(size);
    AllocateNumbers(bs1, start, end', k, n);
    assert bs1[k] in bs1;
    if !Fits(bs, size) {
      ExtendNumbers(bs, end, n);
    }
  }

  /** What a freed block adds to the free bytes: its own, and a header for every neighbour it was joined to. */
  ghost predicate Returned(bs: seq<Block>, bs': seq<Block>, b: Block) {
    |bs'| <= |bs| && Sum(bs', true) == Sum(bs, true) + b.size + 12 * (|bs| - |bs'|)
  }

  lemma ReleaseNumbers(bs: seq<Block>, start: nat, end: nat, k: nat)
    requires Heaped(bs, start, end) && k < |bs| && !bs[k].free
    ensures Returned(bs, Release(bs, k), bs[k])
  {
    hide Sum, Release, Heaped;
    ReleaseEffect(bs, start, end, k);
    ReleaseSum(bs, k);
    ReleaseCount(bs, k);
    HeapedSum(bs, start, end);
    HeapedSum(Release(bs, k), start, end);
  }

  lemma ReleaseCount(bs: seq<Block>, k: nat)
    requires k < |bs|
    ensures |Release(bs, k)| <= |bs|
  {
  }

  lemma HeapedSum(bs: seq<Block>, start: nat, end: nat)
    requires Heaped(bs, start, end)
    ensures Sum(bs, true) + Sum(bs, false) + 12 * |bs| == end - start
  {
    Accounting(bs, start, end);
  }

  /** Sizes after a resize, on each of its three paths. */
  ghost predicate Resold(bs: seq<Block>, end: nat, bs': seq<Block>, end': nat, size: nat, b: Block, nb: Block) {
    if Align4(size) <= b.size then end' == end && CutDown(bs, bs', b, Align4(size), nb)
    else if InPlace(bs, b, Align4(size))
    then end' == end && exists c: Block :: c in bs && c.free && c.addr == b.End() &&
                                           CutInto(bs, bs', b, c, Align4(size), nb)
    else exists bs1: seq<Block> :: Bought(bs, end, bs1, end', size, nb) && Returned(bs1, bs', b)
  }

  ghost function IndexOf(bs: seq<Block>, b: Block): (k: nat)
    requires b in Used(bs)
    ensures k < |bs| && bs[k] == b && !b.free
  {
    var k :| 0 <= k < |bs| && bs[k] == b;
    k
  }

  lemma InBlocks(bs: seq<Block>, b: Block)
    requires b in Used(bs)
    ensures b in bs && !b.free
  {
  }

  /** The allocation `b` became `nb`: enough room, the common first bytes kept, every other allocation untouched. */
  ghost predicate Moved(bs: seq<Block>, m: seq<byte>, bs': seq<Block>, m': seq<byte>, b: Block, nb: Block, size: nat) {
    && nb.size >= size && Used(bs') == Used(bs) - {b} + {nb}
    && Keeps(m, m', Used(bs) - {b})
    && b.End() <= |m| && nb.End() <= |m'|
    && var len := if size <= b.size then size else b.size;
       m'[nb.Ptr()..nb.Ptr() + len] == m[b.Ptr()..b.Ptr() + len]
  }

  /** The block can be resized where it is: it is large enough, or its right neighbour is free and makes it so. */
  ghost predicate InPlace(bs: seq<Block>, b: Block, n: nat) {
    b.size >= n ||
    exists k: nat ::
      k + 1 < |bs| && bs[k] == b && bs[k + 1].free && b.size + HEADER + bs[k + 1].size >= n
  }

  lemma NextAt(bs: seq<Block>, start: nat, end: nat, k: nat)
    requires Heaped(bs, start, end) && k + 1 < |bs|
    ensures bs[k + 1].addr == bs[k].End()
  {
  }

  lemma FitsInPlace(bs: seq<Block>, k: nat, n: nat)
    requires k < |bs|
    requires (bs[k].size >= n || (k + 1 < |bs| && bs[k + 1].free && bs[k].size + HEADER + bs[k + 1].size >= n))
    ensures InPlace(bs, bs[k], n)
  {
  }

  lemma NotInPlace(bs: seq<Block>, start: nat, end: nat, k: nat, n: nat)
    requires Heaped(bs, start, end) && k < |bs| && bs[k].size < n
    requires k + 1 < |bs| && bs[k + 1].free ==> bs[k].size + HEADER + bs[k + 1].size < n
    ensures !InPlace(bs, bs[k], n)
  {
    OnlyOnce(bs, start, end, k);
  }

  lemma MoveKeeps(m: seq<byte>, m1: seq<byte>, m2: seq<byte>, m3: seq<byte>, bs: seq<Block>, b: Block, nb: Block,
                  n: nat)
    requires b in Used(bs) && nb !in Used(bs) && n <= b.size && n <= nb.size
    requires Keeps(m, m1, Used(bs)) && Keeps(m1, m2, Used(bs) + {nb} - {nb}) && Keeps(m2, m3, Used(bs) + {nb} - {b})
    requires nb.End() <= |m| && m2[nb.Ptr()..nb.Ptr() + n] == m1[b.Ptr()..b.Ptr() + n]
    ensures Keeps(m, m3, Used(bs) - {b}) && b.End() <= |m| && |m3| == |m|
    ensures m3[nb.Ptr()..nb.Ptr() + n] == m[b.Ptr()..b.Ptr() + n]
  {
    hide Used;
    MoveSets(Used(bs), b, nb);
    KeepsOne(m, m1, Used(bs), b);
    KeepsOne(m2, m3, Used(bs) + {nb} - {b}, nb);
    hide Keeps;
    HeadKept(m2, m3, nb.Ptr(), nb.End(), n);
    HeadKept(m, m1, b.Ptr(), b.End(), n);
    KeepsTrans3(m, m1, m2, Used(bs), Used(bs));
    KeepsFewer(m2, m3, Used(bs) + {nb} - {b}, Used(bs) - {b});
    KeepsTrans3(m, m2, m3, Used(bs), Used(bs) - {b});
  }

  lemma MoveSets(s: set<Block>, b: Block, nb: Block)
    requires b in s && nb !in s
    ensures s + {nb} - {nb} == s && nb in s + {nb} - {b} && s - {b} <= s + {nb} - {b}
  {
  }

  lemma KeepsOne(m: seq<byte>, m': seq<byte>, s: set<Block>, b: Block)
    requires Keeps(m, m', s) && b in s
    ensures |m'| == |m| && b.End() <= |m| && m'[b.Ptr()..b.End()] == m[b.Ptr()..b.End()]
  {
  }

  lemma KeepsFewer(m: seq<byte>, m': seq<byte>, s: set<Block>, t: set<Block>)
    requires Keeps(m, m', s) && t <= s
    ensures Keeps(m, m', t)
  {
  }

  /** Equal stretches have equal beginnings. */
  lemma HeadKept(m: seq<byte>, m': seq<byte>, o: nat, end: nat, n: nat)
    requires |m| == |m'| && o + n <= end <= |m| && m'[o..end] == m[o..end]
    ensures m'[o..o + n] == m[o..o + n]
  {
    assert m'[o..o + n] == m'[o..end][..n];
    assert m[o..o + n] == m[o..end][..n];
  }

  lemma MoveDone(bs: seq<Block>, m: seq<byte>, bs': seq<Block>, m': seq<byte>, b: Block, nb: Block, size: nat)
    requires nb.size >= size && b != nb && Used(bs') == Used(bs) + {nb} - {b}
    requires Keeps(m, m', Used(bs) - {b}) && b.End() <= |m| && nb.End() <= |m'|
    requires var len := if size <= b.size then size else b.size;
             m'[nb.Ptr()..nb.Ptr() + len] == m[b.Ptr()..b.Ptr() + len]
    ensures Moved(bs, m, bs', m', b, nb, size)
  {
    hide Keeps, Used;
  }

  lemma ResizedMoved(bs: seq<Block>, m: seq<byte>, bs': seq<Block>, m': seq<byte>, start: nat, end: nat, k: nat, n: nat,
                     size: nat)
    requires Resized(bs, m, bs', m', k, n) && n == Align4(size) && Heaped(bs, start, end)
    ensures k < |bs'| && bs'[k].addr == bs[k].addr
    ensures Moved(bs, m, bs', m', bs[k], bs'[k], size)
  {
    hide Keeps, Used;
    RoundedSize(bs, start, end, k, size);
    var p, len := bs[k].Ptr(), if n <= bs[k].size then n else bs[k].size;
    var need := if size <= bs[k].size then size else bs[k].size;
    assert m'[p..p + len][..need] == m'[p..p + need];
    assert m[p..p + len][..need] == m[p..p + need];
  }

  lemma GrowApart(bs: seq<Block>, k: nat, n: nat)
    requires k + 1 < |bs| && !bs[k].free && bs[k + 1].free
    ensures Coalesced(bs) ==> Coalesced(Grow(bs, k, n))
  {
    if Coalesced(bs) { GrowCoalesced(bs, k, n); }
  }

  lemma BlocksApart(bs: seq<Block>, start: nat, end: nat, i: nat, j: nat)
    requires Heaped(bs, start, end) && i < |bs| && j < |bs| && bs[i] != bs[j]
    ensures bs[i].End() <= bs[j].addr || bs[j].End() <= bs[i].addr
  {
    TiledDisjoint(bs, start, end);
  }

  datatype FreeResult = Done | PanicOutside | PanicFreedTwice

  lemma KeepsTrans3(m: seq<byte>, m1: seq<byte>, m2: seq<byte>, s: set<Block>, t: set<Block>)
    requires Keeps(m, m1, s) && Keeps(m1, m2, t) && t <= s
    ensures Keeps(m, m2, t)
  {
  }

  lemma ReleaseSteps(bs: seq<Block>, start: nat, end: nat, k: nat)
    requires Heaped(bs, start, end) && k < |bs| && !bs[k].free
    ensures var marked := Mark(bs, k, true);
            var forward := Coalesce(marked, k);
            && marked[k].free && marked[k].addr == bs[k].addr
            && Used(marked) == Used(bs) - {bs[k]} && Used(forward) == Used(marked)
            && k < |forward| && forward[k].addr == bs[k].addr
            && (k > 0 ==> forward[k - 1] == bs[k - 1])
            && Release(bs, k) == if k > 0 && forward[k - 1].free then Coalesce(forward, k - 1) else forward
  {
    hide Used;
    var marked := Mark(bs, k, true);
    MarkHeaped(bs, start, end, k, true);
    MarkUsed(bs, start, end, k, true);
    CoalesceUsed(marked, start, end, k);
    CoalesceBefore(marked, k);
    if k > 0 {
      assert Coalesce(marked, k)[..k][k - 1] == marked[..k][k - 1];
    }
  }

  /** Block `k` was resized where it is: room for `n` bytes, its first bytes and all other allocations kept. */
  ghost predicate Resized(bs: seq<Block>, m: seq<byte>, bs': seq<Block>, m': seq<byte>, k: nat, n: nat) {
    && k < |bs| && k < |bs'| && bs'[k].addr == bs[k].addr && bs'[k].size >= n && !bs'[k].free
    && |m| == |m'| && bs'[k].End() <= |m| && bs[k].End() <= |m|
    && Used(bs') == Used(bs) - {bs[k]} + {bs'[k]}
    && Keeps(m, m', Used(bs) - {bs[k]})
    && var p, len := bs[k].Ptr(), if n <= bs[k].size then n else bs[k].size;
       m'[p..p + len] == m[p..p + len]
  }

  lemma ShrinkResized(bs: seq<Block>, m: seq<byte>, bs': seq<Block>, m': seq<byte>, k: nat, n: nat)
    requires k < |bs| && k < |bs'| && bs'[k].addr == bs[k].addr && n <= bs'[k].size <= bs[k].size && !bs'[k].free
    requires |m| == |m'| && bs[k].End() <= |m| && DataKeptBut(m, m', bs, k)
    requires Used(bs') == Used(bs) - {bs[k]} + {bs'[k]}
    requires m'[bs[k].Ptr()..bs[k].Ptr() + n] == m[bs[k].Ptr()..bs[k].Ptr() + n]
    ensures Resized(bs, m, bs', m', k, n)
  {
    hide Used, Keeps, DataKeptBut;
    KeptButUsed(m, m', bs, k);
  }

  /** All that a shrinking resize keeps, gathered. */
  lemma ShrinkLemmas(bs: seq<Block>, start: nat, end: nat, k: nat, n: nat)
    requires Heaped(bs, start, end) && n % 4 == 0 && n > 0 && k < |bs| && !bs[k].free && n <= bs[k].size
    ensures var r := Split(bs, k, n);
            && Heaped(r, start, end) && k < |r|
            && r[k].addr == bs[k].addr && n <= r[k].size <= bs[k].size && !r[k].free
            && Used(r) == Used(bs) - {bs[k]} + {r[k]} && |Used(r)| == |Used(bs)|
            && Sum(r, false) + bs[k].size == Sum(bs, false) + r[k].size
  {
    hide Sum;
    ShrinkEffect(bs, start, end, k, n);
    SplitSum(bs, k, n);
    UsedSwap(bs, start, end, k, Split(bs, k, n)[k]);
  }

  lemma UsedSwap(bs: seq<Block>, start: nat, end: nat, k: nat, b: Block)
    requires Tiled(bs, start, end) && k < |bs| && !bs[k].free && b.addr == bs[k].addr
    ensures |Used(bs) - {bs[k]} + {b}| == |Used(bs)|
  {
    OnlyOnce(bs, start, end, k);
    assert bs[k] in Used(bs) && b !in Used(bs) - {bs[k]};
  }

  /** All that a growing resize keeps, gathered. */
  lemma GrowLemmas(bs: seq<Block>, start: nat, end: nat, k: nat, n: nat)
    requires Heaped(bs, start, end) && n % 4 == 0 && n > 0 && k + 1 < |bs| && !bs[k].free && bs[k + 1].free
    requires bs[k].size < n <= bs[k].size + HEADER + bs[k + 1].size
    ensures var r := Grow(bs, k, n);
            && Heaped(r, start, end) && k < |r|
            && r[k].addr == bs[k].addr && r[k].size >= n && !r[k].free
            && Used(r) == Used(bs) - {bs[k]} + {r[k]} && |Used(r)| == |Used(bs)|
            && Sum(r, false) + bs[k].size == Sum(bs, false) + r[k].size
    ensures var g := Merge(bs, k); k < |g| && g[k].addr == bs[k].addr && g[k].size >= n
  {
    hide Sum;
    GrowEffect(bs, start, end, k, n);
    MergeSum(bs, k);
    SplitSum(Merge(bs, k), k, n);
    UsedSwap(bs, start, end, k, Grow(bs, k, n)[k]);
  }

  lemma GrowKeeps(m: seq<byte>, m1: seq<byte>, m2: seq<byte>, bs: seq<Block>, k: nat, n: nat)
    requires k + 1 < |bs| && !bs[k].free && bs[k + 1].free && bs[k].size < n && |m| == |m1| == |m2|
    requires bs[k].Ptr() + n <= |m|
    requires Keeps(m, m1, Used(bs)) && DataKeptBut(m1, m2, Merge(bs, k), k)
    requires m2[bs[k].Ptr()..bs[k].Ptr() + n] == m1[bs[k].Ptr()..bs[k].Ptr() + n]
    ensures Keeps(m, m2, Used(bs) - {bs[k]})
    ensures bs[k].End() <= |m| && m2[bs[k].Ptr()..bs[k].End()] == m[bs[k].Ptr()..bs[k].End()]
  {
    var r := Merge(bs, k);
    forall b | b in Used(bs) - {bs[k]} ensures b.End() <= |m| && m2[b.Ptr()..b.End()] == m[b.Ptr()..b.End()] {
      var j :| 0 <= j < |bs| && bs[j] == b;
      assert j != k + 1;
      assert r[if j < k then j else j - 1] == b;
    }
    assert bs[k] in Used(bs);
    assert m2[bs[k].Ptr()..bs[k].Ptr() + n][..bs[k].size] == m2[bs[k].Ptr()..bs[k].End()];
    assert m1[bs[k].Ptr()..bs[k].Ptr() + n][..bs[k].size] == m1[bs[k].Ptr()..bs[k].End()];
  }

  /** All that a release keeps, gathered. */
  lemma ReleaseLemmas(bs: seq<Block>, start: nat, end: nat, k: nat)
    requires Heaped(bs, start, end) && k < |bs| && !bs[k].free
    ensures var r := Release(bs, k);
            && Heaped(r, start, end) && Used(r) == Used(bs) - {bs[k]} && |Used(r)| == |Used(bs)| - 1
            && Sum(r, false) == Sum(bs, false) - bs[k].size
            && (Coalesced(bs) ==> Coalesced(r))
  {
    hide Sum;
    ReleaseEffect(bs, start, end, k);
    ReleaseSum(bs, k);
    assert bs[k] in Used(bs);
    if Coalesced(bs) { ReleaseCoalesced(bs, k); }
  }

  /** The division test of kcalloc catches exactly the products that do not fit 32 bits. */
  lemma OverflowCheck(count: nat, size: nat)
    requires count < LIMIT32 && size < LIMIT32
    ensures count * size >= 0
    ensures count != 0 ==> (count * size % LIMIT32 / count != size <==> count * size >= LIMIT32)
    ensures count * size < LIMIT32 ==> count * size % LIMIT32 == count * size
  {
    var product := count * size;
    var total := product % LIMIT32;
    if count != 0 {
      if product < LIMIT32 {
        DivideExactly(count, size);
      } else {
        assert total < product;
        DivideLess(total, count, size);
      }
    }
  }

  lemma MultiplyUp(c: nat, a: nat, b: nat)
    requires a <= b
    ensures c * a <= c * b
  {
  }

  lemma DivideLess(total: nat, count: nat, size: nat)
    requires count > 0 && total < count * size
    ensures total / count < size
  {
    var q := total / count;
    assert total == count * q + total % count;
    if q >= size {
      MultiplyUp(count, size, q);
      assert false;
    }
  }

  lemma DivideExactly(count: nat, size: nat)
    requires count > 0
    ensures count * size / count == size
  {
    var q := count * size / count;
    assert count * size == count * q + count * size % count;
    if q < size {
      MultiplyUp(count, q + 1, size);
      assert false;
    }
    if q > size {
      MultiplyUp(count, size + 1, q);
      assert false;
    }
  }

  lemma KeepsFresh(m: seq<byte>, m1: seq<byte>, m2: seq<byte>, s: set<Block>, b: Block)
    requires Keeps(m, m1, s) && b !in s && Keeps(m1, m2, s + {b} - {b})
    ensures Keeps(m, m2, s)
  {
  }

  lemma SumNone(bs: seq<Block>, free: bool)
    ensures Sum(bs[..0], free) == 0
  {
  }

  lemma SumStep(bs: seq<Block>, k: nat, free: bool)
    requires k < |bs|
    ensures Sum(bs[..k + 1], free) == Sum(bs[..k], free) + Share(bs[k], free)
  {
    assert bs[..k + 1][..k] == bs[..k];
  }

  /** Some free block is large enough. */
  ghost predicate Fits(bs: seq<Block>, size: nat) {
    exists b :: b in bs && b.free && b.size >= size
  }

  /** The block was cut from the fitting block of lowest address, if there was one. */
  ghost predicate LowestFit(bs: seq<Block>, size: nat, b: Block) {
    Fits(bs, size) ==>
      && (exists c :: c in bs && c.free && c.size >= size && c.addr == b.addr)
      && (forall c :: c in bs && c.free && c.size >= size ==> b.addr <= c.addr)
  }

  lemma RoundedSize(bs: seq<Block>, start: nat, end: nat, j: nat, size: nat)
    requires Heaped(bs, start, end) && j < |bs|
    ensures bs[j].size >= size <==> bs[j].size >= Align4(size)
  {
    assert bs[j].size % 4 == 0;
  }

  /** Sizes are multiples of four, so fitting the request and fitting its rounding are the same. */
  lemma FitsAligned(bs: seq<Block>, start: nat, end: nat, size: nat)
    requires Heaped(bs, start, end)
    ensures Fits(bs, size) <==> FirstFit(bs, Align4(size)) < |bs|
  {
    hide Heaped, Align4;
    var k := FirstFit(bs, Align4(size));
    if k < |bs| {
      RoundedSize(bs, start, end, k, size);
      assert bs[k] in bs;
    } else if Fits(bs, size) {
      var b :| b in bs && b.free && b.size >= size;
      var j :| 0 <= j < |bs| && bs[j] == b;
      RoundedSize(bs, start, end, j, size);
    }
  }

  lemma LowestAligned(bs: seq<Block>, start: nat, end: nat, size: nat, b: Block)
    requires Heaped(bs, start, end)
    requires var k := FirstFit(bs, Align4(size)); k < |bs| ==> b.addr == bs[k].addr
    ensures LowestFit(bs, size, b)
  {
    hide Align4;
    FitsAligned(bs, start, end, size);
    var k := FirstFit(bs, Align4(size));
    if k < |bs| {
      RoundedSize(bs, start, end, k, size);
      assert bs[k] in bs;
      FirstFitLowest(bs, start, end, Align4(size));
      forall c | c in bs && c.free && c.size >= size ensures b.addr <= c.addr {
        var j :| 0 <= j < |bs| && bs[j] == c;
        RoundedSize(bs, start, end, j, size);
      }
    }
  }

  lemma HeapedAt(bs: seq<Block>, start: nat, end: nat, k: nat)
    requires Heaped(bs, start, end) && k < |bs|
    ensures bs[k].Ptr() % 4 == 0
  {
  }

  lemma FreeKept(m: seq<byte>, m': seq<byte>, bs: seq<Block>, k: nat)
    requires k < |bs| && bs[k].free && DataKeptBut(m, m', bs, k)
    ensures Keeps(m, m', Used(bs))
  {
  }

  lemma ExtendedKeeps(bs: seq<Block>, start: nat, end: nat, bytes: nat)
    requires Heaped(bs, start, end) && bytes >= HEADER
    ensures Used(Extend(bs, end, bytes)) == Used(bs)
    ensures |bs| > 0 && (Coalesced(bs) ==> Coalesced(Extend(bs, end, bytes)))
  {
    ExtendUsed(bs, start, end, bytes);
    if Coalesced(bs) { ExtendCoalesced(bs, end, bytes); }
  }

  /** All that an allocation keeps, gathered. */
  lemma AllocateLemmas(bs: seq<Block>, start: nat, end: nat, k: nat, n: nat)
    requires Heaped(bs, start, end) && n % 4 == 0 && n > 0 && k < |bs| && bs[k].free && n <= bs[k].size
    ensures var s := Split(bs, k, n);
            Heaped(s, start, end) && Used(s) == Used(bs) && s[k].addr == bs[k].addr && s[k].free
    ensures var r := Allocate(bs, k, n);
            && Heaped(r, start, end) && k < |r|
            && r[k].addr == bs[k].addr && r[k].size >= n && !r[k].free
            && Used(r) == Used(bs) + {r[k]} && r[k] !in Used(bs) && |Used(r)| == |Used(bs)| + 1
            && Sum(r, false) == Sum(bs, false) + r[k].size
            && (Coalesced(bs) ==> Coalesced(r))
  {
    hide Used, Sum;
    SplitHeaped(bs, start, end, k, n);
    SplitUsed(bs, start, end, k, n);
    AllocateEffect(bs, start, end, k, n);
    AllocateSum(bs, k, n);
    if Coalesced(bs) { AllocateCoalesced(bs, k, n); }
  }

  /** The pages an expansion for `n` bytes needs are all free. */
  ghost predicate CanExpand(free: set<nat>, end: nat, n: nat) {
    forall f :: end / PAGE <= f < end / PAGE + PagesFor(n) ==> f in free
  }

  lemma PageArithmetic(end: nat, pages: nat, total: nat)
    requires end % PAGE == 0 && end / PAGE + pages <= total
    ensures end + pages * PAGE <= total * PAGE && end % 4 == 0 && pages * PAGE % 4 == 0
    ensures (end + pages * PAGE) / PAGE == end / PAGE + pages && (end + pages * PAGE) % PAGE == 0
  {
    var q := end / PAGE;
    assert end == q * PAGE;
    PageMultiple(q);
    PageMultiple(pages);
    PageMultiple(q + pages);
    assert end + pages * PAGE == (q + pages) * PAGE;
  }

  lemma InitialEnd(start: nat)
    requires start % PAGE == 0
    ensures (start + INITIAL_PAGES * PAGE) % PAGE == 0 && start % 4 == 0
  {
  }

  lemma PageMultiple(x: nat)
    ensures x * PAGE / PAGE == x && x * PAGE % PAGE == 0 && x * PAGE % 4 == 0
  {
  }

  /** All that an expansion keeps, gathered. */
  lemma ExtendLemmas(m: seq<byte>, bs: seq<Block>, start: nat, end: nat, bytes: nat)
    requires Heaped(bs, start, end) && Chained(m, bs) && HEADER < bytes && end + bytes <= |m| <= LIMIT32
    requires bytes % 4 == 0 && end % 4 == 0
    ensures |bs| > 0 && bs[|bs| - 1].End() == end
    ensures Heaped(Extend(bs, end, bytes), start, end + bytes)
    ensures Chained(ExtendIn(m, bs, end, bytes), Extend(bs, end, bytes))
    ensures Keeps(m, ExtendIn(m, bs, end, bytes), Used(bs))
    ensures Used(Extend(bs, end, bytes)) == Used(bs) && Sum(Extend(bs, end, bytes), false) == Sum(bs, false)
  {
    hide Chained, Keeps, Used, Sum;
    ExtendHeaped(bs, start, end, bytes);
    ExtendChained(m, bs, start, end, bytes);
    ExtendUsed(bs, start, end, bytes);
    ExtendSum(bs, end, bytes);
  }

  // ---------------------------------------------------------------- a shrink that leaves two free blocks side by side

  /** The first 100 bytes of a fresh heap, shrunk to 48: what is split off does not join the rest. */
  lemma ShrunkBlocks(start: nat)
    ensures FirstFit(Whole(start, INITIAL_PAGES * PAGE), 100) == 0
    ensures var bs := Allocate(Whole(start, INITIAL_PAGES * PAGE), 0, 100);
            && bs == [Block(start, 100, false), Block(start + 112, 65412, true)] && Coalesced(bs)
            && Split(bs, 0, 48) ==
               [Block(start, 48, false), Block(start + 60, 40, true), Block(start + 112, 65412, true)]
            && !Coalesced(Split(bs, 0, 48))
  {
    var bs := Allocate(Whole(start, INITIAL_PAGES * PAGE), 0, 100);
    assert bs == [Block(start, 100, false), Block(start + 112, 65412, true)];
    ShrinkCoalesced(bs, 0, 48);
  }

  method ShrinkExample(allocator: FrameAllocator, memory: array<byte>, start: nat)
    returns (h: KHeap, ptr: nat, res: nat)
    requires allocator.Valid() && memory != allocator.bitmap && memory.Length == allocator.totalPages * PAGE
    requires 0 < start && start % PAGE == 0 && start + INITIAL_PAGES * PAGE <= memory.Length <= LIMIT32
    modifies allocator, allocator.bitmap, memory
    ensures h.Valid() && res == ptr == start + HEADER && !Coalesced(h.blocks)
    ensures h.blocks == [Block(start, 48, false), Block(start + 60, 40, true), Block(start + 112, 65412, true)]
  {
    hide FrameAllocator.Valid, KHeap.Valid, Allocate, Split, Coalesced, Keeps, Moved, Fits, LowestFit,
      CanExpand, FirstFit;
    ShrunkBlocks(start);
    assert Align4(100) == 100 && Align4(48) == 48;
    h := new KHeap(allocator, memory, start);
    ghost var b: Block;
    ptr, b := h.Kmalloc(100);
    assert b in h.blocks && !b.free;
    ghost var nb: Block;
    res, nb := h.Krealloc(ptr, 48, b);
  }
}
