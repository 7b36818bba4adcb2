/**
 The block list of the kernel heap (src/kernel/memory/heap.c) as a sequence in
 address order: what it means for it to tile the heap, what each operation does
 to it, and what every operation keeps.  HEAP_DEBUG is off.
 */
module Heap {

  const HEADER := 12
  const MIN_DATA := 16
  const PAGE := 4096
  const EXPAND_PAGES := 4

  /** A block: the address of its header, the size of its data area, its free flag. */
  datatype Block = Block(addr: nat, size: nat, free: bool) {
    function Ptr(): nat { addr + HEADER }
    function End(): nat { addr + HEADER + size }
  }

  // ---------------------------------------------------------------- tiling

  /** The blocks cover [start, end) without gap or overlap. */
  predicate Tiled(bs: seq<Block>, start: nat, end: nat) {
    && |bs| > 0 && bs[0].addr == start && bs[|bs| - 1].End() == end
    && forall k :: 0 <= k < |bs| - 1 ==> bs[k].End() == bs[k + 1].addr
  }

  predicate Aligned(bs: seq<Block>) {
    forall k :: 0 <= k < |bs| ==> bs[k].addr % 4 == 0 && bs[k].size % 4 == 0 && bs[k].size > 0
  }

  /** No two neighbouring blocks are both free. */
  predicate Coalesced(bs: seq<Block>) {
    forall k :: 0 <= k < |bs| - 1 ==> !(bs[k].free && bs[k + 1].free)
  }

  lemma {:induction false} TiledOrder(bs: seq<Block>, start: nat, end: nat, j: nat, k: nat)
    requires Tiled(bs, start, end) && j < k < |bs|
    ensures bs[j].End() <= bs[k].addr
    decreases k - j
  {
    if j + 1 < k {
      TiledOrder(bs, start, end, j + 1, k);
    }
  }

  /** Blocks lie inside the heap and different blocks do not overlap. */
  lemma TiledDisjoint(bs: seq<Block>, start: nat, end: nat)
    requires Tiled(bs, start, end)
    ensures forall k :: 0 <= k < |bs| ==> start <= bs[k].addr && bs[k].End() <= end
    ensures forall j, k :: 0 <= j < |bs| && 0 <= k < |bs| && j != k ==>
              bs[j].End() <= bs[k].addr || bs[k].End() <= bs[j].addr
  {
    forall k | 0 <= k < |bs| ensures start <= bs[k].addr && bs[k].End() <= end {
      if k > 0 { TiledOrder(bs, start, end, 0, k); }
      if k < |bs| - 1 { TiledOrder(bs, start, end, k, |bs| - 1); }
    }
    forall j, k | 0 <= j < |bs| && 0 <= k < |bs| && j != k
      ensures bs[j].End() <= bs[k].addr || bs[k].End() <= bs[j].addr
    {
      if j < k { TiledOrder(bs, start, end, j, k); } else { TiledOrder(bs, start, end, k, j); }
    }
  }

  // ---------------------------------------------------------------- operations

  /** The live allocations. */
  function Used(bs: seq<Block>): set<Block> {
    set b | b in bs && !b.free
  }

  predicate Splits(b: Block, n: nat) {
    b.size >= n + HEADER + MIN_DATA
  }

  /** heap_split. */
  function Split(bs: seq<Block>, k: nat, n: nat): (r: seq<Block>)
    requires k < |bs|
    ensures |r| == |bs| + if Splits(bs[k], n) then 1 else 0
  {
    var b := bs[k];
    if Splits(b, n)
    then bs[..k] + [Block(b.addr, n, b.free), Block(b.addr + HEADER + n, b.size - n - HEADER, true)] + bs[k + 1..]
    else bs
  }

  function Mark(bs: seq<Block>, k: nat, free: bool): seq<Block>
    requires k < |bs|
  {
    bs[k := bs[k].(free := free)]
  }

  /** Block `k` absorbs its right neighbour. */
  function Merge(bs: seq<Block>, k: nat): (r: seq<Block>)
    requires k + 1 < |bs|
    ensures |r| == |bs| - 1
  {
    bs[..k] + [bs[k].(size := bs[k].size + HEADER + bs[k + 1].size)] + bs[k + 2..]
  }

  /** heap_coalesce. */
  function Coalesce(bs: seq<Block>, k: nat): (r: seq<Block>)
    requires k < |bs|
    ensures k < |r| <= |bs|
    decreases |bs|
  {
    if k + 1 < |bs| && bs[k + 1].free then Coalesce(Merge(bs, k), k) else bs
  }

  /** The block of kmalloc's first-fit search, or |bs|. */
  function FirstFit(bs: seq<Block>, n: nat): (k: nat)
    ensures k <= |bs|
    ensures k < |bs| ==> bs[k].free && bs[k].size >= n
    ensures forall j :: 0 <= j < k ==> !(bs[j].free && bs[j].size >= n)
  {
    if bs == [] then 0 else if bs[0].free && bs[0].size >= n then 0 else 1 + FirstFit(bs[1..], n)
  }

  function Align4(n: nat): (r: nat)
    ensures r % 4 == 0 && n <= r < n + 4
  {
    (n + 3) / 4 * 4
  }

  /** kmalloc on block `k`. */
  function Allocate(bs: seq<Block>, k: nat, n: nat): seq<Block>
    requires k < |bs|
  {
    Mark(Split(bs, k, n), k, false)
  }

  /** kfree of block `k`: mark, coalesce forward, then from a free predecessor. */
  function Release(bs: seq<Block>, k: nat): seq<Block>
    requires k < |bs|
  {
    var forward := Coalesce(Mark(bs, k, true), k);
    if k > 0 && forward[k - 1].free then Coalesce(forward, k - 1) else forward
  }

  function PagesFor(n: nat): (p: nat)
    ensures p >= EXPAND_PAGES && p * PAGE >= n + HEADER
    ensures p > EXPAND_PAGES ==> (p - 1) * PAGE < n + HEADER
  {
    var p := (n + HEADER + PAGE - 1) / PAGE;
    if p < EXPAND_PAGES then EXPAND_PAGES else p
  }

  /** heap_expand by `bytes` of new memory at `end`. */
  function Extend(bs: seq<Block>, end: nat, bytes: nat): seq<Block>
    requires |bs| > 0 && bytes >= HEADER
  {
    var last := |bs| - 1;
    if bs[last].free then bs[last := bs[last].(size := bs[last].size + bytes)]
    else bs + [Block(end, bytes - HEADER, true)]
  }

  // ---------------------------------------------------------------- what the operations keep

  /** The list is a well-formed heap over [start, end). */
  predicate Heaped(bs: seq<Block>, start: nat, end: nat) {
    Tiled(bs, start, end) && Aligned(bs)
  }

  lemma SplitTiled(bs: seq<Block>, start: nat, end: nat, k: nat, n: nat)
    requires Tiled(bs, start, end) && k < |bs|
    ensures Tiled(Split(bs, k, n), start, end)
  {
    var r := Split(bs, k, n);
    if Splits(bs[k], n) {
      assert forall j :: 0 <= j < k ==> r[j] == bs[j];
      assert forall j :: k + 2 <= j < |r| ==> r[j] == bs[j - 1];
      assert r[k + 1].End() == bs[k].End();
      forall j | 0 <= j < |r| - 1 ensures r[j].End() == r[j + 1].addr {
        if j < k { assert bs[j].End() == bs[j + 1].addr; }
      }
    }
  }

  lemma SplitHeaped(bs: seq<Block>, start: nat, end: nat, k: nat, n: nat)
    requires Heaped(bs, start, end) && k < |bs| && n % 4 == 0 && n > 0
    ensures Heaped(Split(bs, k, n), start, end)
    ensures Split(bs, k, n)[k].addr == bs[k].addr && Split(bs, k, n)[k].free == bs[k].free
    ensures bs[k].size >= n ==> Split(bs, k, n)[k].size >= n
  {
    SplitTiled(bs, start, end, k, n);
    SplitAligned(bs, k, n);
  }

  lemma SplitAligned(bs: seq<Block>, k: nat, n: nat)
    requires Aligned(bs) && k < |bs| && n % 4 == 0 && n > 0
    ensures Aligned(Split(bs, k, n))
  {
    var r, b := Split(bs, k, n), bs[k];
    if Splits(b, n) {
      assert (b.addr + HEADER + n) % 4 == 0 && (b.size - n - HEADER) % 4 == 0;
      assert forall j :: 0 <= j < k ==> r[j] == bs[j];
      assert forall j :: k + 2 <= j < |r| ==> r[j] == bs[j - 1];
    }
  }

  lemma MarkHeaped(bs: seq<Block>, start: nat, end: nat, k: nat, free: bool)
    requires Heaped(bs, start, end) && k < |bs|
    ensures Heaped(Mark(bs, k, free), start, end)
  {
  }

  lemma MergeHeaped(bs: seq<Block>, start: nat, end: nat, k: nat)
    requires Heaped(bs, start, end) && k + 1 < |bs|
    ensures Heaped(Merge(bs, k), start, end)
  {
    var r := Merge(bs, k);
    assert forall j :: 0 <= j < k ==> r[j] == bs[j];
    assert forall j :: k < j < |r| ==> r[j] == bs[j + 1];
    assert bs[k].End() == bs[k + 1].addr;
  }

  lemma {:induction false} CoalesceHeaped(bs: seq<Block>, start: nat, end: nat, k: nat)
    requires Heaped(bs, start, end) && k < |bs|
    ensures Heaped(Coalesce(bs, k), start, end)
    decreases |bs|
  {
    if k + 1 < |bs| && bs[k + 1].free {
      MergeHeaped(bs, start, end, k);
      CoalesceHeaped(Merge(bs, k), start, end, k);
    }
  }

  lemma ExtendHeaped(bs: seq<Block>, start: nat, end: nat, bytes: nat)
    requires Heaped(bs, start, end) && bytes % 4 == 0 && bytes > HEADER && end % 4 == 0
    ensures Heaped(Extend(bs, end, bytes), start, end + bytes)
  {
    var r, last := Extend(bs, end, bytes), |bs| - 1;
    assert forall j :: 0 <= j < last ==> r[j] == bs[j];
    if bs[last].free {
      assert r[last].End() == end + bytes;
    } else {
      assert r[last] == bs[last] && r[last + 1].addr == end;
    }
  }

  // ---------------------------------------------------------------- live allocations

  lemma OnlyOnce(bs: seq<Block>, start: nat, end: nat, k: nat)
    requires Tiled(bs, start, end) && k < |bs|
    ensures forall j :: 0 <= j < |bs| && j != k ==> bs[j].addr != bs[k].addr
  {
    TiledDisjoint(bs, start, end);
  }

  lemma UsedConcat(a: seq<Block>, b: seq<Block>)
    ensures Used(a + b) == Used(a) + Used(b)
  {
  }

  /** Replacing a stretch changes the live set by that stretch only. */
  lemma UsedReplace(pre: seq<Block>, was: seq<Block>, now: seq<Block>, post: seq<Block>)
    requires Used(was) !! Used(pre) + Used(post)
    ensures Used(pre + now + post) == Used(pre + was + post) - Used(was) + Used(now)
  {
    UsedConcat(pre + now, post);
    UsedConcat(pre, now);
    UsedConcat(pre + was, post);
    UsedConcat(pre, was);
  }

  lemma SplitUsed(bs: seq<Block>, start: nat, end: nat, k: nat, n: nat)
    requires Tiled(bs, start, end) && k < |bs|
    ensures Used(Split(bs, k, n)) == if bs[k].free then Used(bs) else Used(bs) - {bs[k]} + {Split(bs, k, n)[k]}
  {
    var r := Split(bs, k, n);
    if Splits(bs[k], n) {
      OnlyOnce(bs, start, end, k);
      var pre, post := bs[..k], bs[k + 1..];
      assert bs == pre + [bs[k]] + post && r == pre + [r[k], r[k + 1]] + post;
      UsedReplace(pre, [bs[k]], [r[k], r[k + 1]], post);
    }
  }

  lemma MarkUsed(bs: seq<Block>, start: nat, end: nat, k: nat, free: bool)
    requires Tiled(bs, start, end) && k < |bs| && bs[k].free != free
    ensures Used(Mark(bs, k, free)) == if free then Used(bs) - {bs[k]} else Used(bs) + {bs[k].(free := false)}
  {
    var r := Mark(bs, k, free);
    OnlyOnce(bs, start, end, k);
    assert r[k] in r;
    assert forall j :: 0 <= j < |bs| && j != k ==> bs[j] in r && bs[j] != bs[k] by {
      assert forall j :: 0 <= j < |bs| && j != k ==> r[j] == bs[j];
    }
    assert forall b :: b in r ==> b == r[k] || exists j :: 0 <= j < |bs| && j != k && bs[j] == b;
  }

  lemma MergeUsed(bs: seq<Block>, start: nat, end: nat, k: nat)
    requires Tiled(bs, start, end) && k + 1 < |bs| && bs[k + 1].free
    ensures Used(Merge(bs, k)) == if bs[k].free then Used(bs) else Used(bs) - {bs[k]} + {Merge(bs, k)[k]}
  {
    var r := Merge(bs, k);
    OnlyOnce(bs, start, end, k);
    var pre, post := bs[..k], bs[k + 2..];
    assert bs == pre + [bs[k], bs[k + 1]] + post && r == pre + [r[k]] + post;
    UsedReplace(pre, [bs[k], bs[k + 1]], [r[k]], post);
  }

  lemma {:induction false} CoalesceUsed(bs: seq<Block>, start: nat, end: nat, k: nat)
    requires Heaped(bs, start, end) && k < |bs| && bs[k].free
    ensures Used(Coalesce(bs, k)) == Used(bs)
    decreases |bs|
  {
    if k + 1 < |bs| && bs[k + 1].free {
      MergeHeaped(bs, start, end, k);
      MergeUsed(bs, start, end, k);
      CoalesceUsed(Merge(bs, k), start, end, k);
    }
  }

  lemma ExtendUsed(bs: seq<Block>, start: nat, end: nat, bytes: nat)
    requires Tiled(bs, start, end) && bytes >= HEADER
    ensures Used(Extend(bs, end, bytes)) == Used(bs)
  {
    var r, last := Extend(bs, end, bytes), |bs| - 1;
    assert forall j :: 0 <= j < last ==> r[j] == bs[j];
    if !bs[last].free {
      assert r[last] == bs[last];
    }
    assert forall b :: b in r && !b.free ==> b in bs;
    assert forall b :: b in bs && !b.free ==> b in r;
  }

  lemma {:induction false} CoalesceBefore(bs: seq<Block>, k: nat)
    requires k < |bs|
    ensures Coalesce(bs, k)[..k] == bs[..k]
    ensures Coalesce(bs, k)[k].addr == bs[k].addr && Coalesce(bs, k)[k].free == bs[k].free
    decreases |bs|
  {
    if k + 1 < |bs| && bs[k + 1].free {
      CoalesceBefore(Merge(bs, k), k);
    }
  }

  /** kmalloc adds exactly one allocation, large enough and at no used address. */
  lemma AllocateEffect(bs: seq<Block>, start: nat, end: nat, k: nat, n: nat)
    requires Heaped(bs, start, end) && n % 4 == 0 && n > 0 && k < |bs| && bs[k].free && bs[k].size >= n
    ensures var r := Allocate(bs, k, n);
            && Heaped(r, start, end)
            && r[k].addr == bs[k].addr && r[k].size >= n && !r[k].free
            && Used(r) == Used(bs) + {r[k]} && r[k] !in Used(bs)
  {
    SplitHeaped(bs, start, end, k, n);
    MarkHeaped(Split(bs, k, n), start, end, k, false);
    SplitUsed(bs, start, end, k, n);
    MarkUsed(Split(bs, k, n), start, end, k, false);
    OnlyOnce(bs, start, end, k);
  }

  /** kfree removes exactly the allocation it is given. */
  lemma ReleaseEffect(bs: seq<Block>, start: nat, end: nat, k: nat)
    requires Heaped(bs, start, end) && k < |bs| && !bs[k].free
    ensures Heaped(Release(bs, k), start, end)
    ensures Used(Release(bs, k)) == Used(bs) - {bs[k]}
  {
    var marked := Mark(bs, k, true);
    MarkHeaped(bs, start, end, k, true);
    MarkUsed(bs, start, end, k, true);
    CoalesceHeaped(marked, start, end, k);
    CoalesceUsed(marked, start, end, k);
    var forward := Coalesce(marked, k);
    if k > 0 && forward[k - 1].free {
      CoalesceHeaped(forward, start, end, k - 1);
      CoalesceUsed(forward, start, end, k - 1);
    }
  }

  /** krealloc's first path: the block is large enough, the excess is split off. */
  lemma ShrinkEffect(bs: seq<Block>, start: nat, end: nat, k: nat, n: nat)
    requires Heaped(bs, start, end) && n % 4 == 0 && n > 0 && k < |bs| && !bs[k].free && bs[k].size >= n
    ensures var r := Split(bs, k, n);
            && Heaped(r, start, end)
            && r[k].addr == bs[k].addr && n <= r[k].size <= bs[k].size && !r[k].free
            && Used(r) == Used(bs) - {bs[k]} + {r[k]}
  {
    SplitHeaped(bs, start, end, k, n);
    SplitUsed(bs, start, end, k, n);
  }

  /** krealloc's second path: the free right neighbour is absorbed, then the excess is split off. */
  function Grow(bs: seq<Block>, k: nat, n: nat): seq<Block>
    requires k + 1 < |bs|
  {
    Split(Merge(bs, k), k, n)
  }

  lemma GrowEffect(bs: seq<Block>, start: nat, end: nat, k: nat, n: nat)
    requires Heaped(bs, start, end) && n % 4 == 0 && n > 0 && k + 1 < |bs| && !bs[k].free && bs[k + 1].free
    requires bs[k].size < n <= bs[k].size + HEADER + bs[k + 1].size
    ensures var r := Grow(bs, k, n);
            && Heaped(r, start, end)
            && r[k].addr == bs[k].addr && r[k].size >= n && !r[k].free
            && Used(r) == Used(bs) - {bs[k]} + {r[k]}
  {
    var merged := Merge(bs, k);
    MergeHeaped(bs, start, end, k);
    MergeUsed(bs, start, end, k);
    SplitHeaped(merged, start, end, k, n);
    SplitUsed(merged, start, end, k, n);
    OnlyOnce(bs, start, end, k);
  }

  /** The first fit is the fitting block of lowest address. */
  lemma FirstFitLowest(bs: seq<Block>, start: nat, end: nat, n: nat)
    requires Tiled(bs, start, end) && FirstFit(bs, n) < |bs|
    ensures forall b :: b in bs && b.free && b.size >= n ==> bs[FirstFit(bs, n)].addr <= b.addr
  {
    var k := FirstFit(bs, n);
    forall b | b in bs && b.free && b.size >= n ensures bs[k].addr <= b.addr {
      var j :| 0 <= j < |bs| && bs[j] == b;
      if j > k { TiledOrder(bs, start, end, k, j); }
    }
  }

  /** After an expansion for `n` bytes the second search cannot fail. */
  lemma ExtendedFits(bs: seq<Block>, end: nat, n: nat)
    requires |bs| > 0
    ensures FirstFit(Extend(bs, end, PagesFor(n) * PAGE), n) < |Extend(bs, end, PagesFor(n) * PAGE)|
  {
    var r := Extend(bs, end, PagesFor(n) * PAGE);
    assert r[|r| - 1].free && r[|r| - 1].size >= n;
  }

  // ---------------------------------------------------------------- fragmentation

  lemma AllocateCoalesced(bs: seq<Block>, k: nat, n: nat)
    requires Coalesced(bs) && k < |bs| && bs[k].free
    ensures Coalesced(Allocate(bs, k, n))
  {
    var r := Allocate(bs, k, n);
    var shift := if Splits(bs[k], n) then 1 else 0;
    assert forall j :: 0 <= j < k ==> r[j] == bs[j];
    assert forall j :: k + shift < j < |r| ==> r[j] == bs[j - shift];
  }

  /** Every pair of neighbours except those at `k - 1` and `k` is coalesced. */
  predicate CoalescedBut(bs: seq<Block>, k: nat) {
    forall j :: 0 <= j < |bs| - 1 && j != k && j + 1 != k ==> !(bs[j].free && bs[j + 1].free)
  }

  lemma {:induction false} CoalesceCoalesced(bs: seq<Block>, k: nat)
    requires CoalescedBut(bs, k) && k < |bs|
    ensures CoalescedBut(Coalesce(bs, k), k)
    ensures var r := Coalesce(bs, k); k + 1 < |r| ==> !r[k + 1].free
    decreases |bs|
  {
    if k + 1 < |bs| && bs[k + 1].free {
      var r := Merge(bs, k);
      assert forall j :: 0 <= j < k ==> r[j] == bs[j];
      assert forall j :: k < j < |r| ==> r[j] == bs[j + 1];
      CoalesceCoalesced(r, k);
    }
  }

  lemma ReleaseCoalesced(bs: seq<Block>, k: nat)
    requires Coalesced(bs) && k < |bs|
    ensures Coalesced(Release(bs, k))
  {
    var marked := Mark(bs, k, true);
    var forward := Coalesce(marked, k);
    CoalesceCoalesced(marked, k);
    CoalesceBefore(marked, k);
    if k > 0 {
      assert forward[..k][k - 1] == marked[..k][k - 1];
    }
    if k > 0 && forward[k - 1].free {
      assert k > 1 ==> forward[..k][k - 2] == marked[..k][k - 2];
      MergeOnce(forward, k);
    }
  }

  /** Going back one block absorbs exactly the freed block. */
  lemma MergeOnce(bs: seq<Block>, k: nat)
    requires 0 < k < |bs| && bs[k - 1].free && bs[k].free && CoalescedBut(bs, k)
    requires k + 1 < |bs| ==> !bs[k + 1].free
    requires k > 1 ==> !bs[k - 2].free
    ensures Coalesce(bs, k - 1) == Merge(bs, k - 1)
    ensures Coalesced(Coalesce(bs, k - 1))
  {
    var r := Merge(bs, k - 1);
    assert forall j :: 0 <= j < k - 1 ==> r[j] == bs[j];
    assert forall j :: k - 1 < j < |r| ==> r[j] == bs[j + 1];
  }

  lemma ExtendCoalesced(bs: seq<Block>, end: nat, bytes: nat)
    requires Coalesced(bs) && |bs| > 0 && bytes >= HEADER
    ensures Coalesced(Extend(bs, end, bytes))
  {
    var r, last := Extend(bs, end, bytes), |bs| - 1;
    assert forall j :: 0 <= j < last ==> r[j] == bs[j];
  }

  lemma GrowCoalesced(bs: seq<Block>, k: nat, n: nat)
    requires Coalesced(bs) && k + 1 < |bs| && !bs[k].free && bs[k + 1].free
    ensures Coalesced(Grow(bs, k, n))
  {
    var m, r := Merge(bs, k), Grow(bs, k, n);
    var shift := if Splits(m[k], n) then 1 else 0;
    assert forall j :: 0 <= j < k ==> r[j] == bs[j];
    assert forall j :: k + shift < j < |r| ==> r[j] == bs[j + 1 - shift];
  }

  /**
   A shrinking krealloc keeps free blocks apart exactly when it splits nothing off, or its
   right neighbour is in use.
   */
  lemma ShrinkCoalesced(bs: seq<Block>, k: nat, n: nat)
    requires Coalesced(bs) && k < |bs| && !bs[k].free
    ensures Coalesced(Split(bs, k, n)) <==> !(Splits(bs[k], n) && k + 1 < |bs| && bs[k + 1].free)
  {
    var r := Split(bs, k, n);
    if Splits(bs[k], n) {
      assert forall j :: 0 <= j < k ==> r[j] == bs[j];
      assert forall j :: k + 1 < j < |r| ==> r[j] == bs[j - 1];
      if k + 1 < |bs| && bs[k + 1].free {
        assert r[k + 1].free && r[k + 2].free;
      }
    }
  }

  // ---------------------------------------------------------------- accounting

  /** The bytes in blocks whose free flag is `free`. */
  function Sum(bs: seq<Block>, free: bool): nat {
    if bs == [] then 0 else Sum(bs[..|bs| - 1], free) + Share(bs[|bs| - 1], free)
  }

  function Share(b: Block, free: bool): nat {
    if b.free == free then b.size else 0
  }

  lemma {:induction false} SumConcat(a: seq<Block>, b: seq<Block>, free: bool)
    ensures Sum(a + b, free) == Sum(a, free) + Sum(b, free)
    decreases |b|
  {
    if b == [] {
      assert a + b == a;
    } else {
      assert (a + b)[..|a + b| - 1] == a + b[..|b| - 1];
      SumConcat(a, b[..|b| - 1], free);
    }
  }

  lemma SumReplace(pre: seq<Block>, was: seq<Block>, now: seq<Block>, post: seq<Block>, free: bool)
    ensures Sum(pre + now + post, free) + Sum(was, free) == Sum(pre + was + post, free) + Sum(now, free)
  {
    SumConcat(pre + now, post, free);
    SumConcat(pre, now, free);
    SumConcat(pre + was, post, free);
    SumConcat(pre, was, free);
  }

  lemma SumOne(b: Block, free: bool)
    ensures Sum([b], free) == Share(b, free)
  {
    assert [b][..0] == [];
  }

  lemma SumTwo(a: Block, b: Block, free: bool)
    ensures Sum([a, b], free) == Share(a, free) + Share(b, free)
  {
    SumOne(a, free);
    assert [a, b][..1] == [a];
  }

  lemma SplitParts(bs: seq<Block>, k: nat, n: nat)
    requires k < |bs| && Splits(bs[k], n)
    ensures var r := Split(bs, k, n);
            && |r| == |bs| + 1 && r == bs[..k] + [r[k], r[k + 1]] + bs[k + 1..]
            && r[k + 1].free && bs == bs[..k] + [bs[k]] + bs[k + 1..]
  {
    hide Sum, Share;
  }

  lemma SplitSum(bs: seq<Block>, k: nat, n: nat)
    requires k < |bs|
    ensures Sum(Split(bs, k, n), false) + Share(bs[k], false) == Sum(bs, false) + Share(Split(bs, k, n)[k], false)
  {
    if Splits(bs[k], n) {
      hide Sum, Split, Splits;
      var r := Split(bs, k, n);
      SplitParts(bs, k, n);
      SumReplace(bs[..k], [bs[k]], [r[k], r[k + 1]], bs[k + 1..], false);
      SumOne(bs[k], false);
      SumTwo(r[k], r[k + 1], false);
    }
  }

  lemma MarkSum(bs: seq<Block>, k: nat, free: bool)
    requires k < |bs|
    ensures Sum(Mark(bs, k, free), false) + Share(bs[k], false) == Sum(bs, false) + if free then 0 else bs[k].size
  {
    hide Sum;
    var r, pre, post := Mark(bs, k, free), bs[..k], bs[k + 1..];
    assert bs == pre + [bs[k]] + post && r == pre + [r[k]] + post;
    SumReplace(pre, [bs[k]], [r[k]], post, false);
    SumOne(bs[k], false);
    SumOne(r[k], false);
  }

  lemma MergeSum(bs: seq<Block>, k: nat)
    requires k + 1 < |bs| && bs[k + 1].free
    ensures Sum(Merge(bs, k), false) + Share(bs[k], false) == Sum(bs, false) + Share(Merge(bs, k)[k], false)
  {
    hide Sum;
    var r, pre, post := Merge(bs, k), bs[..k], bs[k + 2..];
    assert bs == pre + [bs[k], bs[k + 1]] + post && r == pre + [r[k]] + post;
    SumReplace(pre, [bs[k], bs[k + 1]], [r[k]], post, false);
    SumTwo(bs[k], bs[k + 1], false);
    SumOne(r[k], false);
  }

  lemma {:induction false} CoalesceSum(bs: seq<Block>, k: nat)
    requires k < |bs| && bs[k].free
    ensures Sum(Coalesce(bs, k), false) == Sum(bs, false)
    decreases |bs|
  {
    if k + 1 < |bs| && bs[k + 1].free {
      MergeSum(bs, k);
      CoalesceSum(Merge(bs, k), k);
    }
  }

  lemma AllocateSum(bs: seq<Block>, k: nat, n: nat)
    requires k < |bs| && bs[k].free
    ensures Sum(Allocate(bs, k, n), false) == Sum(bs, false) + Allocate(bs, k, n)[k].size
  {
    SplitSum(bs, k, n);
    MarkSum(Split(bs, k, n), k, false);
  }

  lemma ReleaseSum(bs: seq<Block>, k: nat)
    requires k < |bs| && !bs[k].free
    ensures Sum(Release(bs, k), false) == Sum(bs, false) - bs[k].size
  {
    var marked := Mark(bs, k, true);
    MarkSum(bs, k, true);
    CoalesceSum(marked, k);
    CoalesceBefore(marked, k);
    var forward := Coalesce(marked, k);
    if k > 0 && forward[k - 1].free {
      CoalesceSum(forward, k - 1);
    }
  }

  lemma ExtendSum(bs: seq<Block>, end: nat, bytes: nat)
    requires |bs| > 0 && bytes >= HEADER
    ensures Sum(Extend(bs, end, bytes), false) == Sum(bs, false)
  {
    var last := |bs| - 1;
    if bs[last].free {
      assert Extend(bs, end, bytes)[..last] == bs[..last];
    } else {
      SumConcat(bs, [Block(end, bytes - HEADER, true)], false);
      SumOne(Block(end, bytes - HEADER, true), false);
    }
  }

  /** Free bytes, used bytes and headers together fill the heap. */
  lemma {:induction false} Accounting(bs: seq<Block>, start: nat, end: nat)
    requires Tiled(bs, start, end)
    ensures Sum(bs, true) + Sum(bs, false) + HEADER * |bs| == end - start
    decreases |bs|
  {
    var init := bs[..|bs| - 1];
    if init != [] {
      assert init[|init| - 1].End() == bs[|init|].addr;
      Accounting(init, start, bs[|init|].addr);
    }
  }

  // ---------------------------------------------------------------- sizes, in numbers

  /**
   The allocation `b` was cut from the free block `c`: a rest that can hold a header of 12 and 16
   more bytes is a free block of its own, a smaller one belongs to the allocation.
   */
  predicate CutFrom(bs: seq<Block>, bs': seq<Block>, c: Block, n: nat, b: Block) {
    && b.addr == c.addr && n <= b.size <= n + 24
    && if c.size > n + 24
       then b.size == n && Sum(bs', true) + n + 12 == Sum(bs, true) && |bs'| == |bs| + 1
       else b.size == c.size && Sum(bs', true) + b.size == Sum(bs, true) && |bs'| == |bs|
  }

  lemma AllocateNumbers(bs: seq<Block>, start: nat, end: nat, k: nat, n: nat)
    requires Heaped(bs, start, end) && n % 4 == 0 && n > 0 && k < |bs| && bs[k].free && bs[k].size >= n
    ensures k < |Allocate(bs, k, n)| && CutFrom(bs, Allocate(bs, k, n), bs[k], n, Allocate(bs, k, n)[k])
  {
    hide Sum;
    AllocateEffect(bs, start, end, k, n);
    AllocateSum(bs, k, n);
    Accounting(bs, start, end);
    Accounting(Allocate(bs, k, n), start, end);
  }

  /** The allocation `b` was shrunk to `b'`. */
  predicate CutDown(bs: seq<Block>, bs': seq<Block>, b: Block, n: nat, b': Block) {
    && b'.addr == b.addr && n <= b'.size <= n + 24
    && if b.size > n + 24
       then b'.size == n && Sum(bs', true) + n + 12 == Sum(bs, true) + b.size && |bs'| == |bs| + 1
       else b'.size == b.size && Sum(bs', true) == Sum(bs, true) && |bs'| == |bs|
  }

  lemma ShrinkNumbers(bs: seq<Block>, start: nat, end: nat, k: nat, n: nat)
    requires Heaped(bs, start, end) && n % 4 == 0 && n > 0 && k < |bs| && !bs[k].free && bs[k].size >= n
    ensures k < |Split(bs, k, n)| && CutDown(bs, Split(bs, k, n), bs[k], n, Split(bs, k, n)[k])
  {
    hide Sum;
    ShrinkEffect(bs, start, end, k, n);
    SplitSum(bs, k, n);
    Accounting(bs, start, end);
    Accounting(Split(bs, k, n), start, end);
  }

  /** The allocation `b` absorbed its free right neighbour `c`, and what it does not need was cut off again. */
  predicate CutInto(bs: seq<Block>, bs': seq<Block>, b: Block, c: Block, n: nat, b': Block) {
    && b'.addr == b.addr && n <= b'.size <= n + 24
    && if b.size + 12 + c.size > n + 24
       then b'.size == n && Sum(bs', true) + n == Sum(bs, true) + b.size && |bs'| == |bs|
       else b'.size == b.size + 12 + c.size && Sum(bs', true) + c.size == Sum(bs, true) && |bs'| + 1 == |bs|
  }

  lemma GrowNumbers(bs: seq<Block>, start: nat, end: nat, k: nat, n: nat)
    requires Heaped(bs, start, end) && n % 4 == 0 && n > 0 && k + 1 < |bs| && !bs[k].free && bs[k + 1].free
    requires bs[k].size < n <= bs[k].size + HEADER + bs[k + 1].size
    ensures k < |Grow(bs, k, n)| && CutInto(bs, Grow(bs, k, n), bs[k], bs[k + 1], n, Grow(bs, k, n)[k])
  {
    hide Sum, Split, Merge, Heaped;
    MergeNumbers(bs, start, end, k);
    ShrinkNumbers(Merge(bs, k), start, end, k, n);
  }

  lemma MergeNumbers(bs: seq<Block>, start: nat, end: nat, k: nat)
    requires Heaped(bs, start, end) && k + 1 < |bs| && !bs[k].free && bs[k + 1].free
    ensures var r := Merge(bs, k);
            && Heaped(r, start, end) && r[k] == Block(bs[k].addr, bs[k].size + 12 + bs[k + 1].size, false)
            && Sum(r, true) + bs[k + 1].size == Sum(bs, true) && |r| + 1 == |bs|
  {
    hide Sum;
    MergeHeaped(bs, start, end, k);
    MergeSum(bs, k);
    Accounting(bs, start, end);
    Accounting(Merge(bs, k), start, end);
  }

  /** heap_expand, written out: the last block is longer, or a free one follows it. */
  predicate Lengthened(bs: seq<Block>, bs': seq<Block>, end: nat, bytes: nat) {
    |bs| > 0 && bytes >= 12 &&
    var last := bs[|bs| - 1];
    bs' == if last.free then bs[..|bs| - 1] + [Block(last.addr, last.size + bytes, true)]
           else bs + [Block(end, bytes - 12, true)]
  }

  /** The pages that heap_expand asks for: no fewer than four, enough for block and header, and not one more. */
  predicate PagesNeeded(n: nat, pages: nat) {
    pages >= 4 && pages * 4096 >= n + 12 && (pages > 4 ==> (pages - 1) * 4096 < n + 12)
  }

  lemma ExtendNumbers(bs: seq<Block>, end: nat, n: nat)
    requires |bs| > 0
    ensures PagesNeeded(n, PagesFor(n)) && Lengthened(bs, Extend(bs, end, PagesFor(n) * PAGE), end, PagesFor(n) * 4096)
  {
  }
}
