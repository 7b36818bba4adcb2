/**
 The heap's block headers as they lie in memory: twelve bytes (size, free flag,
 next pointer) in front of each data area, linked in address order.
 */
module HeapMemory {
  import opened Bits
  import opened Words
  import opened Heap

  datatype Header = Header(size: nat, free: bool, next: nat)

  function HeaderAt(m: seq<byte>, a: nat): Header
    requires a + HEADER <= |m|
  {
    Header(Get32(m, a), m[a + 4] != 0, Get32(m, a + 8))
  }

  predicate Storable(h: Header) {
    h.size < LIMIT32 && h.next < LIMIT32
  }

  /** The three field stores of one header. */
  function PutHeader(m: seq<byte>, a: nat, h: Header): (r: seq<byte>)
    requires a + HEADER <= |m| && Storable(h)
    ensures |r| == |m|
  {
    Put32(Put32(m, a, h.size)[a + 4 := if h.free then 1 else 0], a + 8, h.next)
  }

  lemma HeaderLocal(m: seq<byte>, m': seq<byte>, a: nat)
    requires |m| == |m'| && a + HEADER <= |m| && m[a..a + HEADER] == m'[a..a + HEADER]
    ensures HeaderAt(m, a) == HeaderAt(m', a)
  {
    var t, u := m[a..a + HEADER], m'[a..a + HEADER];
    assert m[a..a + 4] == t[..4] && m'[a..a + 4] == u[..4];
    assert m[a + 8..a + 12] == t[8..12] && m'[a + 8..a + 12] == u[8..12];
    Get32Local(m, m', a, a);
    Get32Local(m, m', a + 8, a + 8);
    assert m[a + 4] == t[4] && m'[a + 4] == u[4];
  }

  /** A stored header reads back, and nothing outside it changes. */
  lemma PutHeaderAt(m: seq<byte>, a: nat, h: Header)
    requires a + HEADER <= |m| && Storable(h)
    ensures HeaderAt(PutHeader(m, a, h), a) == h
    ensures forall x :: 0 <= x < |m| && !(a <= x < a + HEADER) ==> PutHeader(m, a, h)[x] == m[x]
  {
    var m1 := Put32(m, a, h.size);
    var m2 := m1[a + 4 := if h.free then 1 else 0];
    var m3 := Put32(m2, a + 8, h.next);
    Put32Get(m, a, h.size);
    Put32Get(m2, a + 8, h.next);
    assert m3[a..a + 4] == m1[a..a + 4];
    Get32Local(m3, m1, a, a);
    assert m3[a + 4] == m2[a + 4];
  }

  /** The data areas of the allocations in `s` have the same bytes in both memories. */
  ghost predicate Keeps(m: seq<byte>, m': seq<byte>, s: set<Block>) {
    |m| == |m'| && forall b :: b in s ==> b.End() <= |m| && m'[b.Ptr()..b.End()] == m[b.Ptr()..b.End()]
  }

  lemma KeepsTrans(m: seq<byte>, m1: seq<byte>, m2: seq<byte>, s: set<Block>, t: set<Block>)
    requires Keeps(m, m1, s) && Keeps(m1, m2, t)
    ensures Keeps(m, m2, s * t) && (s == t ==> Keeps(m, m2, s))
  {
  }

  function Next(bs: seq<Block>, k: nat): nat
    requires k < |bs|
  {
    if k + 1 < |bs| then bs[k + 1].addr else 0
  }

  function HeaderOf(bs: seq<Block>, k: nat): Header
    requires k < |bs|
  {
    Header(bs[k].size, bs[k].free, Next(bs, k))
  }

  /** The headers in memory spell out the list. */
  ghost predicate Chained(m: seq<byte>, bs: seq<Block>) {
    |m| <= LIMIT32 && forall k :: 0 <= k < |bs| ==> bs[k].End() <= |m| && HeaderAt(m, bs[k].addr) == HeaderOf(bs, k)
  }

  /** All data areas of the list have the same bytes in both memories. */
  ghost predicate DataKept(m: seq<byte>, m': seq<byte>, bs: seq<Block>) {
    && |m| == |m'|
    && forall j :: 0 <= j < |bs| ==> bs[j].End() <= |m| && m'[bs[j].Ptr()..bs[j].End()] == m[bs[j].Ptr()..bs[j].End()]
  }

  lemma DataKeptUsed(m: seq<byte>, m': seq<byte>, bs: seq<Block>)
    requires DataKept(m, m', bs)
    ensures Keeps(m, m', Used(bs))
  {
  }

  /** All headers but the one of block `k` read the same in both memories. */
  ghost predicate OthersKept(m: seq<byte>, m': seq<byte>, bs: seq<Block>, k: nat) {
    && |m| == |m'|
    && forall j :: 0 <= j < |bs| && j != k ==> bs[j].End() <= |m| && HeaderAt(m', bs[j].addr) == HeaderAt(m, bs[j].addr)
  }

  /** Writing the header of block `k` of a tiled list touches no other header and no data area. */
  lemma HeaderWrite(m: seq<byte>, bs: seq<Block>, start: nat, end: nat, k: nat, h: Header)
    requires Tiled(bs, start, end) && end <= |m| && k < |bs| && bs[k].End() <= |m| && Storable(h)
    ensures HeaderAt(PutHeader(m, bs[k].addr, h), bs[k].addr) == h
    ensures OthersKept(m, PutHeader(m, bs[k].addr, h), bs, k)
    ensures DataKept(m, PutHeader(m, bs[k].addr, h), bs)
  {
    hide HeaderAt, PutHeader;
    TiledDisjoint(bs, start, end);
    PutHeaderAt(m, bs[k].addr, h);
    var m' := PutHeader(m, bs[k].addr, h);
    forall j | 0 <= j < |bs| && j != k
      ensures bs[j].End() <= |m| && HeaderAt(m', bs[j].addr) == HeaderAt(m, bs[j].addr)
    {
      assert m'[bs[j].addr..bs[j].Ptr()] == m[bs[j].addr..bs[j].Ptr()];
      HeaderLocal(m, m', bs[j].addr);
    }
  }

  // ---------------------------------------------------------------- the list operations in memory

  function MarkIn(m: seq<byte>, bs: seq<Block>, k: nat, free: bool): seq<byte>
    requires k < |bs| && bs[k].Ptr() <= |m| && Storable(HeaderOf(bs, k))
  {
    PutHeader(m, bs[k].addr, HeaderOf(bs, k).(free := free))
  }

  lemma MarkChained(m: seq<byte>, bs: seq<Block>, start: nat, end: nat, k: nat, free: bool)
    requires Tiled(bs, start, end) && end <= |m| && Chained(m, bs) && k < |bs| && bs[k].End() <= |m|
    requires Storable(HeaderOf(bs, k))
    ensures Chained(MarkIn(m, bs, k, free), Mark(bs, k, free))
    ensures Keeps(m, MarkIn(m, bs, k, free), Used(bs))
  {
    hide HeaderAt, PutHeader, Used, Keeps, Tiled;
    HeaderWrite(m, bs, start, end, k, HeaderOf(bs, k).(free := free));
    DataKeptUsed(m, MarkIn(m, bs, k, free), bs);
  }

  lemma ChainedStorable(m: seq<byte>, bs: seq<Block>, start: nat, end: nat, k: nat)
    requires Tiled(bs, start, end) && end <= |m| && Chained(m, bs) && k < |bs|
    ensures Storable(HeaderOf(bs, k)) && bs[k].End() <= |m|
  {
    assert HeaderAt(m, bs[k].addr) == HeaderOf(bs, k);
  }

  function MergeIn(m: seq<byte>, bs: seq<Block>, k: nat): seq<byte>
    requires k + 1 < |bs| && bs[k].Ptr() <= |m| && Storable(HeaderOf(Merge(bs, k), k))
  {
    PutHeader(m, bs[k].addr, HeaderOf(Merge(bs, k), k))
  }

  lemma MergeStorable(m: seq<byte>, bs: seq<Block>, start: nat, end: nat, k: nat)
    requires Tiled(bs, start, end) && end <= |m| <= LIMIT32 && Chained(m, bs) && k + 1 < |bs|
    ensures bs[k].End() <= |m| && Storable(HeaderOf(Merge(bs, k), k))
    ensures Merge(bs, k)[k].addr == bs[k].addr && Merge(bs, k)[k].End() == bs[k + 1].End()
  {
    hide Chained;
    ChainedStorable(m, bs, start, end, k);
    ChainedStorable(m, bs, start, end, k + 1);
    assert bs[k].End() == bs[k + 1].addr;
  }

  lemma MergeChained(m: seq<byte>, bs: seq<Block>, start: nat, end: nat, k: nat)
    requires Tiled(bs, start, end) && end <= |m| && Chained(m, bs) && k + 1 < |bs|
    requires bs[k].End() <= |m| && Storable(HeaderOf(Merge(bs, k), k))
    ensures Chained(MergeIn(m, bs, k), Merge(bs, k))
    ensures Keeps(m, MergeIn(m, bs, k), Used(bs))
  {
    hide HeaderAt, PutHeader, Used, Keeps, Tiled;
    var r, m' := Merge(bs, k), MergeIn(m, bs, k);
    MergeStorable(m, bs, start, end, k);
    HeaderWrite(m, bs, start, end, k, HeaderOf(r, k));
    DataKeptUsed(m, m', bs);
    forall j | 0 <= j < |r| ensures r[j].End() <= |m'| && HeaderAt(m', r[j].addr) == HeaderOf(r, j) {
      if j < k {
        assert r[j] == bs[j] && Next(r, j) == Next(bs, j);
      } else if j > k {
        assert r[j] == bs[j + 1] && Next(r, j) == Next(bs, j + 1);
      }
    }
  }

  /** heap_split: the new header inside the data area, then the shortened one. */
  function SplitIn(m: seq<byte>, bs: seq<Block>, k: nat, n: nat): seq<byte>
    requires k < |bs| && bs[k].End() <= |m| <= LIMIT32 && Storable(HeaderOf(bs, k))
  {
    var b, r := bs[k], Split(bs, k, n);
    if Splits(b, n)
    then PutHeader(PutHeader(m, b.Ptr() + n, Header(b.size - n - HEADER, true, Next(bs, k))), b.addr,
                   Header(n, b.free, b.Ptr() + n))
    else m
  }

  /** Writing a header inside the data area of block `k` touches no header of the list and only that data area. */
  lemma InnerWrite(m: seq<byte>, bs: seq<Block>, start: nat, end: nat, k: nat, a: nat, h: Header)
    requires Tiled(bs, start, end) && end <= |m| && k < |bs| && bs[k].Ptr() <= a && a + HEADER <= bs[k].End() <= |m|
    requires Storable(h)
    ensures HeaderAt(PutHeader(m, a, h), a) == h
    ensures OthersKept(m, PutHeader(m, a, h), bs, |bs|)
    ensures DataKeptBut(m, PutHeader(m, a, h), bs, k)
    ensures PutHeader(m, a, h)[bs[k].Ptr()..a] == m[bs[k].Ptr()..a]
  {
    hide HeaderAt, PutHeader;
    TiledDisjoint(bs, start, end);
    PutHeaderAt(m, a, h);
    var m' := PutHeader(m, a, h);
    forall j | 0 <= j < |bs| ensures bs[j].End() <= |m| && HeaderAt(m', bs[j].addr) == HeaderAt(m, bs[j].addr) {
      assert m'[bs[j].addr..bs[j].Ptr()] == m[bs[j].addr..bs[j].Ptr()];
      HeaderLocal(m, m', bs[j].addr);
    }
  }

  ghost predicate DataKeptBut(m: seq<byte>, m': seq<byte>, bs: seq<Block>, k: nat) {
    && |m| == |m'|
    && forall j :: 0 <= j < |bs| && j != k ==>
         bs[j].End() <= |m| && m'[bs[j].Ptr()..bs[j].End()] == m[bs[j].Ptr()..bs[j].End()]
  }

  lemma SplitChained(m: seq<byte>, bs: seq<Block>, start: nat, end: nat, k: nat, n: nat)
    requires Tiled(bs, start, end) && end <= |m| <= LIMIT32 && Chained(m, bs) && k < |bs| && bs[k].size >= n
    requires bs[k].End() <= |m| && Storable(HeaderOf(bs, k))
    ensures Chained(SplitIn(m, bs, k, n), Split(bs, k, n))
    ensures DataKeptBut(m, SplitIn(m, bs, k, n), bs, k)
    ensures SplitIn(m, bs, k, n)[bs[k].Ptr()..bs[k].Ptr() + n] == m[bs[k].Ptr()..bs[k].Ptr() + n]
  {
    hide HeaderAt, PutHeader, Chained, SplitWrites, OthersKept;
    TiledDisjoint(bs, start, end);
    if Splits(bs[k], n) {
      var m1 := SplitWritesHold(m, bs, start, end, k, n);
      SplitLinks(m, m1, SplitIn(m, bs, k, n), bs, k, n);
      SplitData(m, m1, SplitIn(m, bs, k, n), bs, k, n);
    }
  }

  /** The two header writes of a split, seen separately. */
  ghost predicate SplitWrites(m: seq<byte>, m1: seq<byte>, m2: seq<byte>, bs: seq<Block>, k: nat, n: nat)
    requires k < |bs| && Splits(bs[k], n)
  {
    var b, r := bs[k], Split(bs, k, n);
    && |m| == |m1| == |m2| && b.End() <= |m|
    && HeaderAt(m1, b.Ptr() + n) == Header(b.size - n - HEADER, true, Next(bs, k))
    && OthersKept(m, m1, bs, |bs|) && DataKeptBut(m, m1, bs, k)
    && m1[b.Ptr()..b.Ptr() + n] == m[b.Ptr()..b.Ptr() + n]
    && HeaderAt(m2, b.addr) == Header(n, b.free, b.Ptr() + n)
    && OthersKept(m1, m2, r, k) && DataKept(m1, m2, r)
  }

  lemma SplitWritesHold(m: seq<byte>, bs: seq<Block>, start: nat, end: nat, k: nat, n: nat) returns (m1: seq<byte>)
    requires Tiled(bs, start, end) && end <= |m| <= LIMIT32 && k < |bs| && Splits(bs[k], n)
    requires bs[k].End() <= |m| && Storable(HeaderOf(bs, k))
    ensures SplitWrites(m, m1, SplitIn(m, bs, k, n), bs, k, n)
  {
    hide HeaderAt, PutHeader, Tiled, OthersKept, DataKept, DataKeptBut;
    var b := bs[k];
    var inner := Header(b.size - n - HEADER, true, Next(bs, k));
    m1 := PutHeader(m, b.Ptr() + n, inner);
    InnerWrite(m, bs, start, end, k, b.Ptr() + n, inner);
    SplitTiled(bs, start, end, k, n);
    HeaderWrite(m1, Split(bs, k, n), start, end, k, Header(n, b.free, b.Ptr() + n));
  }

  lemma SplitLinkAt(m: seq<byte>, m1: seq<byte>, m2: seq<byte>, bs: seq<Block>, k: nat, n: nat, j: nat)
    requires k < |bs| && Splits(bs[k], n) && SplitWrites(m, m1, m2, bs, k, n)
    requires Chained(m, bs) && j < |Split(bs, k, n)|
    ensures var r := Split(bs, k, n); r[j].End() <= |m2| && HeaderAt(m2, r[j].addr) == HeaderOf(r, j)
  {
    hide HeaderAt, DataKept, DataKeptBut;
    var r := Split(bs, k, n);
    if j < k {
      assert r[j] == bs[j] && Next(r, j) == Next(bs, j);
    } else if j == k {
      assert r[k].addr == bs[k].addr && Next(r, k) == bs[k].Ptr() + n;
    } else if j == k + 1 {
      assert Next(r, j) == Next(bs, k);
    } else {
      assert r[j] == bs[j - 1] && Next(r, j) == Next(bs, j - 1);
    }
  }

  lemma SplitLinks(m: seq<byte>, m1: seq<byte>, m2: seq<byte>, bs: seq<Block>, k: nat, n: nat)
    requires k < |bs| && Splits(bs[k], n) && SplitWrites(m, m1, m2, bs, k, n)
    requires Chained(m, bs)
    ensures Chained(m2, Split(bs, k, n))
  {
    hide HeaderAt, DataKept, DataKeptBut, OthersKept, Split;
    var r := Split(bs, k, n);
    forall j | 0 <= j < |r| ensures r[j].End() <= |m2| && HeaderAt(m2, r[j].addr) == HeaderOf(r, j) {
      SplitLinkAt(m, m1, m2, bs, k, n, j);
    }
  }

  lemma SplitData(m: seq<byte>, m1: seq<byte>, m2: seq<byte>, bs: seq<Block>, k: nat, n: nat)
    requires k < |bs| && Splits(bs[k], n) && SplitWrites(m, m1, m2, bs, k, n)
    ensures DataKeptBut(m, m2, bs, k)
    ensures m2[bs[k].Ptr()..bs[k].Ptr() + n] == m[bs[k].Ptr()..bs[k].Ptr() + n]
  {
    hide HeaderAt, OthersKept;
    var r := Split(bs, k, n);
    forall j | 0 <= j < |bs| && j != k
      ensures bs[j].End() <= |m| && m2[bs[j].Ptr()..bs[j].End()] == m[bs[j].Ptr()..bs[j].End()]
    {
      assert bs[j] == r[if j < k then j else j + 1];
    }
    assert r[k].Ptr() == bs[k].Ptr() && r[k].End() == bs[k].Ptr() + n;
  }

  /** heap_expand: the new block's header, and the link or the enlarged size of the last block. */
  function ExtendIn(m: seq<byte>, bs: seq<Block>, end: nat, bytes: nat): seq<byte>
    requires |bs| > 0 && bs[|bs| - 1].End() == end && HEADER <= bytes && end + bytes <= |m| <= LIMIT32
  {
    var last, r := |bs| - 1, Extend(bs, end, bytes);
    var m1 := PutHeader(m, end, Header(bytes - HEADER, true, 0));
    PutHeader(m1, bs[last].addr, HeaderOf(r, last))
  }

  lemma ExtendChained(m: seq<byte>, bs: seq<Block>, start: nat, end: nat, bytes: nat)
    requires Tiled(bs, start, end) && Chained(m, bs) && HEADER <= bytes && end + bytes <= |m| <= LIMIT32
    ensures Chained(ExtendIn(m, bs, end, bytes), Extend(bs, end, bytes))
    ensures Keeps(m, ExtendIn(m, bs, end, bytes), Used(bs))
  {
    hide HeaderAt, PutHeader, Used, Keeps, Chained;
    var last, r := |bs| - 1, Extend(bs, end, bytes);
    var h := Header(bytes - HEADER, true, 0);
    var m1, m2 := PutHeader(m, end, h), ExtendIn(m, bs, end, bytes);
    OuterWrite(m, bs, start, end, h);
    HeaderWrite(m1, bs, start, end, last, HeaderOf(r, last));
    AboveKept(m1, bs[last].addr, HeaderOf(r, last), end);
    ExtendLinks(m, m1, m2, bs, end, bytes);
    DataKeptTwice(m, m1, m2, bs);
    DataKeptUsed(m, m2, bs);
  }

  lemma DataKeptTwice(m: seq<byte>, m1: seq<byte>, m2: seq<byte>, bs: seq<Block>)
    requires DataKept(m, m1, bs) && DataKept(m1, m2, bs)
    ensures DataKept(m, m2, bs)
  {
  }

  lemma ExtendLinks(m: seq<byte>, m1: seq<byte>, m2: seq<byte>, bs: seq<Block>, end: nat, bytes: nat)
    requires |bs| > 0 && bs[|bs| - 1].End() == end && HEADER <= bytes && end + bytes <= |m| && |m| == |m1| == |m2|
    requires Chained(m, bs) && OthersKept(m, m1, bs, |bs|) && OthersKept(m1, m2, bs, |bs| - 1)
    requires HeaderAt(m2, end) == Header(bytes - HEADER, true, 0)
    requires HeaderAt(m2, bs[|bs| - 1].addr) == HeaderOf(Extend(bs, end, bytes), |bs| - 1)
    ensures Chained(m2, Extend(bs, end, bytes))
  {
    hide HeaderAt;
    var last, r := |bs| - 1, Extend(bs, end, bytes);
    forall j | 0 <= j < |r| ensures r[j].End() <= |m2| && HeaderAt(m2, r[j].addr) == HeaderOf(r, j) {
      if j < last {
        assert r[j] == bs[j] && Next(r, j) == Next(bs, j);
      }
    }
  }

  lemma OuterWrite(m: seq<byte>, bs: seq<Block>, start: nat, end: nat, h: Header)
    requires Tiled(bs, start, end) && end + HEADER <= |m| && Storable(h)
    ensures HeaderAt(PutHeader(m, end, h), end) == h
    ensures OthersKept(m, PutHeader(m, end, h), bs, |bs|) && DataKept(m, PutHeader(m, end, h), bs)
  {
    hide HeaderAt, PutHeader;
    TiledDisjoint(bs, start, end);
    PutHeaderAt(m, end, h);
    var m' := PutHeader(m, end, h);
    forall j | 0 <= j < |bs| ensures bs[j].End() <= |m| && HeaderAt(m', bs[j].addr) == HeaderAt(m, bs[j].addr) {
      assert m'[bs[j].addr..bs[j].Ptr()] == m[bs[j].addr..bs[j].Ptr()];
      HeaderLocal(m, m', bs[j].addr);
    }
  }

  lemma AboveKept(m: seq<byte>, a: nat, h: Header, top: nat)
    requires a + HEADER <= top && top + HEADER <= |m| && Storable(h)
    ensures HeaderAt(PutHeader(m, a, h), top) == HeaderAt(m, top)
  {
    hide HeaderAt, PutHeader;
    PutHeaderAt(m, a, h);
    var m' := PutHeader(m, a, h);
    assert m'[top..top + HEADER] == m[top..top + HEADER];
    HeaderLocal(m, m', top);
  }

  /** One free block over a whole region. */
  function Whole(start: nat, bytes: nat): seq<Block>
    requires bytes >= HEADER
  {
    [Block(start, bytes - HEADER, true)]
  }

  lemma WholeHeap(m: seq<byte>, start: nat, bytes: nat)
    requires HEADER < bytes && start + bytes <= |m| <= LIMIT32 && start % 4 == 0 && bytes % 4 == 0
    ensures Heaped(Whole(start, bytes), start, start + bytes)
    ensures Chained(PutHeader(m, start, Header(bytes - HEADER, true, 0)), Whole(start, bytes))
    ensures Used(Whole(start, bytes)) == {} && Sum(Whole(start, bytes), false) == 0
  {
    hide HeaderAt, PutHeader;
    PutHeaderAt(m, start, Header(bytes - HEADER, true, 0));
    SumOne(Whole(start, bytes)[0], false);
  }

  lemma KeepsSame(m: seq<byte>, bs: seq<Block>, start: nat, end: nat)
    requires Heaped(bs, start, end) && end <= |m|
    ensures Keeps(m, m, Used(bs))
  {
    TiledDisjoint(bs, start, end);
  }

  lemma MergeUsedFree(bs: seq<Block>, start: nat, end: nat, k: nat)
    requires Heaped(bs, start, end) && k + 1 < |bs| && bs[k].free && bs[k + 1].free
    ensures Used(Merge(bs, k)) == Used(bs) && Merge(bs, k)[k].free && Merge(bs, k)[k].addr == bs[k].addr
  {
    MergeUsed(bs, start, end, k);
  }

  /** A write inside the data area of block `k` does not reach block `j`. */
  lemma DataWriteAt(m: seq<byte>, bs: seq<Block>, start: nat, end: nat, k: nat, o: nat, t: seq<byte>, j: nat)
    requires Tiled(bs, start, end) && end <= |m| && k < |bs| && j < |bs|
    requires bs[k].Ptr() <= o && o + |t| <= bs[k].End() <= |m|
    ensures bs[j].End() <= |m| && HeaderAt(Splice(m, o, t), bs[j].addr) == HeaderAt(m, bs[j].addr)
    ensures j != k ==> Splice(m, o, t)[bs[j].Ptr()..bs[j].End()] == m[bs[j].Ptr()..bs[j].End()]
  {
    hide HeaderAt;
    TiledDisjoint(bs, start, end);
    SpliceElsewhere(m, o, t, bs[j].addr, bs[j].Ptr());
    HeaderLocal(m, Splice(m, o, t), bs[j].addr);
    if j != k {
      SpliceElsewhere(m, o, t, bs[j].Ptr(), bs[j].End());
    }
  }

  /** A write inside one data area leaves the list and all other data areas alone. */
  lemma DataWrite(m: seq<byte>, bs: seq<Block>, start: nat, end: nat, k: nat, o: nat, t: seq<byte>)
    requires Tiled(bs, start, end) && end <= |m| && Chained(m, bs) && k < |bs|
    requires bs[k].Ptr() <= o && o + |t| <= bs[k].End() <= |m|
    ensures Chained(Splice(m, o, t), bs) && DataKeptBut(m, Splice(m, o, t), bs, k)
  {
    hide HeaderAt, Tiled;
    var m' := Splice(m, o, t);
    forall j | 0 <= j < |bs|
      ensures bs[j].End() <= |m| && HeaderAt(m', bs[j].addr) == HeaderAt(m, bs[j].addr)
      ensures j != k ==> m'[bs[j].Ptr()..bs[j].End()] == m[bs[j].Ptr()..bs[j].End()]
    {
      DataWriteAt(m, bs, start, end, k, o, t, j);
    }
  }

  lemma KeptButUsed(m: seq<byte>, m': seq<byte>, bs: seq<Block>, k: nat)
    requires k < |bs| && DataKeptBut(m, m', bs, k)
    ensures Keeps(m, m', Used(bs) - {bs[k]})
  {
  }
}
