/**
 Where things are on an ext2 volume (src/fs/ext2/ext2.h, ext2_io.c, ext2_alloc.c):
 the superblock, the group descriptors, the bitmaps, the inode records and the data
 blocks, as stretches of the disk that do not meet.
 */
module Ext2Layout {
  import opened Bits
  import opened Words

  const LIMIT31 := 0x8000_0000
  const SECTOR := 512
  const SUPER_OFFSET := 1024
  const SUPER_SIZE := 104
  const DESC_SIZE := 32
  const INODE_SIZE := 128
  const MAX_INODE_SIZE := 256
  const NDIR := 12
  const SLOTS := 15

  /** The parameters of a mounted volume; `bb`, `ib` and `it` are where the descriptors point. */
  datatype Geo = Geo(
    bs: nat, blocksPerGroup: nat, inodesPerGroup: nat, groups: nat, blockCount: nat, inodeCount: nat,
    firstData: nat, inodeSize: nat, firstInode: nat, bb: seq<nat>, ib: seq<nat>, it: seq<nat>)
  {
    /** The descriptor table follows the superblock. */
    function Bgdt(): nat { firstData + 1 }

    function PointersPerBlock(): nat { bs / 4 }
  }

  /** What bitmaps keep track of. */
  datatype Kind = Blocks | Inodes

  /** Items per group, and items in all; blocks count from the first data block. */
  function PerGroup(geo: Geo, kind: Kind): nat {
    if kind.Blocks? then geo.blocksPerGroup else geo.inodesPerGroup
  }

  function Items(geo: Geo, kind: Kind): nat {
    if kind.Blocks?
    then (if geo.firstData <= geo.blockCount then geo.blockCount - geo.firstData else 0)
    else geo.inodeCount
  }

  /** The last group holds at least one item, and all items have a group. */
  predicate Grouped(geo: Geo, kind: Kind) {
    (geo.groups - 1) * PerGroup(geo, kind) < Items(geo, kind) <= geo.groups * PerGroup(geo, kind)
  }

  datatype Region = Super | Desc(g: nat) | BlockBits(g: nat) | InodeBits(g: nat) | Record(i: nat) | Data(b: nat)

  /** What mounting checks, and what the driver's 32-bit arithmetic needs. */
  predicate Shape(geo: Geo) {
    && (geo.bs == 1024 || geo.bs == 2048 || geo.bs == 4096)
    && 0 < geo.blocksPerGroup <= 8 * geo.bs && 0 < geo.inodesPerGroup <= 8 * geo.bs
    && 0 < geo.groups == |geo.bb| == |geo.ib| == |geo.it|
    && geo.firstData == (if geo.bs == SUPER_OFFSET then 1 else 0)
    && geo.firstData < geo.blockCount && geo.blockCount * geo.bs <= LIMIT32
    && (forall kind :: Grouped(geo, kind))
    && geo.inodeCount * INODE_SIZE <= LIMIT32
    && INODE_SIZE <= geo.inodeSize <= MAX_INODE_SIZE && 0 < geo.firstInode
  }

  predicate Known(geo: Geo, r: Region) {
    match r
    case Super => true
    case Desc(g) => g < geo.groups
    case BlockBits(g) => g < geo.groups
    case InodeBits(g) => g < geo.groups
    case Record(i) => 0 < i <= geo.inodeCount
    case Data(b) => b < geo.blockCount
  }

  lemma MulMonotone(a: nat, b: nat, n: nat)
    requires a <= b
    ensures a * n <= b * n
  {
  }

  lemma DivBelow(x: nat, n: nat, k: nat)
    requires 0 < n && x < k * n
    ensures x / n < k
  {
    var q := x / n;
    assert x == q * n + x % n;
    if k <= q {
      MulMonotone(k, q, n);
      assert false;
    }
  }

  /** Where the record of the inode with zero-based number `n` starts. */
  function RecordOff(geo: Geo, n: nat): nat
    requires 0 < geo.inodesPerGroup
  {
    var g := n / geo.inodesPerGroup;
    (if g < |geo.it| then geo.it[g] else 0) * geo.bs + n % geo.inodesPerGroup * geo.inodeSize
  }

  function Off(geo: Geo, r: Region): nat
    requires Shape(geo) && Known(geo, r)
  {
    match r
    case Super => SUPER_OFFSET
    case Desc(g) => geo.Bgdt() * geo.bs + g * DESC_SIZE
    case BlockBits(g) => geo.bb[g] * geo.bs
    case InodeBits(g) => geo.ib[g] * geo.bs
    case Record(i) => RecordOff(geo, i - 1)
    case Data(b) => b * geo.bs
  }

  function Len(geo: Geo, r: Region): nat {
    match r
    case Super => SUPER_SIZE
    case Desc(_) => DESC_SIZE
    case Record(_) => geo.inodeSize
    case _ => geo.bs
  }

  /** The two stretches do not meet. */
  predicate Apart(geo: Geo, r: Region, q: Region)
    requires Shape(geo) && Known(geo, r) && Known(geo, q)
  {
    Off(geo, r) + Len(geo, r) <= Off(geo, q) || Off(geo, q) + Len(geo, q) <= Off(geo, r)
  }

  predicate Meta(geo: Geo, r: Region) {
    Known(geo, r) && !r.Data?
  }

  predicate Inside(geo: Geo, r: Region)
    requires Shape(geo) && Known(geo, r)
  {
    Off(geo, r) + Len(geo, r) <= geo.blockCount * geo.bs
  }

  /** The metadata lies on the disk and no two pieces of it meet. */
  ghost predicate Layout(geo: Geo) {
    && Shape(geo)
    && (forall r :: Meta(geo, r) ==> Inside(geo, r))
    && (forall r, q :: Meta(geo, r) && Meta(geo, q) && r != q ==> Apart(geo, r, q))
  }

  /** A block that holds no metadata. */
  ghost predicate IsData(geo: Geo, b: nat)
    requires Shape(geo)
  {
    b < geo.blockCount && forall r :: Meta(geo, r) ==> Apart(geo, Data(b), r)
  }

  /** A stretch that may be read and written as one: metadata, or a data block. */
  ghost predicate Sound(geo: Geo, r: Region)
    requires Shape(geo)
  {
    Known(geo, r) && (r.Data? ==> IsData(geo, r.b))
  }

  lemma BlocksApart(geo: Geo, a: nat, b: nat)
    requires Shape(geo) && a < geo.blockCount && b < geo.blockCount && a != b
    ensures Apart(geo, Data(a), Data(b))
  {
    if a < b {
      MulMonotone(a + 1, b, geo.bs);
    } else {
      MulMonotone(b + 1, a, geo.bs);
    }
  }

  /** Different sound regions do not meet, and all lie on the disk. */
  lemma SoundApart(geo: Geo, r: Region, q: Region)
    requires Shape(geo) && Layout(geo) && Sound(geo, r) && Sound(geo, q)
    ensures Inside(geo, r) && (r != q ==> Apart(geo, r, q))
  {
    SoundInside(geo, r);
    hide Off, Len, Shape;
    if r != q {
      if r.Data? && q.Data? {
        BlocksApart(geo, r.b, q.b);
      } else if q.Data? {
        assert Apart(geo, q, r);
      }
    }
  }

  lemma SoundInside(geo: Geo, r: Region)
    requires Shape(geo) && Layout(geo) && Sound(geo, r)
    ensures Inside(geo, r)
  {
    if r.Data? {
      MulMonotone(r.b + 1, geo.blockCount, geo.bs);
    }
  }

  predicate Sized(geo: Geo, d: seq<byte>) {
    |d| == geo.blockCount * geo.bs
  }

  /** The bytes of a region. */
  function Reg(geo: Geo, d: seq<byte>, r: Region): (s: seq<byte>)
    requires Shape(geo) && Known(geo, r) && Sized(geo, d)
    ensures |s| == Len(geo, r) || !Inside(geo, r)
  {
    if Inside(geo, r) then d[Off(geo, r)..Off(geo, r) + Len(geo, r)] else []
  }

  function Put(geo: Geo, d: seq<byte>, r: Region, t: seq<byte>): (d': seq<byte>)
    requires Shape(geo) && Known(geo, r) && Sized(geo, d)
    ensures |d'| == |d|
  {
    if Inside(geo, r) && |t| == Len(geo, r) then Splice(d, Off(geo, r), t) else d
  }

  /** Writing one region changes it and no other. */
  lemma PutReg(geo: Geo, d: seq<byte>, r: Region, t: seq<byte>, q: Region)
    requires Shape(geo) && Layout(geo) && Sound(geo, r) && Sound(geo, q) && Sized(geo, d) && |t| == Len(geo, r)
    ensures Reg(geo, Put(geo, d, r, t), q) == if q == r then t else Reg(geo, d, q)
    ensures |Reg(geo, d, q)| == Len(geo, q)
  {
    hide Layout, Shape, Known, Sound, Inside, Sized, Apart, Put, Reg;
    SoundKnown(geo, r);
    SoundKnown(geo, q);
    SoundApart(geo, r, q);
    SoundApart(geo, q, r);
    SizedPut(geo, d, Put(geo, d, r, t));
    if q == r {
      PutHere(geo, d, r, t);
    } else {
      PutAway(geo, d, r, t, q);
    }
  }

  lemma PutHere(geo: Geo, d: seq<byte>, r: Region, t: seq<byte>)
    requires Shape(geo) && Known(geo, r) && Inside(geo, r) && Sized(geo, d) && |t| == Len(geo, r)
    ensures Sized(geo, Put(geo, d, r, t)) && Reg(geo, Put(geo, d, r, t), r) == t
  {
    hide Shape, Off, Len, Splice;
    SpliceThere(d, Off(geo, r), t);
  }

  lemma PutAway(geo: Geo, d: seq<byte>, r: Region, t: seq<byte>, q: Region)
    requires Shape(geo) && Known(geo, r) && Known(geo, q) && Inside(geo, r) && Inside(geo, q) && Apart(geo, r, q)
    requires Sized(geo, d) && |t| == Len(geo, r)
    ensures Sized(geo, Put(geo, d, r, t)) && Reg(geo, Put(geo, d, r, t), q) == Reg(geo, d, q)
  {
    hide Shape, Off, Len, Splice;
    SpliceElsewhere(d, Off(geo, r), t, Off(geo, q), Off(geo, q) + Len(geo, q));
  }

  lemma SizedPut(geo: Geo, d: seq<byte>, d': seq<byte>)
    requires Sized(geo, d) && |d'| == |d|
    ensures Sized(geo, d')
  {
  }

  lemma SoundKnown(geo: Geo, r: Region)
    requires Shape(geo) && Sound(geo, r)
    ensures Known(geo, r)
  {
    hide Shape;
  }

  /** Writes to different regions commute. */
  lemma PutCommutes(geo: Geo, d: seq<byte>, r: Region, t: seq<byte>, q: Region, u: seq<byte>)
    requires Shape(geo) && Layout(geo) && Sound(geo, r) && Sound(geo, q) && Sized(geo, d) && r != q
    requires |t| == Len(geo, r) && |u| == Len(geo, q)
    ensures Put(geo, Put(geo, d, r, t), q, u) == Put(geo, Put(geo, d, q, u), r, t)
  {
    hide Layout, IsData, Off, Len, Shape, Known, Splice;
    SoundApart(geo, r, q);
    SoundApart(geo, q, r);
    SpliceCommutes(d, Off(geo, r), t, Off(geo, q), u);
  }

  lemma SpliceCommutes(d: seq<byte>, o: nat, t: seq<byte>, p: nat, u: seq<byte>)
    requires o + |t| <= |d| && p + |u| <= |d| && (o + |t| <= p || p + |u| <= o)
    ensures Splice(Splice(d, o, t), p, u) == Splice(Splice(d, p, u), o, t)
  {
    var a, b := Splice(Splice(d, o, t), p, u), Splice(Splice(d, p, u), o, t);
    forall x | 0 <= x < |d| ensures a[x] == b[x] {
      SpliceAt(Splice(d, o, t), p, u, x);
      SpliceAt(d, o, t, x);
      SpliceAt(Splice(d, p, u), o, t, x);
      SpliceAt(d, p, u, x);
    }
  }

  lemma SpliceAt(d: seq<byte>, o: nat, t: seq<byte>, x: nat)
    requires o + |t| <= |d| && x < |d|
    ensures Splice(d, o, t)[x] == if o <= x < o + |t| then t[x - o] else d[x]
  {
  }

  lemma PutSame(geo: Geo, d: seq<byte>, r: Region)
    requires Shape(geo) && Known(geo, r) && Sized(geo, d)
    ensures Put(geo, d, r, Reg(geo, d, r)) == d
  {
    hide Off, Len, Shape;
    if Inside(geo, r) {
      assert d == d[..Off(geo, r)] + d[Off(geo, r)..Off(geo, r) + Len(geo, r)] + d[Off(geo, r) + Len(geo, r)..];
    }
  }

  /** A second write to the same region wins. */
  lemma PutTwice(geo: Geo, d: seq<byte>, r: Region, t: seq<byte>, u: seq<byte>)
    requires Shape(geo) && Layout(geo) && Sound(geo, r) && Sized(geo, d) && |t| == Len(geo, r) && |u| == Len(geo, r)
    ensures Put(geo, Put(geo, d, r, t), r, u) == Put(geo, d, r, u)
  {
    SoundApart(geo, r, r);
  }
}
