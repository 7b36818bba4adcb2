/**
 Free space on an ext2 volume: the bitmaps, the counts in the group descriptors and the
 totals in the superblock, for blocks and for inodes alike (src/fs/ext2/ext2_alloc.c).
 */
module Ext2Space {
  import opened Bits
  import opened Words
  import opened Ext2Layout

  ghost predicate Volume(geo: Geo, d: seq<byte>) {
    Shape(geo) && Layout(geo) && Sized(geo, d)
  }

  function BitsOf(kind: Kind, g: nat): Region {
    if kind.Blocks? then BlockBits(g) else InodeBits(g)
  }

  /** How many bits of the group's bitmap stand for something. */
  function Limit(geo: Geo, kind: Kind, g: nat): nat {
    LimitOf(g * PerGroup(geo, kind), PerGroup(geo, kind), Items(geo, kind))
  }

  function LimitOf(first: nat, per: nat, items: nat): nat {
    if first >= items then 0 else if first + per > items then items - first else per
  }

  /** Where the group descriptor keeps the free count. */
  function CountAt(kind: Kind): nat {
    if kind.Blocks? then 12 else 14
  }

  /** Where the superblock keeps the total. */
  function TotalAt(kind: Kind): nat {
    if kind.Blocks? then 12 else 16
  }

  lemma LimitBound(geo: Geo, kind: Kind, g: nat)
    requires Shape(geo)
    ensures Limit(geo, kind, g) <= PerGroup(geo, kind) <= 8 * geo.bs
  {
  }

  lemma RegLen(geo: Geo, d: seq<byte>, r: Region)
    requires Volume(geo, d) && Sound(geo, r)
    ensures Inside(geo, r) && |Reg(geo, d, r)| == Len(geo, r)
  {
    SoundInside(geo, r);
  }

  /** The bitmap of a group, as truth values. */
  ghost function FlagsOf(geo: Geo, d: seq<byte>, kind: Kind, g: nat): (f: seq<bool>)
    requires Volume(geo, d) && g < geo.groups
    ensures |f| == 8 * geo.bs
  {
    RegLen(geo, d, BitsOf(kind, g));
    Flags(Reg(geo, d, BitsOf(kind, g)))
  }

  /** The free bits of a group. */
  ghost function FreeBits(geo: Geo, d: seq<byte>, kind: Kind, g: nat): set<nat>
    requires Volume(geo, d) && g < geo.groups
  {
    LimitBound(geo, kind, g);
    Where(FlagsOf(geo, d, kind, g), Limit(geo, kind, g), false)
  }

  ghost function FreeCount(geo: Geo, d: seq<byte>, kind: Kind, g: nat): (n: nat)
    requires Volume(geo, d) && g < geo.groups
    ensures n <= Limit(geo, kind, g) && n <= 8 * geo.bs
  {
    LimitBound(geo, kind, g);
    WhereBound(FlagsOf(geo, d, kind, g), Limit(geo, kind, g), false);
    |FreeBits(geo, d, kind, g)|
  }

  lemma {:induction false} WhereBound(f: seq<bool>, n: nat, v: bool)
    requires n <= |f|
    ensures |Where(f, n, v)| <= n
  {
    if n == 0 {
      assert Where(f, 0, v) == {};
    } else {
      WhereBound(f, n - 1, v);
      WhereGrows(f, n - 1, v);
    }
  }

  /** The free bits of the first `n` groups, counted. */
  ghost function Total(geo: Geo, d: seq<byte>, kind: Kind, n: nat): nat
    requires Volume(geo, d) && n <= geo.groups
  {
    if n == 0 then 0 else Total(geo, d, kind, n - 1) + FreeCount(geo, d, kind, n - 1)
  }

  ghost function DescOf(geo: Geo, d: seq<byte>, g: nat): (s: seq<byte>)
    requires Volume(geo, d) && g < geo.groups
    ensures |s| == DESC_SIZE
  {
    RegLen(geo, d, Desc(g));
    Reg(geo, d, Desc(g))
  }

  /** The descriptor points to the group's metadata and its counts are those of the bitmaps. */
  ghost predicate GroupOk(geo: Geo, d: seq<byte>, g: nat)
    requires Volume(geo, d) && g < geo.groups
  {
    var desc := DescOf(geo, d, g);
    && Get32(desc, 0) == geo.bb[g] && Get32(desc, 4) == geo.ib[g] && Get32(desc, 8) == geo.it[g]
    && Get16(desc, CountAt(Blocks)) == FreeCount(geo, d, Blocks, g)
    && Get16(desc, CountAt(Inodes)) == FreeCount(geo, d, Inodes, g)
  }

  /** Every group's counts are right, the totals are their sums, and the superblock on disk is the cached one. */
  ghost predicate Accounts(geo: Geo, d: seq<byte>, sup: seq<byte>) {
    && Volume(geo, d) && |sup| == SUPER_SIZE
    && (forall g: nat :: g < geo.groups ==> GroupOk(geo, d, g))
    && Get32(sup, TotalAt(Blocks)) == Total(geo, d, Blocks, geo.groups)
    && Get32(sup, TotalAt(Inodes)) == Total(geo, d, Inodes, geo.groups)
    && Reg(geo, d, Super) == sup
  }

  /** The block or inode (zero-based) that bit `x` of group `g` stands for. */
  function ItemNo(geo: Geo, kind: Kind, g: nat, x: nat): nat {
    g * PerGroup(geo, kind) + x
  }

  function GroupOf(geo: Geo, kind: Kind, n: nat): nat
    requires 0 < PerGroup(geo, kind)
  {
    n / PerGroup(geo, kind)
  }

  function BitOf(geo: Geo, kind: Kind, n: nat): nat
    requires 0 < PerGroup(geo, kind)
  {
    n % PerGroup(geo, kind)
  }

  /** Item `n` is marked in its bitmap. */
  ghost predicate Marked(geo: Geo, d: seq<byte>, kind: Kind, n: nat)
    requires Volume(geo, d)
  {
    GroupOf(geo, kind, n) < geo.groups && FlagsOf(geo, d, kind, GroupOf(geo, kind, n))[BitOf(geo, kind, n)]
  }

  lemma PlaceBound(n: nat, per: nat, items: nat, groups: nat)
    requires 0 < per && n < items <= groups * per
    ensures n / per < groups && n % per < LimitOf(n / per * per, per, items) && n / per * per + n % per == n
  {
    DivBelow(n, per, groups);
    var g, x := n / per, n % per;
    assert g * per + x == n;
  }

  /** A number decomposes into a group and a bit that stand for it. */
  lemma ItemPlace(geo: Geo, kind: Kind, n: nat)
    requires Shape(geo) && n < Items(geo, kind)
    ensures 0 < PerGroup(geo, kind)
    ensures var g, x := GroupOf(geo, kind, n), BitOf(geo, kind, n);
            g < geo.groups && x < Limit(geo, kind, g) && ItemNo(geo, kind, g, x) == n
  {
    assert Grouped(geo, kind);
    PlaceBound(n, PerGroup(geo, kind), Items(geo, kind), geo.groups);
  }

  /** And the group and bit compose to a number that decomposes back to them. */
  lemma ItemBack(geo: Geo, kind: Kind, g: nat, x: nat)
    requires Shape(geo) && x < Limit(geo, kind, g)
    ensures 0 < PerGroup(geo, kind)
    ensures var n := ItemNo(geo, kind, g, x);
            n < Items(geo, kind) && GroupOf(geo, kind, n) == g && BitOf(geo, kind, n) == x
  {
    DivMod(g, x, PerGroup(geo, kind));
  }

  lemma DivMod(g: nat, x: nat, n: nat)
    requires x < n
    ensures (g * n + x) / n == g && (g * n + x) % n == x
  {
    var y := g * n + x;
    var q, r := y / n, y % n;
    assert y == q * n + r;
    if q < g {
      MulMonotone(q + 1, g, n);
      assert false;
    } else if g < q {
      MulMonotone(g + 1, q, n);
      assert false;
    }
  }

  // ---------------------------------------------------------------- one bit

  /** `d2` has the bitmaps of `d`, but for bit `x` of one group, which is `v`. */
  ghost predicate Flips(geo: Geo, d: seq<byte>, d2: seq<byte>, kind: Kind, g: nat, x: nat, v: bool) {
    && Volume(geo, d) && Volume(geo, d2) && g < geo.groups && x < 8 * geo.bs
    && forall k, h: nat :: h < geo.groups ==> FlipsIn(geo, d, d2, kind, g, x, v, k, h)
  }

  ghost predicate FlipsIn(geo: Geo, d: seq<byte>, d2: seq<byte>, kind: Kind, g: nat, x: nat, v: bool, k: Kind, h: nat)
    requires Volume(geo, d) && Volume(geo, d2) && g < geo.groups && h < geo.groups && x < 8 * geo.bs
  {
    FlagsOf(geo, d2, k, h) == if k == kind && h == g then FlagsOf(geo, d, kind, g)[x := v] else FlagsOf(geo, d, k, h)
  }

  lemma FlipCount(geo: Geo, d: seq<byte>, d2: seq<byte>, kind: Kind, g: nat, x: nat, v: bool, k: Kind, h: nat)
    requires Flips(geo, d, d2, kind, g, x, v) && x < Limit(geo, kind, g) && FlagsOf(geo, d, kind, g)[x] == !v
    requires h < geo.groups
    ensures FreeCount(geo, d2, k, h) ==
            FreeCount(geo, d, k, h) + (if k != kind || h != g then 0 else if v then -1 else 1)
  {
    assert FlipsIn(geo, d, d2, kind, g, x, v, k, h);
    if k == kind && h == g {
      LimitBound(geo, kind, g);
      var f, n := FlagsOf(geo, d, kind, g), Limit(geo, kind, g);
      hide Volume, Limit, FlagsOf;
      WhereUpdate(f, x, v, n);
      assert x in Where(f, n, !v) && x !in Where(f, n, v);
    }
  }

  lemma FlipVolumes(geo: Geo, d: seq<byte>, d2: seq<byte>, kind: Kind, g: nat, x: nat, v: bool)
    requires Flips(geo, d, d2, kind, g, x, v)
    ensures Volume(geo, d) && Volume(geo, d2)
  {
  }

  lemma {:induction false} FlipTotal(geo: Geo, d: seq<byte>, d2: seq<byte>, kind: Kind, g: nat, x: nat, v: bool,
                                     k: Kind, n: nat)
    requires Flips(geo, d, d2, kind, g, x, v) && x < Limit(geo, kind, g) && FlagsOf(geo, d, kind, g)[x] == !v
    requires n <= geo.groups
    ensures Total(geo, d2, k, n) ==
            Total(geo, d, k, n) + (if k != kind || n <= g then 0 else if v then -1 else 1)
  {
    hide Volume, Flips, FlagsOf, FreeCount, Limit;
    assert Volume(geo, d) && Volume(geo, d2) by { FlipVolumes(geo, d, d2, kind, g, x, v); }
    if n > 0 {
      FlipTotal(geo, d, d2, kind, g, x, v, k, n - 1);
      FlipCount(geo, d, d2, kind, g, x, v, k, n - 1);
    }
  }

  /** Exactly the item of the flipped bit changes. */
  lemma FlipMarked(geo: Geo, d: seq<byte>, d2: seq<byte>, kind: Kind, g: nat, x: nat, v: bool, k: Kind, n: nat)
    requires Flips(geo, d, d2, kind, g, x, v) && x < Limit(geo, kind, g) && n < Items(geo, k)
    ensures Marked(geo, d2, k, n) <==> if k == kind && n == ItemNo(geo, kind, g, x) then v else Marked(geo, d, k, n)
  {
    hide Shape, Layout, FlagsOf, Limit, Sized, GroupOf, BitOf, ItemNo;
    ItemPlace(geo, k, n);
    ItemBack(geo, kind, g, x);
    LimitBound(geo, k, GroupOf(geo, k, n));
    assert FlipsIn(geo, d, d2, kind, g, x, v, k, GroupOf(geo, k, n));
  }

  // ---------------------------------------------------------------- one bit, with its counts

  /** A descriptor with other counts. */
  function CountedDesc(desc: seq<byte>, blocks: nat, inodes: nat, dirs: nat): (r: seq<byte>)
    requires |desc| == DESC_SIZE && blocks < LIMIT16 && inodes < LIMIT16 && dirs < LIMIT16
    ensures |r| == DESC_SIZE
  {
    Put16(Put16(Put16(desc, 12, blocks), 14, inodes), 16, dirs)
  }

  function CountedSuper(sup: seq<byte>, blocks: nat, inodes: nat): (r: seq<byte>)
    requires |sup| == SUPER_SIZE && blocks < LIMIT32 && inodes < LIMIT32
    ensures |r| == SUPER_SIZE
  {
    Put32(Put32(sup, 12, blocks), 16, inodes)
  }

  lemma CountedDescIs(desc: seq<byte>, blocks: nat, inodes: nat, dirs: nat)
    requires |desc| == DESC_SIZE && blocks < LIMIT16 && inodes < LIMIT16 && dirs < LIMIT16
    ensures var r := CountedDesc(desc, blocks, inodes, dirs);
            && Get16(r, 12) == blocks && Get16(r, 14) == inodes && Get16(r, 16) == dirs
            && Get32(r, 0) == Get32(desc, 0) && Get32(r, 4) == Get32(desc, 4) && Get32(r, 8) == Get32(desc, 8)
  {
    var r1 := Put16(desc, 12, blocks);
    var r2 := Put16(r1, 14, inodes);
    var r3 := Put16(r2, 16, dirs);
    Put16Get(desc, 12, blocks);
    Put16Get(r1, 14, inodes);
    Put16Get(r2, 16, dirs);
    hide Put16, Get16, Get32;
    CountsApart(desc, blocks, inodes, dirs, 12);
    CountsApart(desc, blocks, inodes, dirs, 14);
    CountsApart(desc, blocks, inodes, dirs, 0);
    CountsApart(desc, blocks, inodes, dirs, 4);
    CountsApart(desc, blocks, inodes, dirs, 8);
  }

  lemma CountsApart(desc: seq<byte>, blocks: nat, inodes: nat, dirs: nat, p: nat)
    requires |desc| == DESC_SIZE && blocks < LIMIT16 && inodes < LIMIT16 && dirs < LIMIT16 && p <= 14
    ensures var r1 := Put16(desc, 12, blocks); var r2 := Put16(r1, 14, inodes); var r3 := Put16(r2, 16, dirs);
            && (p <= 8 ==> Get32(r3, p) == Get32(desc, p))
            && (p == 12 ==> Get16(r3, p) == Get16(r1, p))
            && (p == 14 ==> Get16(r3, p) == Get16(r2, p))
  {
    hide Put16, Get16, Get32;
    Put16Elsewhere(desc, 12, blocks, p);
    Put16Elsewhere(Put16(desc, 12, blocks), 14, inodes, p);
    Put16Elsewhere(Put16(Put16(desc, 12, blocks), 14, inodes), 16, dirs, p);
  }

  lemma CountedSuperIs(sup: seq<byte>, blocks: nat, inodes: nat)
    requires |sup| == SUPER_SIZE && blocks < LIMIT32 && inodes < LIMIT32
    ensures var r := CountedSuper(sup, blocks, inodes); Get32(r, 12) == blocks && Get32(r, 16) == inodes
  {
    Put32Get(sup, 12, blocks);
    Put32Get(Put32(sup, 12, blocks), 16, inodes);
    hide Put32, Get32;
    Put32Elsewhere(Put32(sup, 12, blocks), 16, inodes, 12);
  }

  /** The disk with bit `x` of a group written. */
  ghost function BitPut(geo: Geo, d: seq<byte>, kind: Kind, g: nat, x: nat, v: bool): (d1: seq<byte>)
    requires Volume(geo, d) && g < geo.groups && x < 8 * geo.bs
    ensures Volume(geo, d1)
  {
    RegLen(geo, d, BitsOf(kind, g));
    Put(geo, d, BitsOf(kind, g), SetBit(Reg(geo, d, BitsOf(kind, g)), x, v))
  }

  /** The disk with the counts of group `g` and the superblock written. */
  ghost function CountPut(geo: Geo, d: seq<byte>, g: nat, desc: seq<byte>, sup: seq<byte>): (d1: seq<byte>)
    requires Volume(geo, d) && g < geo.groups
    ensures Volume(geo, d1)
  {
    Put(geo, Put(geo, d, Desc(g), desc), Super, sup)
  }

  /** What stands in one region after the bit and the counts are written. */
  lemma FlippedReg(geo: Geo, d: seq<byte>, kind: Kind, g: nat, x: nat, v: bool, desc: seq<byte>, sup: seq<byte>,
                   r: Region)
    requires Volume(geo, d) && g < geo.groups && x < 8 * geo.bs && |desc| == DESC_SIZE && |sup| == SUPER_SIZE
    requires Sound(geo, r)
    ensures Reg(geo, CountPut(geo, BitPut(geo, d, kind, g, x, v), g, desc, sup), r) ==
            if r == Super then sup else if r == Desc(g) then desc
            else if r == BitsOf(kind, g) then SetBit(Reg(geo, d, r), x, v) else Reg(geo, d, r)
  {
    hide Shape, Layout, IsData, Reg, Put;
    RegLen(geo, d, BitsOf(kind, g));
    var t := SetBit(Reg(geo, d, BitsOf(kind, g)), x, v);
    var d1 := Put(geo, d, BitsOf(kind, g), t);
    var d2 := Put(geo, d1, Desc(g), desc);
    PutReg(geo, d, BitsOf(kind, g), t, r);
    PutReg(geo, d1, Desc(g), desc, r);
    PutReg(geo, d2, Super, sup, r);
  }

  lemma FlippedFlags(geo: Geo, d: seq<byte>, kind: Kind, g: nat, x: nat, v: bool, desc: seq<byte>, sup: seq<byte>)
    requires Volume(geo, d) && g < geo.groups && x < 8 * geo.bs && |desc| == DESC_SIZE && |sup| == SUPER_SIZE
    ensures Flips(geo, d, CountPut(geo, BitPut(geo, d, kind, g, x, v), g, desc, sup), kind, g, x, v)
  {
    hide Shape, Layout, BitPut;
    var d3 := CountPut(geo, BitPut(geo, d, kind, g, x, v), g, desc, sup);
    hide CountPut;
    forall k, h: nat | h < geo.groups ensures FlipsIn(geo, d, d3, kind, g, x, v, k, h) {
      FlippedReg(geo, d, kind, g, x, v, desc, sup, BitsOf(k, h));
      RegLen(geo, d, BitsOf(kind, g));
      SetBitFlags(Reg(geo, d, BitsOf(kind, g)), x, v);
    }
  }

  function Delta(kind: Kind, k: Kind, v: bool): int {
    if kind != k then 0 else if v then -1 else 1
  }

  /** The counts that go with marking or clearing one bit. */
  ghost predicate Recounted(geo: Geo, d: seq<byte>, sup: seq<byte>, kind: Kind, g: nat, v: bool, desc2: seq<byte>,
                            sup2: seq<byte>)
    requires Volume(geo, d) && g < geo.groups
  {
    var desc := DescOf(geo, d, g);
    && |sup| == |sup2| == SUPER_SIZE && |desc2| == DESC_SIZE
    && Get32(desc2, 0) == Get32(desc, 0) && Get32(desc2, 4) == Get32(desc, 4) && Get32(desc2, 8) == Get32(desc, 8)
    && BytesSame(desc, desc2, 12, 16) && BytesSame(sup, sup2, 12, 20)
    && (forall k :: RecountedKind(desc, sup, kind, k, v, desc2, sup2))
  }

  predicate RecountedKind(desc: seq<byte>, sup: seq<byte>, kind: Kind, k: Kind, v: bool, desc2: seq<byte>,
                          sup2: seq<byte>)
    requires |sup| == |sup2| == SUPER_SIZE && |desc| == |desc2| == DESC_SIZE
  {
    && Get16(desc2, CountAt(k)) == Get16(desc, CountAt(k)) + Delta(kind, k, v)
    && Get32(sup2, TotalAt(k)) == Get32(sup, TotalAt(k)) + Delta(kind, k, v)
  }

  lemma FlippedGroup(geo: Geo, d: seq<byte>, sup: seq<byte>, kind: Kind, g: nat, x: nat, v: bool, desc2: seq<byte>,
                     sup2: seq<byte>, h: nat)
    requires Volume(geo, d) && g < geo.groups && x < 8 * geo.bs && x < Limit(geo, kind, g)
    requires FlagsOf(geo, d, kind, g)[x] == !v
    requires Recounted(geo, d, sup, kind, g, v, desc2, sup2) && h < geo.groups && GroupOk(geo, d, h)
    ensures GroupOk(geo, CountPut(geo, BitPut(geo, d, kind, g, x, v), g, desc2, sup2), h)
  {
    hide Volume, CountPut, BitPut, FlagsOf, FreeCount, Limit, Get16, Get32, Flips, Shape, Layout, DescOf, Reg;
    FlippedDesc(geo, d, kind, g, x, v, desc2, sup2, h);
    FlippedCount(geo, d, sup, kind, g, x, v, desc2, sup2, Blocks, h);
    FlippedCount(geo, d, sup, kind, g, x, v, desc2, sup2, Inodes, h);
  }

  lemma FlippedCount(geo: Geo, d: seq<byte>, sup: seq<byte>, kind: Kind, g: nat, x: nat, v: bool, desc2: seq<byte>,
                     sup2: seq<byte>, k: Kind, h: nat)
    requires Volume(geo, d) && g < geo.groups && x < 8 * geo.bs && x < Limit(geo, kind, g)
    requires FlagsOf(geo, d, kind, g)[x] == !v
    requires Recounted(geo, d, sup, kind, g, v, desc2, sup2) && h < geo.groups
    requires Get16(DescOf(geo, d, h), CountAt(k)) == FreeCount(geo, d, k, h)
    ensures var d3 := CountPut(geo, BitPut(geo, d, kind, g, x, v), g, desc2, sup2);
            Get16(DescOf(geo, d3, h), CountAt(k)) == FreeCount(geo, d3, k, h)
  {
    hide Volume, CountPut, BitPut, FlagsOf, FreeCount, Limit, Get16, Get32, Flips, Shape, Layout, DescOf, Reg;
    FlippedFlags(geo, d, kind, g, x, v, desc2, sup2);
    FlipCount(geo, d, CountPut(geo, BitPut(geo, d, kind, g, x, v), g, desc2, sup2), kind, g, x, v, k, h);
    FlippedDesc(geo, d, kind, g, x, v, desc2, sup2, h);
    assert RecountedKind(DescOf(geo, d, g), sup, kind, k, v, desc2, sup2);
  }

  lemma FlippedDesc(geo: Geo, d: seq<byte>, kind: Kind, g: nat, x: nat, v: bool, desc2: seq<byte>, sup2: seq<byte>,
                    h: nat)
    requires Volume(geo, d) && g < geo.groups && x < 8 * geo.bs && |desc2| == DESC_SIZE && |sup2| == SUPER_SIZE
    requires h < geo.groups
    ensures DescOf(geo, CountPut(geo, BitPut(geo, d, kind, g, x, v), g, desc2, sup2), h)
              == if h == g then desc2 else DescOf(geo, d, h)
  {
    FlippedReg(geo, d, kind, g, x, v, desc2, sup2, Desc(h));
  }

  /** Marking a free bit, or clearing a marked one, with the counts adjusted keeps the accounts right. */
  lemma FlipAccounts(geo: Geo, d: seq<byte>, sup: seq<byte>, kind: Kind, g: nat, x: nat, v: bool, desc2: seq<byte>,
                     sup2: seq<byte>)
    requires Accounts(geo, d, sup) && g < geo.groups && x < 8 * geo.bs && x < Limit(geo, kind, g)
    requires FlagsOf(geo, d, kind, g)[x] == !v
    requires Recounted(geo, d, sup, kind, g, v, desc2, sup2)
    ensures Accounts(geo, CountPut(geo, BitPut(geo, d, kind, g, x, v), g, desc2, sup2), sup2)
  {
    var d3 := CountPut(geo, BitPut(geo, d, kind, g, x, v), g, desc2, sup2);
    hide Volume, CountPut, BitPut, FlagsOf, FreeCount, Limit, Get16, Get32, Flips, GroupOk, Reg, Total, Recounted,
      Shape, Layout, Sound, IsData, DescOf, Delta;
    assert |sup2| == SUPER_SIZE && |desc2| == DESC_SIZE by { RecountedSizes(geo, d, sup, kind, g, v, desc2, sup2); }
    forall h: nat | h < geo.groups ensures GroupOk(geo, d3, h) {
      FlippedGroup(geo, d, sup, kind, g, x, v, desc2, sup2, h);
    }
    FlippedTotal(geo, d, sup, kind, g, x, v, desc2, sup2, Blocks);
    FlippedTotal(geo, d, sup, kind, g, x, v, desc2, sup2, Inodes);
    FlippedSuper(geo, d, kind, g, x, v, desc2, sup2);
  }

  lemma FlippedSuper(geo: Geo, d: seq<byte>, kind: Kind, g: nat, x: nat, v: bool, desc2: seq<byte>, sup2: seq<byte>)
    requires Volume(geo, d) && g < geo.groups && x < 8 * geo.bs && |desc2| == DESC_SIZE && |sup2| == SUPER_SIZE
    ensures Reg(geo, CountPut(geo, BitPut(geo, d, kind, g, x, v), g, desc2, sup2), Super) == sup2
  {
    FlippedReg(geo, d, kind, g, x, v, desc2, sup2, Super);
  }

  lemma RecountedSizes(geo: Geo, d: seq<byte>, sup: seq<byte>, kind: Kind, g: nat, v: bool, desc2: seq<byte>,
                       sup2: seq<byte>)
    requires Volume(geo, d) && g < geo.groups && Recounted(geo, d, sup, kind, g, v, desc2, sup2)
    ensures |sup2| == SUPER_SIZE && |desc2| == DESC_SIZE
  {
  }

  lemma FlippedTotal(geo: Geo, d: seq<byte>, sup: seq<byte>, kind: Kind, g: nat, x: nat, v: bool, desc2: seq<byte>,
                     sup2: seq<byte>, k: Kind)
    requires Volume(geo, d) && g < geo.groups && x < 8 * geo.bs && x < Limit(geo, kind, g)
    requires FlagsOf(geo, d, kind, g)[x] == !v
    requires |sup| == SUPER_SIZE && Get32(sup, TotalAt(k)) == Total(geo, d, k, geo.groups)
    requires Recounted(geo, d, sup, kind, g, v, desc2, sup2)
    ensures Get32(sup2, TotalAt(k))
              == Total(geo, CountPut(geo, BitPut(geo, d, kind, g, x, v), g, desc2, sup2), k, geo.groups)
  {
    hide Volume, CountPut, BitPut, FlagsOf, Limit, Get16, Get32, Flips, Total;
    FlippedFlags(geo, d, kind, g, x, v, desc2, sup2);
    FlipTotal(geo, d, CountPut(geo, BitPut(geo, d, kind, g, x, v), g, desc2, sup2), kind, g, x, v, k, geo.groups);
    assert RecountedKind(DescOf(geo, d, g), sup, kind, k, v, desc2, sup2);
  }

  // ---------------------------------------------------------------- seen from the items

  ghost predicate MarkedLike(geo: Geo, d: seq<byte>, d2: seq<byte>, kind: Kind, n: nat, v: bool, k: Kind, m: nat)
    requires Volume(geo, d) && Volume(geo, d2)
  {
    Marked(geo, d2, k, m) <==> if k == kind && m == n then v else Marked(geo, d, k, m)
  }

  ghost predicate SameReg(geo: Geo, d: seq<byte>, d2: seq<byte>, r: Region)
    requires Volume(geo, d) && Volume(geo, d2)
  {
    Sound(geo, r) && Reg(geo, d2, r) == Reg(geo, d, r)
  }

  /** Inode records and data blocks stand as before. */
  ghost predicate SameContents(geo: Geo, d: seq<byte>, d2: seq<byte>) {
    && Volume(geo, d) && Volume(geo, d2)
    && forall r :: Sound(geo, r) && (r.Record? || r.Data?) ==> SameReg(geo, d, d2, r)
  }

  /** No byte differs outside [lo, hi). */
  predicate BytesSame(a: seq<byte>, b: seq<byte>, lo: nat, hi: nat) {
    |a| == |b| && forall x :: 0 <= x < |a| && !(lo <= x < hi) ==> b[x] == a[x]
  }

  ghost predicate SameDesc(geo: Geo, d: seq<byte>, d2: seq<byte>, g: nat)
    requires Volume(geo, d) && Volume(geo, d2) && g < geo.groups
  {
    BytesSame(DescOf(geo, d, g), DescOf(geo, d2, g), 12, 16)
  }

  /** Descriptors and superblock differ in their free counts at most: directories are counted as before. */
  ghost predicate SameRest(geo: Geo, d: seq<byte>, d2: seq<byte>) {
    && Volume(geo, d) && Volume(geo, d2) && BytesSame(Reg(geo, d, Super), Reg(geo, d2, Super), 12, 20)
    && forall g: nat :: g < geo.groups ==> SameDesc(geo, d, d2, g)
  }

  lemma RestMore(geo: Geo, d: seq<byte>, d1: seq<byte>, d2: seq<byte>)
    requires SameRest(geo, d, d1) && SameRest(geo, d1, d2)
    ensures SameRest(geo, d, d2)
  {
    hide Volume, DescOf, Reg;
    forall g: nat | g < geo.groups ensures SameDesc(geo, d, d2, g) {
      assert SameDesc(geo, d, d1, g) && SameDesc(geo, d1, d2, g);
    }
  }

  lemma RestSelf(geo: Geo, d: seq<byte>)
    requires Volume(geo, d)
    ensures SameRest(geo, d, d)
  {
    hide Volume, DescOf, Reg;
  }

  lemma FlippedRest(geo: Geo, d: seq<byte>, kind: Kind, g: nat, x: nat, v: bool, desc2: seq<byte>, sup2: seq<byte>)
    requires Volume(geo, d) && g < geo.groups && x < 8 * geo.bs && |desc2| == DESC_SIZE && |sup2| == SUPER_SIZE
    requires BytesSame(DescOf(geo, d, g), desc2, 12, 16) && BytesSame(Reg(geo, d, Super), sup2, 12, 20)
    ensures SameRest(geo, d, CountPut(geo, BitPut(geo, d, kind, g, x, v), g, desc2, sup2))
  {
    hide Volume, CountPut, BitPut, DescOf, Reg;
    var d2 := CountPut(geo, BitPut(geo, d, kind, g, x, v), g, desc2, sup2);
    FlippedSuper(geo, d, kind, g, x, v, desc2, sup2);
    forall h: nat | h < geo.groups ensures SameDesc(geo, d, d2, h) {
      FlippedDesc(geo, d, kind, g, x, v, desc2, sup2, h);
    }
  }

  /** Item `n` became marked or clear; no other item changed, no record or data block, and no other count. */
  ghost predicate Turned(geo: Geo, d: seq<byte>, d2: seq<byte>, kind: Kind, n: nat, v: bool) {
    && SameContents(geo, d, d2) && SameRest(geo, d, d2)
    && forall k, m: nat :: m < Items(geo, k) ==> MarkedLike(geo, d, d2, kind, n, v, k, m)
  }

  lemma FlippedContents(geo: Geo, d: seq<byte>, kind: Kind, g: nat, x: nat, v: bool, desc2: seq<byte>, sup2: seq<byte>)
    requires Volume(geo, d) && g < geo.groups && x < 8 * geo.bs && |desc2| == DESC_SIZE && |sup2| == SUPER_SIZE
    ensures SameContents(geo, d, CountPut(geo, BitPut(geo, d, kind, g, x, v), g, desc2, sup2))
  {
    var d2 := CountPut(geo, BitPut(geo, d, kind, g, x, v), g, desc2, sup2);
    hide Volume, CountPut, BitPut, Reg, Shape, Layout, IsData;
    forall r | Sound(geo, r) && (r.Record? || r.Data?) ensures SameReg(geo, d, d2, r) {
      FlippedReg(geo, d, kind, g, x, v, desc2, sup2, r);
    }
  }

  lemma FlippedTurned(geo: Geo, d: seq<byte>, kind: Kind, g: nat, x: nat, v: bool, desc2: seq<byte>, sup2: seq<byte>)
    requires Volume(geo, d) && g < geo.groups && x < 8 * geo.bs && x < Limit(geo, kind, g) && |desc2| == DESC_SIZE
    requires |sup2| == SUPER_SIZE
    requires BytesSame(DescOf(geo, d, g), desc2, 12, 16) && BytesSame(Reg(geo, d, Super), sup2, 12, 20)
    ensures Turned(geo, d, CountPut(geo, BitPut(geo, d, kind, g, x, v), g, desc2, sup2), kind,
                   ItemNo(geo, kind, g, x), v)
  {
    var d2 := CountPut(geo, BitPut(geo, d, kind, g, x, v), g, desc2, sup2);
    FlippedFlags(geo, d, kind, g, x, v, desc2, sup2);
    FlippedContents(geo, d, kind, g, x, v, desc2, sup2);
    FlippedRest(geo, d, kind, g, x, v, desc2, sup2);
    hide Volume, CountPut, BitPut, Flips, Limit, ItemNo, Marked, Items, Shape, Layout, SameContents, SameRest;
    forall k, m: nat | m < Items(geo, k) ensures MarkedLike(geo, d, d2, kind, ItemNo(geo, kind, g, x), v, k, m) {
      FlipMarked(geo, d, d2, kind, g, x, v, k, m);
    }
  }

  // ---------------------------------------------------------------- a bit that was clear

  /** Bit `x` is that of an item in use. */
  ghost predicate InUse(geo: Geo, d: seq<byte>, kind: Kind, g: nat, x: nat)
    requires Volume(geo, d) && g < geo.groups && x < 8 * geo.bs
  {
    x < Limit(geo, kind, g) && FlagsOf(geo, d, kind, g)[x]
  }

  /** The bitmaps are as they were, but the total is one more than the free items. */
  ghost predicate Overcounted(geo: Geo, d: seq<byte>, d2: seq<byte>, sup2: seq<byte>, kind: Kind) {
    && SameContents(geo, d, d2) && (forall k, m: nat :: m < Items(geo, k) ==> SameMark(geo, d, d2, k, m))
    && |sup2| == SUPER_SIZE && Get32(sup2, TotalAt(kind)) == Total(geo, d2, kind, geo.groups) + 1
  }

  ghost predicate SameMark(geo: Geo, d: seq<byte>, d2: seq<byte>, k: Kind, m: nat)
    requires Volume(geo, d) && Volume(geo, d2)
  {
    Marked(geo, d2, k, m) <==> Marked(geo, d, k, m)
  }

  lemma OvercountedBreaks(geo: Geo, d: seq<byte>, d2: seq<byte>, sup2: seq<byte>, kind: Kind)
    requires Overcounted(geo, d, d2, sup2, kind)
    ensures !Accounts(geo, d2, sup2)
  {
    hide SameContents, Total, Volume, GroupOk, Reg;
  }

  lemma IdleFlags(geo: Geo, d: seq<byte>, d2: seq<byte>, kind: Kind, g: nat, x: nat, k: Kind, h: nat, y: nat)
    requires Flips(geo, d, d2, kind, g, x, false) && !InUse(geo, d, kind, g, x) && h < geo.groups
    requires y < Limit(geo, k, h) && y < 8 * geo.bs
    ensures FlagsOf(geo, d2, k, h)[y] == FlagsOf(geo, d, k, h)[y]
  {
    hide Volume, FlagsOf, Limit;
    assert FlipsIn(geo, d, d2, kind, g, x, false, k, h);
  }

  lemma IdleCount(geo: Geo, d: seq<byte>, d2: seq<byte>, kind: Kind, g: nat, x: nat, k: Kind, h: nat)
    requires Flips(geo, d, d2, kind, g, x, false) && !InUse(geo, d, kind, g, x) && h < geo.groups
    ensures FreeCount(geo, d2, k, h) == FreeCount(geo, d, k, h)
  {
    LimitBound(geo, k, h);
    hide FlagsOf, Limit, Flips, InUse, Shape, Layout, Sized;
    forall y: nat | y < Limit(geo, k, h) ensures FlagsOf(geo, d2, k, h)[y] == FlagsOf(geo, d, k, h)[y] {
      IdleFlags(geo, d, d2, kind, g, x, k, h, y);
    }
    assert FreeBits(geo, d2, k, h) == FreeBits(geo, d, k, h);
  }

  lemma {:induction false} IdleTotal(geo: Geo, d: seq<byte>, d2: seq<byte>, kind: Kind, g: nat, x: nat, k: Kind, n: nat)
    requires Flips(geo, d, d2, kind, g, x, false) && !InUse(geo, d, kind, g, x) && n <= geo.groups
    ensures Total(geo, d2, k, n) == Total(geo, d, k, n)
  {
    hide Flips, FlagsOf, FreeCount, Limit, InUse, Volume;
    assert Volume(geo, d) && Volume(geo, d2) by { FlipVolumes(geo, d, d2, kind, g, x, false); }
    if n > 0 {
      IdleTotal(geo, d, d2, kind, g, x, k, n - 1);
      IdleCount(geo, d, d2, kind, g, x, k, n - 1);
    }
  }

  lemma IdleMark(geo: Geo, d: seq<byte>, d2: seq<byte>, kind: Kind, g: nat, x: nat, k: Kind, m: nat)
    requires Flips(geo, d, d2, kind, g, x, false) && !InUse(geo, d, kind, g, x) && m < Items(geo, k)
    ensures SameMark(geo, d, d2, k, m)
  {
    hide Layout, FlagsOf, Limit, Sized, GroupOf, BitOf, Flips, InUse;
    assert Volume(geo, d) && Volume(geo, d2) by { FlipVolumes(geo, d, d2, kind, g, x, false); }
    ItemPlace(geo, k, m);
    LimitBound(geo, k, GroupOf(geo, k, m));
    IdleFlags(geo, d, d2, kind, g, x, k, GroupOf(geo, k, m), BitOf(geo, k, m));
  }

  /** Clearing a bit that is not that of an item in use, with the counts raised. */
  lemma IdleOvercounts(geo: Geo, d: seq<byte>, sup: seq<byte>, kind: Kind, g: nat, x: nat, desc2: seq<byte>,
                       sup2: seq<byte>)
    requires Accounts(geo, d, sup) && g < geo.groups && x < 8 * geo.bs && !InUse(geo, d, kind, g, x)
    requires |desc2| == DESC_SIZE && |sup2| == SUPER_SIZE
    requires Get32(sup2, TotalAt(kind)) == Get32(sup, TotalAt(kind)) + 1
    ensures Overcounted(geo, d, CountPut(geo, BitPut(geo, d, kind, g, x, false), g, desc2, sup2), sup2, kind)
  {
    hide Volume, CountPut, BitPut, Flips, Limit, Marked, Items, Shape, Layout, SameContents, Total, Get32, GroupOk, Reg,
      InUse, SameMark;
    var d2 := CountPut(geo, BitPut(geo, d, kind, g, x, false), g, desc2, sup2);
    FlippedFlags(geo, d, kind, g, x, false, desc2, sup2);
    FlippedContents(geo, d, kind, g, x, false, desc2, sup2);
    IdleTotal(geo, d, d2, kind, g, x, kind, geo.groups);
    forall k, m: nat | m < Items(geo, k) ensures SameMark(geo, d, d2, k, m) {
      IdleMark(geo, d, d2, kind, g, x, k, m);
    }
  }

  lemma {:induction false} TotalBound(geo: Geo, d: seq<byte>, kind: Kind, n: nat)
    requires Volume(geo, d) && n <= geo.groups
    ensures Total(geo, d, kind, n) <= Items(geo, kind) && Total(geo, d, kind, n) <= n * PerGroup(geo, kind)
  {
    hide Volume, FreeCount, PerGroup, Items;
    if n > 0 {
      TotalBound(geo, d, kind, n - 1);
      var t, c := Total(geo, d, kind, n - 1), FreeCount(geo, d, kind, n - 1);
      BoundStep(t, c, (n - 1) * PerGroup(geo, kind), PerGroup(geo, kind), Items(geo, kind));
      NextMultiple(n, PerGroup(geo, kind));
    }
  }

  lemma BoundStep(t: nat, c: nat, first: nat, per: nat, items: nat)
    requires t <= items && t <= first && c <= LimitOf(first, per, items)
    ensures t + c <= items && t + c <= first + per
  {
  }

  lemma NextMultiple(n: nat, per: nat)
    requires n > 0
    ensures n * per == (n - 1) * per + per
  {
  }

  // ---------------------------------------------------------------- full groups

  /** Every bit of the group from `start` on that stands for something is marked. */
  ghost predicate FullFrom(geo: Geo, d: seq<byte>, kind: Kind, g: nat, start: nat)
    requires Volume(geo, d) && g < geo.groups
  {
    forall y :: start <= y < Limit(geo, kind, g) && y < 8 * geo.bs ==> FlagsOf(geo, d, kind, g)[y]
  }

  /** A free count of zero means a full group. */
  lemma NoneFree(geo: Geo, d: seq<byte>, kind: Kind, g: nat, start: nat)
    requires Volume(geo, d) && g < geo.groups && FreeCount(geo, d, kind, g) == 0
    ensures FullFrom(geo, d, kind, g, start)
  {
    var free := FreeBits(geo, d, kind, g);
    hide FlagsOf, Limit, Volume;
    assert free == {};
    forall y | start <= y < Limit(geo, kind, g) && y < 8 * geo.bs ensures FlagsOf(geo, d, kind, g)[y] {
      assert y !in free;
    }
  }

  lemma FullMarked(geo: Geo, d: seq<byte>, kind: Kind, g: nat, start: nat, n: nat)
    requires Volume(geo, d) && g < geo.groups && FullFrom(geo, d, kind, g, start) && n < Items(geo, kind)
    requires GroupOf(geo, kind, n) == g && start <= BitOf(geo, kind, n)
    ensures Marked(geo, d, kind, n)
  {
    hide GroupOf, BitOf, Limit, FlagsOf, Layout;
    ItemPlace(geo, kind, n);
    LimitBound(geo, kind, g);
  }

  /** A smaller number is in an earlier group, or in the same one at a smaller bit. */
  lemma Smaller(geo: Geo, kind: Kind, g: nat, x: nat, n: nat)
    requires Shape(geo) && x < Limit(geo, kind, g) && n < ItemNo(geo, kind, g, x)
    ensures 0 < PerGroup(geo, kind)
    ensures GroupOf(geo, kind, n) < g || (GroupOf(geo, kind, n) == g && BitOf(geo, kind, n) < x)
  {
    LimitBound(geo, kind, g);
    SmallerQuotient(n, PerGroup(geo, kind), g, x);
  }

  lemma SmallerQuotient(n: nat, per: nat, g: nat, x: nat)
    requires 0 < per && x <= per && n < g * per + x
    ensures n / per < g || (n / per == g && n % per < x)
  {
    var h, y := n / per, n % per;
    assert n == h * per + y;
    if h > g {
      MulMonotone(g + 1, h, per);
      assert false;
    }
  }

  /** Where the search of a group starts: the reserved inodes at the beginning of the first group are skipped. */
  function FirstBit(geo: Geo, kind: Kind, g: nat): nat {
    if kind.Inodes? && g == 0 && geo.firstInode > 0 then geo.firstInode - 1 else 0
  }

  /** An item the search can reach. */
  predicate Eligible(geo: Geo, kind: Kind, n: nat)
    requires 0 < PerGroup(geo, kind)
  {
    FirstBit(geo, kind, GroupOf(geo, kind, n)) <= BitOf(geo, kind, n)
  }

  ghost predicate FullBefore(geo: Geo, d: seq<byte>, kind: Kind, g: nat) {
    Volume(geo, d) && g <= geo.groups && forall h: nat :: h < g ==> FullFrom(geo, d, kind, h, FirstBit(geo, kind, h))
  }

  /** All groups full: nothing the search can reach is free. */
  lemma AllFull(geo: Geo, d: seq<byte>, kind: Kind, n: nat)
    requires FullBefore(geo, d, kind, geo.groups) && n < Items(geo, kind)
    ensures 0 < PerGroup(geo, kind) && (Eligible(geo, kind, n) ==> Marked(geo, d, kind, n))
  {
    ItemPlace(geo, kind, n);
    hide Shape, Layout, GroupOf, BitOf, FullFrom, Marked;
    if Eligible(geo, kind, n) {
      FullMarked(geo, d, kind, GroupOf(geo, kind, n), FirstBit(geo, kind, GroupOf(geo, kind, n)), n);
    }
  }

  /** The search finds the lowest free item it can reach. */
  lemma Lowest(geo: Geo, d: seq<byte>, kind: Kind, g: nat, x: nat, n: nat)
    requires FullBefore(geo, d, kind, g) && g < geo.groups && x < Limit(geo, kind, g) && x < 8 * geo.bs
    requires n < ItemNo(geo, kind, g, x)
    requires forall y :: FirstBit(geo, kind, g) <= y < x ==> FlagsOf(geo, d, kind, g)[y]
    ensures 0 < PerGroup(geo, kind) && (Eligible(geo, kind, n) ==> Marked(geo, d, kind, n))
  {
    Smaller(geo, kind, g, x, n);
    ItemBack(geo, kind, g, x);
    hide Shape, Layout, GroupOf, BitOf, FullFrom, ItemNo, Limit, FlagsOf;
    if Eligible(geo, kind, n) && GroupOf(geo, kind, n) < g {
      FullMarked(geo, d, kind, GroupOf(geo, kind, n), FirstBit(geo, kind, GroupOf(geo, kind, n)), n);
    }
  }

  lemma BitItem(geo: Geo, d: seq<byte>, kind: Kind, g: nat, x: nat)
    requires Volume(geo, d) && g < geo.groups && x < Limit(geo, kind, g) && x < 8 * geo.bs
    ensures ItemNo(geo, kind, g, x) < Items(geo, kind)
    ensures Marked(geo, d, kind, ItemNo(geo, kind, g, x)) <==> FlagsOf(geo, d, kind, g)[x]
  {
    ItemBack(geo, kind, g, x);
  }

  // ---------------------------------------------------------------- totals are free items

  /** The free items among the first `m`. */
  ghost function FreeItems(geo: Geo, d: seq<byte>, kind: Kind, m: nat): set<nat>
    requires Volume(geo, d)
  {
    set n: nat | n < m && !Marked(geo, d, kind, n)
  }

  /** The first items that belong to the first `n` groups. */
  function UpTo(geo: Geo, kind: Kind, n: nat): nat {
    if n * PerGroup(geo, kind) < Items(geo, kind) then n * PerGroup(geo, kind) else Items(geo, kind)
  }

  ghost function Shift(s: set<nat>, o: nat): set<nat> {
    set x | x in s :: o + x
  }

  lemma ShiftIn(s: set<nat>, o: nat, y: nat)
    ensures y in Shift(s, o) <==> y >= o && y - o in s
  {
    if y >= o && y - o in s { assert o + (y - o) == y; }
  }

  lemma {:induction false} ShiftCount(s: set<nat>, o: nat)
    ensures |Shift(s, o)| == |s|
  {
    if s != {} {
      var y :| y in s;
      ShiftCount(s - {y}, o);
      forall z: nat ensures z in Shift(s, o) <==> z in Shift(s - {y}, o) + {o + y} {
        ShiftIn(s, o, z);
        ShiftIn(s - {y}, o, z);
      }
      ShiftIn(s - {y}, o, o + y);
      assert Shift(s, o) == Shift(s - {y}, o) + {o + y};
    } else {
      assert Shift(s, o) == {};
    }
  }

  lemma GroupItems(geo: Geo, d: seq<byte>, kind: Kind, g: nat)
    requires Volume(geo, d) && g < geo.groups
    ensures var a := FreeItems(geo, d, kind, UpTo(geo, kind, g));
            var c := Shift(FreeBits(geo, d, kind, g), g * PerGroup(geo, kind));
            a !! c && FreeItems(geo, d, kind, UpTo(geo, kind, g + 1)) == a + c
  {
    UpToNext(geo, kind, g);
    var first := g * PerGroup(geo, kind);
    var a, b := FreeItems(geo, d, kind, UpTo(geo, kind, g)), FreeItems(geo, d, kind, UpTo(geo, kind, g + 1));
    var c := Shift(FreeBits(geo, d, kind, g), first);
    forall n: nat ensures (n in b <==> n in a || n in c) && !(n in a && n in c) {
      ShiftIn(FreeBits(geo, d, kind, g), first, n);
      GroupItem(geo, d, kind, g, n);
    }
  }

  lemma UpToNext(geo: Geo, kind: Kind, g: nat)
    ensures UpTo(geo, kind, g + 1) == UpTo(geo, kind, g) + Limit(geo, kind, g)
    ensures UpTo(geo, kind, g) <= g * PerGroup(geo, kind)
    ensures Limit(geo, kind, g) > 0 ==> UpTo(geo, kind, g) == g * PerGroup(geo, kind)
  {
    NextMultiple(g + 1, PerGroup(geo, kind));
  }

  lemma GroupItem(geo: Geo, d: seq<byte>, kind: Kind, g: nat, n: nat)
    requires Volume(geo, d) && g < geo.groups
    ensures var first := g * PerGroup(geo, kind);
            && (first <= n < first + Limit(geo, kind, g) ==>
                  (Marked(geo, d, kind, n) <==> n - first !in FreeBits(geo, d, kind, g)))
            && (first <= n && n - first in FreeBits(geo, d, kind, g) ==> n < first + Limit(geo, kind, g))
  {
    LimitBound(geo, kind, g);
    var first := g * PerGroup(geo, kind);
    if first <= n < first + Limit(geo, kind, g) {
      BitItem(geo, d, kind, g, n - first);
    }
  }

  /** The total in the superblock counts exactly the free items. */
  lemma {:induction false} TotalIsFree(geo: Geo, d: seq<byte>, kind: Kind, n: nat)
    requires Volume(geo, d) && n <= geo.groups
    ensures Total(geo, d, kind, n) == |FreeItems(geo, d, kind, UpTo(geo, kind, n))|
  {
    hide Volume, FlagsOf, Limit, FreeBits, UpTo, FreeItems, Shift, PerGroup;
    if n == 0 {
      NoItems(geo, d, kind);
    } else {
      TotalIsFree(geo, d, kind, n - 1);
      GroupItems(geo, d, kind, n - 1);
      ShiftCount(FreeBits(geo, d, kind, n - 1), (n - 1) * PerGroup(geo, kind));
    }
  }

  lemma NoItems(geo: Geo, d: seq<byte>, kind: Kind)
    requires Volume(geo, d)
    ensures FreeItems(geo, d, kind, UpTo(geo, kind, 0)) == {}
  {
  }
}
