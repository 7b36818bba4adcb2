/**
 Allocating and freeing blocks and inodes (src/fs/ext2/ext2_alloc.c): bitmap search,
 bit updates and counter updates on the disk, through the bitmap and sector buffers only.
 */
module Ext2Alloc {
  import opened Bits
  import opened Words
  import opened Ext2Layout
  import opened Ext2Space
  import Io = Ext2Io

  // ---------------------------------------------------------------- descriptors, superblock, bitmaps

  lemma Ready(v: Io.Volume)
    requires v.Ready()
    ensures Volume(v.geo, v.disk) && |v.disk| % SECTOR == 0
  {
    Io.DiskInSectors(v);
  }

  /** read_group_desc. */
  method ReadGroupDesc(v: Io.Volume, g: nat) returns (desc: seq<byte>)
    requires v.Ready() && g < v.geo.groups
    modifies v.bufSector
    ensures desc == Reg(v.geo, v.disk, Desc(g)) && |desc| == DESC_SIZE
  {
    Ready(v);
    RegLen(v.geo, v.disk, Desc(g));
    var out := new byte[DESC_SIZE];
    hide Layout;
    Io.ReadAbs(v, v.geo.Bgdt() * v.geo.bs + g * DESC_SIZE, DESC_SIZE, out);
    desc := out[..];
    assert out[..] == out[..DESC_SIZE];
  }

  /** write_group_desc. */
  method WriteGroupDesc(v: Io.Volume, g: nat, desc: seq<byte>)
    requires v.Ready() && g < v.geo.groups && |desc| == DESC_SIZE
    modifies v`disk, v.bufSector
    ensures v.disk == Put(v.geo, old(v.disk), Desc(g), desc)
  {
    Ready(v);
    RegLen(v.geo, v.disk, Desc(g));
    hide Layout;
    Io.WriteAbs(v, v.geo.Bgdt() * v.geo.bs + g * DESC_SIZE, desc);
  }

  /** write_superblock. */
  method WriteSuperblock(v: Io.Volume)
    requires v.Ready()
    modifies v`disk, v.bufSector
    ensures v.disk == Put(v.geo, old(v.disk), Super, v.sup)
  {
    Ready(v);
    RegLen(v.geo, v.disk, Super);
    hide Layout;
    Io.WriteAbs(v, SUPER_OFFSET, v.sup);
  }

  function BitsBlock(geo: Geo, kind: Kind, g: nat): nat
    requires g < |geo.bb| && g < |geo.ib|
  {
    if kind.Blocks? then geo.bb[g] else geo.ib[g]
  }

  /** A bitmap is the whole block its descriptor names. */
  lemma BitsAreBlock(geo: Geo, d: seq<byte>, kind: Kind, g: nat)
    requires Volume(geo, d) && g < geo.groups
    ensures BitsBlock(geo, kind, g) < geo.blockCount
    ensures Reg(geo, d, Data(BitsBlock(geo, kind, g))) == Reg(geo, d, BitsOf(kind, g))
    ensures forall t :: Put(geo, d, Data(BitsBlock(geo, kind, g)), t) == Put(geo, d, BitsOf(kind, g), t)
  {
    RegLen(geo, d, BitsOf(kind, g));
    if BitsBlock(geo, kind, g) >= geo.blockCount {
      MulMonotone(geo.blockCount, BitsBlock(geo, kind, g), geo.bs);
      assert false;
    }
  }

  /** read_block_bitmap, read_inode_bitmap. */
  method ReadBitmap(v: Io.Volume, kind: Kind, g: nat)
    requires v.Ready() && g < v.geo.groups && GroupOk(v.geo, v.disk, g)
    modifies v.bufBitmap, v.bufSector
    ensures v.bufBitmap[..] == Reg(v.geo, v.disk, BitsOf(kind, g))
  {
    var desc := ReadGroupDesc(v, g);
    BitsAreBlock(v.geo, v.disk, kind, g);
    hide Layout;
    Io.ReadBlock(v, Get32(desc, if kind.Blocks? then 0 else 4), v.bufBitmap);
  }

  /** write_block_bitmap, write_inode_bitmap. */
  method WriteBitmap(v: Io.Volume, kind: Kind, g: nat)
    requires v.Ready() && g < v.geo.groups && GroupOk(v.geo, v.disk, g)
    modifies v`disk, v.bufSector
    ensures v.disk == Put(v.geo, old(v.disk), BitsOf(kind, g), v.bufBitmap[..])
  {
    var desc := ReadGroupDesc(v, g);
    BitsAreBlock(v.geo, v.disk, kind, g);
    hide Layout;
    Io.WriteBlock(v, Get32(desc, if kind.Blocks? then 0 else 4), v.bufBitmap);
  }

  /** bitmap_set. */
  method BitmapSet(bitmap: array<byte>, x: nat, value: bool)
    requires x < 8 * bitmap.Length
    modifies bitmap
    ensures bitmap[..] == SetBit(old(bitmap[..]), x, value)
  {
    bitmap[x / 8] := ByteWithBit(bitmap[x / 8], x % 8, value);
  }

  /** bitmap_find_free: the first clear bit in [start, limit). */
  method FindFree(bitmap: array<byte>, limit: nat, start: nat) returns (ok: bool, x: nat)
    requires limit <= 8 * bitmap.Length
    ensures ok ==> start <= x < limit && !Flags(bitmap[..])[x] && forall y :: start <= y < x ==> Flags(bitmap[..])[y]
    ensures !ok ==> forall y :: start <= y < limit ==> Flags(bitmap[..])[y]
  {
    ok, x := false, start;
    while x < limit
      invariant start <= x && (x <= limit || x == start)
      invariant forall y :: start <= y < x && y < limit ==> Flags(bitmap[..])[y]
    {
      FlagsAt(bitmap[..], x);
      if !Bit(bitmap[..], x) {
        return true, x;
      }
      x := x + 1;
    }
  }

  // ---------------------------------------------------------------- counts

  function Signed(x: nat): int {
    if x >= LIMIT31 then x - LIMIT32 else x
  }

  function AdjustedDesc(desc: seq<byte>, db: int, di: int, du: int): (r: seq<byte>)
    requires |desc| == DESC_SIZE
    ensures |r| == DESC_SIZE
  {
    CountedDesc(desc, (Get16(desc, 12) + db) % LIMIT16, (Get16(desc, 14) + di) % LIMIT16,
                (Get16(desc, 16) + du) % LIMIT16)
  }

  function AdjustedSuper(sup: seq<byte>, db: int, di: int): (r: seq<byte>)
    requires |sup| == SUPER_SIZE
    ensures |r| == SUPER_SIZE
  {
    CountedSuper(sup, (Get32(sup, 12) + db) % LIMIT32, (Get32(sup, 16) + di) % LIMIT32)
  }

  /** With the counts as the accounts have them, marking or clearing a bit recounts exactly. */
  lemma AdjustedRecounts(geo: Geo, d: seq<byte>, sup: seq<byte>, kind: Kind, g: nat, x: nat, v: bool)
    requires Accounts(geo, d, sup) && g < geo.groups && x < Limit(geo, kind, g) && x < 8 * geo.bs
    requires FlagsOf(geo, d, kind, g)[x] == !v
    ensures var db, di := Delta(kind, Blocks, v), Delta(kind, Inodes, v);
            && Countable(DescOf(geo, d, g), sup, db, di, 0)
            && Recounted(geo, d, sup, kind, g, v, AdjustedDesc(DescOf(geo, d, g), db, di, 0),
                         AdjustedSuper(sup, db, di))
  {
    hide Accounts, Volume, Get16, Get32, FlagsOf, Limit, CountedDesc, CountedSuper, DescOf;
    var db, di := Delta(kind, Blocks, v), Delta(kind, Inodes, v);
    CountRoom(geo, d, sup, kind, g, x, v, Blocks);
    CountRoom(geo, d, sup, kind, g, x, v, Inodes);
    AccountsGive(geo, d, sup, g, kind);
    var desc := DescOf(geo, d, g);
    CountedDescIs(desc, Get16(desc, 12) + db, Get16(desc, 14) + di, Get16(desc, 16));
    CountedSuperIs(sup, Get32(sup, 12) + db, Get32(sup, 16) + di);
    CountedBytes(desc, Get16(desc, 12) + db, Get16(desc, 14) + di);
    SuperBytes(sup, Get32(sup, 12) + db, Get32(sup, 16) + di);
    assert RecountedKind(desc, sup, kind, Blocks, v, AdjustedDesc(desc, db, di, 0), AdjustedSuper(sup, db, di));
    assert RecountedKind(desc, sup, kind, Inodes, v, AdjustedDesc(desc, db, di, 0), AdjustedSuper(sup, db, di));
  }

  lemma CountedBytes(desc: seq<byte>, blocks: nat, inodes: nat)
    requires |desc| == DESC_SIZE && blocks < LIMIT16 && inodes < LIMIT16
    ensures BytesSame(desc, CountedDesc(desc, blocks, inodes, Get16(desc, 16)), 12, 16)
  {
    hide Get16;
    var r := Put16(Put16(desc, 12, blocks), 14, inodes);
    Put16Elsewhere(desc, 12, blocks, 16);
    Put16Elsewhere(Put16(desc, 12, blocks), 14, inodes, 16);
    Put16Same(r, 16);
  }

  lemma SuperBytes(sup: seq<byte>, blocks: nat, inodes: nat)
    requires |sup| == SUPER_SIZE && blocks < LIMIT32 && inodes < LIMIT32
    ensures BytesSame(sup, CountedSuper(sup, blocks, inodes), 12, 20)
  {
  }

  /** What the accounts say of one group and one kind. */
  lemma AccountsGive(geo: Geo, d: seq<byte>, sup: seq<byte>, g: nat, k: Kind)
    requires Accounts(geo, d, sup) && g < geo.groups
    ensures Volume(geo, d) && |sup| == SUPER_SIZE && GroupOk(geo, d, g)
    ensures Get16(DescOf(geo, d, g), CountAt(k)) == FreeCount(geo, d, k, g)
    ensures Get32(sup, TotalAt(k)) == Total(geo, d, k, geo.groups)
  {
    hide Volume, FreeCount, Total, Get16, Get32, DescOf, Reg;
    assert GroupOk(geo, d, g);
  }

  lemma ItemsBound(geo: Geo, k: Kind)
    requires Shape(geo)
    ensures Items(geo, k) < LIMIT31 - 1
  {
    MulMonotone(1024, geo.bs, geo.blockCount);
    assert geo.blockCount * geo.bs == geo.bs * geo.blockCount;
  }

  lemma CountRoom(geo: Geo, d: seq<byte>, sup: seq<byte>, kind: Kind, g: nat, x: nat, v: bool, k: Kind)
    requires Accounts(geo, d, sup) && g < geo.groups && x < Limit(geo, kind, g) && x < 8 * geo.bs
    requires FlagsOf(geo, d, kind, g)[x] == !v
    ensures |sup| == SUPER_SIZE
    ensures 0 <= Get16(DescOf(geo, d, g), CountAt(k)) + Delta(kind, k, v) < LIMIT16
    ensures 0 <= Get32(sup, TotalAt(k)) + Delta(kind, k, v) && Get32(sup, TotalAt(k)) < LIMIT31 - 1
  {
    hide Accounts, FlagsOf, Limit, Get16, Get32, DescOf, FreeCount, Total, Layout;
    AccountsGive(geo, d, sup, g, k);
    TotalBound(geo, d, k, geo.groups);
    ItemsBound(geo, k);
    TotalCovers(geo, d, k, g, geo.groups);
    if k == kind && v {
      FreeCounted(geo, d, kind, g, x);
    }
  }

  lemma FreeCounted(geo: Geo, d: seq<byte>, kind: Kind, g: nat, x: nat)
    requires Volume(geo, d) && g < geo.groups && x < Limit(geo, kind, g) && x < 8 * geo.bs
    requires !FlagsOf(geo, d, kind, g)[x]
    ensures FreeCount(geo, d, kind, g) > 0
  {
    hide FlagsOf, Limit, Volume;
    assert x in FreeBits(geo, d, kind, g);
  }

  lemma {:induction false} TotalCovers(geo: Geo, d: seq<byte>, kind: Kind, g: nat, n: nat)
    requires Volume(geo, d) && g < n <= geo.groups
    ensures FreeCount(geo, d, kind, g) <= Total(geo, d, kind, n)
  {
    hide Volume, FreeCount;
    if g < n - 1 {
      TotalCovers(geo, d, kind, g, n - 1);
    }
  }

  /** No count would become negative. */
  predicate Countable(desc: seq<byte>, sup: seq<byte>, db: int, di: int, du: int)
    requires |desc| == DESC_SIZE && |sup| == SUPER_SIZE
  {
    && 0 <= Get16(desc, 12) + db && 0 <= Get16(desc, 14) + di && 0 <= Get16(desc, 16) + du
    && 0 <= Signed(Get32(sup, 12)) + db && 0 <= Signed(Get32(sup, 16)) + di
  }

  /** update_group_and_super_counts. */
  method UpdateCounts(v: Io.Volume, g: nat, db: int, di: int, du: int) returns (ok: bool)
    requires v.Ready() && g < v.geo.groups && -1 <= db <= 1 && -1 <= di <= 1 && -1 <= du <= 1
    modifies v`disk, v`sup, v.bufSector
    ensures v.Ready()
    ensures ok <==> Countable(DescOf(v.geo, old(v.disk), g), old(v.sup), db, di, du)
    ensures !ok ==> v.disk == old(v.disk) && v.sup == old(v.sup)
    ensures ok ==> v.sup == AdjustedSuper(old(v.sup), db, di)
    ensures ok ==>
              v.disk == CountPut(v.geo, old(v.disk), g, AdjustedDesc(DescOf(v.geo, old(v.disk), g), db, di, du), v.sup)
  {
    var desc := ReadGroupDesc(v, g);
    hide Shape, Layout, Get16, Get32, AdjustedDesc, AdjustedSuper, Put;
    var blocks, inodes, dirs := Get16(desc, 12) + db, Get16(desc, 14) + di, Get16(desc, 16) + du;
    if blocks < 0 || inodes < 0 || dirs < 0 {
      return false;
    }
    var totalBlocks, totalInodes := Signed(Get32(v.sup, 12)) + db, Signed(Get32(v.sup, 16)) + di;
    if totalBlocks < 0 || totalInodes < 0 {
      return false;
    }
    v.sup := AdjustedSuper(v.sup, db, di);
    WriteGroupDesc(v, g, AdjustedDesc(desc, db, di, du));
    WriteSuperblock(v);
    return true;
  }

  // ---------------------------------------------------------------- allocation

  /** bitmap_set, write the bitmap back, adjust the counts: the common end of allocating and freeing. */
  method Turn(v: Io.Volume, kind: Kind, g: nat, x: nat, value: bool) returns (ok: bool)
    requires v.Ready() && Accounts(v.geo, v.disk, v.sup)
    requires g < v.geo.groups && x < Limit(v.geo, kind, g) && x < 8 * v.geo.bs
    requires FlagsOf(v.geo, v.disk, kind, g)[x] == !value
    requires v.bufBitmap[..] == Reg(v.geo, v.disk, BitsOf(kind, g))
    modifies v`disk, v`sup, v.bufBitmap, v.bufSector
    ensures ok && v.Ready() && Accounts(v.geo, v.disk, v.sup)
    ensures Turned(v.geo, old(v.disk), v.disk, kind, ItemNo(v.geo, kind, g, x), value)
  {
    hide Accounts, Volume, Layout, Shape, Reg, Limit, FlagsOf, GroupOk, Turned, Countable, CountPut, BitPut, Delta,
      DescOf, ItemNo;
    hide AfterDesc, AfterSuper, SetBit;
    ghost var d, sup := v.disk, v.sup;
    TurnPlan(v.geo, d, sup, kind, g, x, value);
    BitmapSet(v.bufBitmap, x, value);
    WriteBitmap(v, kind, g);
    ok := UpdateCounts(v, g, Delta(kind, Blocks, value), Delta(kind, Inodes, value), 0);
  }

  ghost function AfterDesc(geo: Geo, d: seq<byte>, kind: Kind, g: nat, v: bool): seq<byte>
    requires Volume(geo, d) && g < geo.groups
  {
    AdjustedDesc(DescOf(geo, d, g), Delta(kind, Blocks, v), Delta(kind, Inodes, v), 0)
  }

  ghost function AfterSuper(sup: seq<byte>, kind: Kind, v: bool): seq<byte>
    requires |sup| == SUPER_SIZE
  {
    AdjustedSuper(sup, Delta(kind, Blocks, v), Delta(kind, Inodes, v))
  }

  /** What turning a bit comes to. */
  lemma TurnPlan(geo: Geo, d: seq<byte>, sup: seq<byte>, kind: Kind, g: nat, x: nat, v: bool)
    requires Accounts(geo, d, sup) && g < geo.groups && x < Limit(geo, kind, g) && x < 8 * geo.bs
    requires FlagsOf(geo, d, kind, g)[x] == !v
    ensures Volume(geo, d) && |sup| == SUPER_SIZE && GroupOk(geo, d, g)
    ensures -1 <= Delta(kind, Blocks, v) <= 1 && -1 <= Delta(kind, Inodes, v) <= 1
    ensures var d1 := BitPut(geo, d, kind, g, x, v); var sup2 := AfterSuper(sup, kind, v);
            var d3 := CountPut(geo, d1, g, AfterDesc(geo, d, kind, g, v), sup2);
            && d1 == Put(geo, d, BitsOf(kind, g), SetBit(Reg(geo, d, BitsOf(kind, g)), x, v))
            && DescOf(geo, d1, g) == DescOf(geo, d, g)
            && Countable(DescOf(geo, d, g), sup, Delta(kind, Blocks, v), Delta(kind, Inodes, v), 0)
            && AfterDesc(geo, d, kind, g, v)
                 == AdjustedDesc(DescOf(geo, d, g), Delta(kind, Blocks, v), Delta(kind, Inodes, v), 0)
            && sup2 == AdjustedSuper(sup, Delta(kind, Blocks, v), Delta(kind, Inodes, v))
            && Accounts(geo, d3, sup2) && Turned(geo, d, d3, kind, ItemNo(geo, kind, g, x), v)
  {
    hide Accounts, Layout, Shape, Limit, FlagsOf, GroupOk, Turned, Countable, CountPut, Recounted, AdjustedDesc,
      AdjustedSuper, Sized, ItemNo;
    AccountsGive(geo, d, sup, g, kind);
    AdjustedRecounts(geo, d, sup, kind, g, x, v);
    FlipAccounts(geo, d, sup, kind, g, x, v, AfterDesc(geo, d, kind, g, v), AfterSuper(sup, kind, v));
    RecountedBytes(geo, d, sup, kind, g, v, AfterDesc(geo, d, kind, g, v), AfterSuper(sup, kind, v));
    FlippedTurned(geo, d, kind, g, x, v, AfterDesc(geo, d, kind, g, v), AfterSuper(sup, kind, v));
    BitDesc(geo, d, kind, g, x, v);
  }

  lemma RecountedBytes(geo: Geo, d: seq<byte>, sup: seq<byte>, kind: Kind, g: nat, v: bool, desc2: seq<byte>,
                       sup2: seq<byte>)
    requires Accounts(geo, d, sup) && g < geo.groups && Volume(geo, d)
    requires Recounted(geo, d, sup, kind, g, v, desc2, sup2)
    ensures BytesSame(DescOf(geo, d, g), desc2, 12, 16) && BytesSame(Reg(geo, d, Super), sup2, 12, 20)
  {
    hide GroupOk, Total, Get16, Get32, DescOf;
  }

  /** Writing a bitmap leaves the descriptors alone. */
  lemma BitDesc(geo: Geo, d: seq<byte>, kind: Kind, g: nat, x: nat, v: bool)
    requires Volume(geo, d) && g < geo.groups && x < 8 * geo.bs
    ensures DescOf(geo, BitPut(geo, d, kind, g, x, v), g) == DescOf(geo, d, g)
  {
    hide Layout, IsData;
    RegLen(geo, d, BitsOf(kind, g));
    PutReg(geo, d, BitsOf(kind, g), SetBit(Reg(geo, d, BitsOf(kind, g)), x, v), Desc(g));
  }

  /** The search of one group's bitmap, as alloc_block and alloc_inode limit it. */
  method SearchGroup(v: Io.Volume, kind: Kind, g: nat) returns (found: bool, x: nat)
    requires v.Ready() && g < v.geo.groups && v.bufBitmap[..] == Reg(v.geo, v.disk, BitsOf(kind, g))
    ensures found ==> FirstBit(v.geo, kind, g) <= x < Limit(v.geo, kind, g) && x < 8 * v.geo.bs
    ensures found ==> !FlagsOf(v.geo, v.disk, kind, g)[x]
    ensures found ==> forall y :: FirstBit(v.geo, kind, g) <= y < x ==> FlagsOf(v.geo, v.disk, kind, g)[y]
    ensures !found ==> FullFrom(v.geo, v.disk, kind, g, FirstBit(v.geo, kind, g))
  {
    LimitBound(v.geo, kind, g);
    hide Layout, Reg, Limit, Shape;
    var limit := GroupLimit(v.geo, kind, g);
    found, x := FindFree(v.bufBitmap, limit, FirstBit(v.geo, kind, g));
    ghost var flags := FlagsOf(v.geo, v.disk, kind, g);
    assert flags == Flags(v.bufBitmap[..]);
    if !found {
      forall y | FirstBit(v.geo, kind, g) <= y < Limit(v.geo, kind, g) && y < 8 * v.geo.bs ensures flags[y] {
      }
    }
  }

  /** The number of bits alloc_block and alloc_inode look at: only the last group can be short. */
  method GroupLimit(geo: Geo, kind: Kind, g: nat) returns (limit: nat)
    requires Shape(geo) && g < geo.groups
    ensures limit == Limit(geo, kind, g)
  {
    limit := PerGroup(geo, kind);
    var first := g * PerGroup(geo, kind);
    hide Shape;
    if kind.Blocks? {
      var start := geo.firstData + first;
      if start >= geo.blockCount {
        limit := 0;
      } else if start + limit > geo.blockCount {
        limit := geo.blockCount - start;
      }
    } else {
      InnerGroup(geo, kind, g);
      if g == geo.groups - 1 && geo.inodeCount - first < limit {
        limit := geo.inodeCount - first;
      }
    }
  }

  lemma InnerGroup(geo: Geo, kind: Kind, g: nat)
    requires Shape(geo) && g < geo.groups
    ensures g * PerGroup(geo, kind) < Items(geo, kind)
    ensures g < geo.groups - 1 ==> g * PerGroup(geo, kind) + PerGroup(geo, kind) <= Items(geo, kind)
  {
    assert Grouped(geo, kind);
    hide Shape;
    MulMonotone(g, geo.groups - 1, PerGroup(geo, kind));
    if g < geo.groups - 1 {
      MulMonotone(g + 1, geo.groups - 1, PerGroup(geo, kind));
      NextMultiple(g + 1, PerGroup(geo, kind));
    }
  }

  /** alloc_block: the lowest free block, unless there is none. */
  method AllocBlock(v: Io.Volume) returns (ok: bool, b: nat)
    requires v.Ready() && Accounts(v.geo, v.disk, v.sup)
    modifies v`disk, v`sup, v.bufBitmap, v.bufSector
    ensures v.Ready() && Accounts(v.geo, v.disk, v.sup)
    ensures ok ==> v.geo.firstData <= b < v.geo.blockCount && !Marked(v.geo, old(v.disk), Blocks, b - v.geo.firstData)
    ensures ok ==> Turned(v.geo, old(v.disk), v.disk, Blocks, b - v.geo.firstData, true)
    ensures ok ==> forall n: nat :: n < b - v.geo.firstData ==> Marked(v.geo, old(v.disk), Blocks, n)
    ensures !ok ==> v.disk == old(v.disk) && v.sup == old(v.sup)
    ensures !ok ==> forall n: nat :: n < Items(v.geo, Blocks) ==> Marked(v.geo, v.disk, Blocks, n)
  {
    hide Accounts, Turned;
    var n;
    ok, n := AllocItem(v, Blocks);
    b := v.geo.firstData + n;
    hide Shape, Layout, Marked;
  }

  /** alloc_inode: the lowest free inode that is not reserved in the first group, unless there is none. */
  method AllocInode(v: Io.Volume) returns (ok: bool, i: nat)
    requires v.Ready() && Accounts(v.geo, v.disk, v.sup)
    modifies v`disk, v`sup, v.bufBitmap, v.bufSector
    ensures v.Ready() && Accounts(v.geo, v.disk, v.sup)
    ensures ok ==>
              0 < i <= v.geo.inodeCount && Eligible(v.geo, Inodes, i - 1) && !Marked(v.geo, old(v.disk), Inodes, i - 1)
    ensures ok ==> Turned(v.geo, old(v.disk), v.disk, Inodes, i - 1, true)
    ensures ok ==> forall n: nat :: n < i - 1 && Eligible(v.geo, Inodes, n) ==> Marked(v.geo, old(v.disk), Inodes, n)
    ensures !ok ==> v.disk == old(v.disk) && v.sup == old(v.sup)
    ensures !ok ==> forall n: nat :: n < Items(v.geo, Inodes) && Eligible(v.geo, Inodes, n) ==>
              Marked(v.geo, v.disk, Inodes, n)
  {
    hide Accounts, Turned;
    var n;
    ok, n := AllocItem(v, Inodes);
    i := n + 1;
    hide Shape, Layout, Marked, Eligible;
  }

  /** The loop over the groups that both allocators make. */
  method AllocItem(v: Io.Volume, kind: Kind) returns (ok: bool, n: nat)
    requires v.Ready() && Accounts(v.geo, v.disk, v.sup)
    modifies v`disk, v`sup, v.bufBitmap, v.bufSector
    ensures v.Ready() && Accounts(v.geo, v.disk, v.sup)
    ensures ok ==> n < Items(v.geo, kind) && Eligible(v.geo, kind, n) && !Marked(v.geo, old(v.disk), kind, n)
    ensures ok ==> Turned(v.geo, old(v.disk), v.disk, kind, n, true)
    ensures ok ==> forall m: nat :: m < n && Eligible(v.geo, kind, m) ==> Marked(v.geo, old(v.disk), kind, m)
    ensures !ok ==> v.disk == old(v.disk) && v.sup == old(v.sup)
    ensures !ok ==> forall m: nat :: m < Items(v.geo, kind) && Eligible(v.geo, kind, m) ==>
              Marked(v.geo, v.disk, kind, m)
  {
    hide Accounts, Layout, GroupOk, FlagsOf, FreeCount, Turned, Get16, Reg, FullFrom, Limit, Marked, Eligible, ItemNo;
    ok, n := false, 0;
    ghost var d := v.disk;
    var g := 0;
    while g < v.geo.groups
      invariant g <= v.geo.groups && v.Ready() && v.disk == d && v.sup == old(v.sup) && Accounts(v.geo, v.disk, v.sup)
      invariant FullBefore(v.geo, d, kind, g)
    {
      var desc := ReadGroupDesc(v, g);
      AccountsGive(v.geo, d, v.sup, g, kind);
      if Get16(desc, CountAt(kind)) == 0 {
        NoneFree(v.geo, d, kind, g, FirstBit(v.geo, kind, g));
      } else {
        ReadBitmap(v, kind, g);
        var found, x := SearchGroup(v, kind, g);
        if found {
          Found(v.geo, d, kind, g, x);
          var _ := Turn(v, kind, g, x, true);
          return true, ItemNo(v.geo, kind, g, x);
        }
      }
      g := g + 1;
    }
    forall m: nat | m < Items(v.geo, kind) && Eligible(v.geo, kind, m) ensures Marked(v.geo, d, kind, m) {
      AllFull(v.geo, d, kind, m);
    }
  }

  lemma Found(geo: Geo, d: seq<byte>, kind: Kind, g: nat, x: nat)
    requires FullBefore(geo, d, kind, g) && g < geo.groups && FirstBit(geo, kind, g) <= x < Limit(geo, kind, g)
    requires x < 8 * geo.bs
    requires !FlagsOf(geo, d, kind, g)[x] && forall y :: FirstBit(geo, kind, g) <= y < x ==> FlagsOf(geo, d, kind, g)[y]
    ensures var n := ItemNo(geo, kind, g, x);
            && 0 < PerGroup(geo, kind) && n < Items(geo, kind) && Eligible(geo, kind, n) && !Marked(geo, d, kind, n)
            && forall m: nat :: m < n && Eligible(geo, kind, m) ==> Marked(geo, d, kind, m)
  {
    BitItem(geo, d, kind, g, x);
    ItemBack(geo, kind, g, x);
    var n := ItemNo(geo, kind, g, x);
    forall m: nat | m < n && Eligible(geo, kind, m) ensures Marked(geo, d, kind, m) {
      Lowest(geo, d, kind, g, x, m);
    }
  }

  // ---------------------------------------------------------------- freeing

  lemma TotalSmall(geo: Geo, d: seq<byte>, sup: seq<byte>, k: Kind)
    requires Accounts(geo, d, sup)
    ensures Volume(geo, d) && |sup| == SUPER_SIZE && Get32(sup, TotalAt(k)) < LIMIT31 - 1
  {
    hide Layout, Sized, Get32, Total, GroupOk, Reg;
    TotalBound(geo, d, k, geo.groups);
    ItemsBound(geo, k);
  }

  /** What the accounts allow: a count can always go up. */
  lemma CountableUp(geo: Geo, d: seq<byte>, sup: seq<byte>, kind: Kind, g: nat)
    requires Accounts(geo, d, sup) && g < geo.groups
    ensures Volume(geo, d) && |sup| == SUPER_SIZE
    ensures Countable(DescOf(geo, d, g), sup, Delta(kind, Blocks, false), Delta(kind, Inodes, false), 0)
    ensures Get32(AfterSuper(sup, kind, false), TotalAt(kind)) == Get32(sup, TotalAt(kind)) + 1
  {
    hide Accounts, Volume, Get16, Get32, DescOf, CountedSuper;
    TotalSmall(geo, d, sup, Blocks);
    TotalSmall(geo, d, sup, Inodes);
    CountedSuperIs(sup, Get32(sup, 12) + Delta(kind, Blocks, false), Get32(sup, 16) + Delta(kind, Inodes, false));
  }

  /** The disk after a bit is cleared and the counts are raised. */
  ghost function Freed(geo: Geo, d: seq<byte>, sup: seq<byte>, kind: Kind, g: nat, x: nat): seq<byte>
    requires Volume(geo, d) && g < geo.groups && x < 8 * geo.bs && |sup| == SUPER_SIZE
  {
    CountPut(geo, BitPut(geo, d, kind, g, x, false), g, AfterDesc(geo, d, kind, g, false), AfterSuper(sup, kind, false))
  }

  /** What freeing comes to: right for an item in use, and one too many otherwise. */
  ghost predicate FreedAs(geo: Geo, d: seq<byte>, d2: seq<byte>, sup2: seq<byte>, kind: Kind, g: nat, x: nat) {
    && Volume(geo, d) && g < geo.groups && x < 8 * geo.bs
    && if InUse(geo, d, kind, g, x)
       then Accounts(geo, d2, sup2) && Turned(geo, d, d2, kind, ItemNo(geo, kind, g, x), false)
       else Overcounted(geo, d, d2, sup2, kind)
  }

  lemma FreedIs(geo: Geo, d: seq<byte>, sup: seq<byte>, kind: Kind, g: nat, x: nat)
    requires Accounts(geo, d, sup) && g < geo.groups && x < 8 * geo.bs && Volume(geo, d) && |sup| == SUPER_SIZE
    ensures FreedAs(geo, d, Freed(geo, d, sup, kind, g, x), AfterSuper(sup, kind, false), kind, g, x)
  {
    hide Accounts, Layout, Shape, Limit, FlagsOf, GroupOk, Turned, Countable, CountPut, AdjustedDesc, AdjustedSuper,
      Sized, ItemNo, Overcounted, Get32;
    if InUse(geo, d, kind, g, x) {
      TurnPlan(geo, d, sup, kind, g, x, false);
    } else {
      CountableUp(geo, d, sup, kind, g);
      IdleOvercounts(geo, d, sup, kind, g, x, AfterDesc(geo, d, kind, g, false), AfterSuper(sup, kind, false));
    }
  }

  /** Clear bit `x`, raise the counts. */
  method ClearBit(v: Io.Volume, kind: Kind, g: nat, x: nat) returns (ok: bool)
    requires v.Ready() && Accounts(v.geo, v.disk, v.sup) && g < v.geo.groups && x < 8 * v.geo.bs
    requires v.bufBitmap[..] == Reg(v.geo, v.disk, BitsOf(kind, g))
    modifies v`disk, v`sup, v.bufBitmap, v.bufSector
    ensures ok && v.Ready() && FreedAs(v.geo, old(v.disk), v.disk, v.sup, kind, g, x)
  {
    hide Accounts, Layout, Shape, Reg, GroupOk, Countable, CountPut, DescOf, FreedAs, SetBit, Get32;
    ghost var d, sup := v.disk, v.sup;
    AccountsGive(v.geo, d, sup, g, kind);
    CountableUp(v.geo, d, sup, kind, g);
    FreedIs(v.geo, d, sup, kind, g, x);
    BitDesc(v.geo, d, kind, g, x, false);
    BitmapSet(v.bufBitmap, x, false);
    WriteBitmap(v, kind, g);
    ok := UpdateCounts(v, g, Delta(kind, Blocks, false), Delta(kind, Inodes, false), 0);
  }

  /** Item `n` of the volume is in use. */
  ghost predicate Taken(geo: Geo, d: seq<byte>, kind: Kind, n: nat)
    requires Volume(geo, d)
  {
    n < Items(geo, kind) && Marked(geo, d, kind, n)
  }

  /** What freeing item `n` leaves. */
  ghost predicate FreedItem(geo: Geo, d: seq<byte>, d2: seq<byte>, sup2: seq<byte>, kind: Kind, n: nat)
    requires Volume(geo, d)
  {
    if Taken(geo, d, kind, n)
    then Accounts(geo, d2, sup2) && Turned(geo, d, d2, kind, n, false)
    else !Accounts(geo, d2, sup2) && Overcounted(geo, d, d2, sup2, kind)
  }

  lemma FreedItemIs(geo: Geo, d: seq<byte>, d2: seq<byte>, sup2: seq<byte>, kind: Kind, n: nat)
    requires Volume(geo, d) && GroupOf(geo, kind, n) < geo.groups && BitOf(geo, kind, n) < 8 * geo.bs
    requires FreedAs(geo, d, d2, sup2, kind, GroupOf(geo, kind, n), BitOf(geo, kind, n))
    ensures FreedItem(geo, d, d2, sup2, kind, n)
  {
    hide Accounts, Layout, FlagsOf, Turned, Overcounted, Items, Limit, ItemNo, GroupOf, BitOf;
    var g, x := GroupOf(geo, kind, n), BitOf(geo, kind, n);
    if n < Items(geo, kind) {
      ItemPlace(geo, kind, n);
    } else {
      PastItems(geo, kind, n);
    }
    if !InUse(geo, d, kind, g, x) {
      OvercountedBreaks(geo, d, d2, sup2, kind);
    }
  }

  lemma PastItems(geo: Geo, kind: Kind, n: nat)
    requires Shape(geo) && n >= Items(geo, kind) && 0 < PerGroup(geo, kind)
    ensures BitOf(geo, kind, n) >= Limit(geo, kind, GroupOf(geo, kind, n))
  {
    var per := PerGroup(geo, kind);
    var g, x := n / per, n % per;
    assert g * per + x == n;
  }

  /**
   free_block: a number outside every group is refused.  The accounts stay right if and only if
   the number is refused or that of a block in use.
   */
  method FreeBlock(v: Io.Volume, b: nat) returns (ok: bool)
    requires v.Ready() && Accounts(v.geo, v.disk, v.sup)
    modifies v`disk, v`sup, v.bufBitmap, v.bufSector
    ensures v.Ready()
    ensures ok <==> v.geo.firstData <= b && GroupOf(v.geo, Blocks, b - v.geo.firstData) < v.geo.groups
    ensures ok ==> FreedItem(v.geo, old(v.disk), v.disk, v.sup, Blocks, b - v.geo.firstData)
    ensures !ok ==> v.disk == old(v.disk) && v.sup == old(v.sup)
  {
    hide Accounts, Layout, FreedItem, GroupOf;
    if b < v.geo.firstData {
      return false;
    }
    ok := FreeItem(v, Blocks, b - v.geo.firstData);
  }

  /** free_inode, likewise; number zero is refused too. */
  method FreeInode(v: Io.Volume, i: nat) returns (ok: bool)
    requires v.Ready() && Accounts(v.geo, v.disk, v.sup)
    modifies v`disk, v`sup, v.bufBitmap, v.bufSector
    ensures v.Ready()
    ensures ok <==> 0 < i && GroupOf(v.geo, Inodes, i - 1) < v.geo.groups
    ensures ok ==> FreedItem(v.geo, old(v.disk), v.disk, v.sup, Inodes, i - 1)
    ensures !ok ==> v.disk == old(v.disk) && v.sup == old(v.sup)
  {
    hide Accounts, Layout, FreedItem, GroupOf;
    if i == 0 {
      return false;
    }
    ok := FreeItem(v, Inodes, i - 1);
  }

  /** The part free_block and free_inode share: decompose the number, clear its bit, raise the counts. */
  method FreeItem(v: Io.Volume, kind: Kind, n: nat) returns (ok: bool)
    requires v.Ready() && Accounts(v.geo, v.disk, v.sup)
    modifies v`disk, v`sup, v.bufBitmap, v.bufSector
    ensures v.Ready() && (ok <==> GroupOf(v.geo, kind, n) < v.geo.groups)
    ensures ok ==> FreedItem(v.geo, old(v.disk), v.disk, v.sup, kind, n)
    ensures !ok ==> v.disk == old(v.disk) && v.sup == old(v.sup)
  {
    var g, x := GroupOf(v.geo, kind, n), BitOf(v.geo, kind, n);
    if g >= v.geo.groups {
      return false;
    }
    LimitBound(v.geo, kind, g);
    AccountsGive(v.geo, v.disk, v.sup, g, kind);
    hide Accounts, Layout, GroupOk, Reg, Limit, GroupOf, BitOf, FreedAs, FreedItem, PerGroup;
    ghost var d := v.disk;
    ReadBitmap(v, kind, g);
    ok := ClearBit(v, kind, g, x);
    FreedItemIs(v.geo, d, v.disk, v.sup, kind, n);
  }

  // ---------------------------------------------------------------- what the searches promise

  /**
   Past the first group an inode number is reserved only on volumes with fewer inodes per group
   than reserved ones.
   */
  lemma ReservedInLaterGroups(geo: Geo)
    requires Shape(geo) && geo.groups > 1
    ensures geo.firstInode <= geo.inodesPerGroup + 1 <==>
            forall n: nat :: n < Items(geo, Inodes) && Eligible(geo, Inodes, n) ==> n + 1 >= geo.firstInode
  {
    var per := geo.inodesPerGroup;
    if geo.firstInode <= per + 1 {
      forall n: nat | n < Items(geo, Inodes) && Eligible(geo, Inodes, n) ensures n + 1 >= geo.firstInode {
        ItemPlace(geo, Inodes, n);
        if GroupOf(geo, Inodes, n) > 0 { MulMonotone(1, GroupOf(geo, Inodes, n), per); }
      }
    } else {
      InnerGroup(geo, Inodes, 1);
      DivMod(1, 0, per);
      assert Eligible(geo, Inodes, per) && per + 1 < geo.firstInode;
    }
  }

  /** Two groups of 32 blocks and eight inodes each; the first inode that is not reserved is 11. */
  const NARROW := Geo(1024, 32, 8, 2, 65, 16, 1, 128, 11, [3, 35], [4, 36], [5, 37])

  /** A reserved inode that the search can give out: number 9, the first of the second group. */
  lemma ReservedExample()
    ensures Shape(NARROW) && NARROW.groups == 2 && 9 < NARROW.firstInode
    ensures 8 < Items(NARROW, Inodes) && GroupOf(NARROW, Inodes, 8) == 1 && Eligible(NARROW, Inodes, 8)
  {
    assert Grouped(NARROW, Blocks) && Grouped(NARROW, Inodes);
  }
}
