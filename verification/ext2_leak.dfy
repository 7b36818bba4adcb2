/**
 Two small volumes of eight blocks of 1 KiB, two of them free (src/fs/ext2/ext2_file.c,
 ext2_alloc.c): one whose only file is to get three blocks of data, which loses blocks, and one
 whose only directory has no block yet, on which creating a file and removing it takes one.
 */
module Ext2Leak {
  import opened Bits
  import opened Words
  import opened Ext2Layout
  import opened Ext2Space
  import opened Ext2Tree
  import opened Ext2Files
  import opened Ext2Spend
  import opened Ext2Write
  import opened Ext2Chain
  import opened Ext2File
  import opened Ext2DirScan
  import opened Ext2Dir
  import opened Ext2DirAdd
  import opened Ext2Life
  import Alloc = Ext2Alloc
  import Io = Ext2Io

  /** Superblock in block 1, descriptor in 2, bitmaps in 3 and 4, inode table in 5; blocks 6 and 7 are free. */
  const SMALL := Geo(1024, 8, 8, 1, 8, 8, 1, 128, 1, [3], [4], [5])

  /**
   The bytes that are not zero: counts, pointers, the two bitmaps, and the mode of inode 1.  On the
   full volume all inodes are in use and inode 1 is a file, on the other inode 1 is in use and a
   directory.
   */
  function SmallByte(full: bool, x: nat): byte {
    if x == 1024 + 12 then 2
    else if x == 1024 + 16 then (if full then 0 else 7)
    else if x == 2048 then 3
    else if x == 2048 + 4 then 4
    else if x == 2048 + 8 then 5
    else if x == 2048 + 12 then 2
    else if x == 2048 + 14 then (if full then 0 else 7)
    else if x == 3 * 1024 then 31
    else if x == 4 * 1024 then (if full then 255 else 1)
    else if x == 5 * 1024 + 1 then (if full then 0x80 else 0x40)
    else 0
  }

  function SmallDisk(full: bool): (d: seq<byte>)
    ensures |d| == 8 * 1024 && forall x :: 0 <= x < |d| ==> d[x] == SmallByte(full, x)
  {
    seq(8 * 1024, x requires 0 <= x => SmallByte(full, x))
  }

  function SmallSuper(full: bool): (s: seq<byte>)
    ensures |s| == SUPER_SIZE
    ensures forall x :: 0 <= x < |s| ==> s[x] == if x == 12 then 2 else if x == 16 && !full then 7 else 0
  {
    seq(SUPER_SIZE, x => if x == 12 then 2 else if x == 16 && !full then 7 else 0)
  }

  lemma SmallShape(full: bool)
    ensures Shape(SMALL) && Sized(SMALL, SmallDisk(full))
  {
    assert Grouped(SMALL, Blocks) && Grouped(SMALL, Inodes);
  }

  /** Where everything is. */
  lemma SmallOff(r: Region)
    requires Shape(SMALL) && Known(SMALL, r)
    ensures Off(SMALL, r) == match r
                             case Super => 1024
                             case Desc(_) => 2048
                             case BlockBits(_) => 3072
                             case InodeBits(_) => 4096
                             case Record(i) => 5120 + (i - 1) * 128
                             case Data(b) => b * 1024
  {
    match r
    case Record(i) => assert (i - 1) / 8 == 0 && (i - 1) % 8 == i - 1;
    case _ =>
  }

  lemma SmallLayout(full: bool)
    ensures Shape(SMALL) && Layout(SMALL) && Volume(SMALL, SmallDisk(full))
  {
    SmallShape(full);
    hide Off, Shape;
    forall r | Meta(SMALL, r) ensures Inside(SMALL, r) {
      SmallOff(r);
    }
    forall r, q | Meta(SMALL, r) && Meta(SMALL, q) && r != q ensures Apart(SMALL, r, q) {
      SmallOff(r);
      SmallOff(q);
    }
  }

  lemma SmallData(b: nat)
    requires Shape(SMALL) && 6 <= b < 8
    ensures IsData(SMALL, b)
  {
    hide Off, Shape;
    SmallOff(Data(b));
    forall r | Meta(SMALL, r) ensures Apart(SMALL, Data(b), r) {
      SmallOff(r);
    }
  }

  /** A byte of a region. */
  lemma SmallAt(full: bool, r: Region, x: nat)
    requires Volume(SMALL, SmallDisk(full)) && Meta(SMALL, r) && x < Len(SMALL, r)
    ensures |Reg(SMALL, SmallDisk(full), r)| == Len(SMALL, r)
    ensures Reg(SMALL, SmallDisk(full), r)[x] == SmallByte(full, Off(SMALL, r) + x)
  {
    RegLen(SMALL, SmallDisk(full), r);
  }

  lemma SmallFlag(full: bool, kind: Kind, x: nat)
    requires Volume(SMALL, SmallDisk(full)) && x < 8
    ensures FlagsOf(SMALL, SmallDisk(full), kind, 0)[x] == Has(if kind.Blocks? then 31 else if full then 255 else 1, x)
  {
    hide Layout, Shape, Off;
    RegLen(SMALL, SmallDisk(full), BitsOf(kind, 0));
    SmallAt(full, BitsOf(kind, 0), 0);
    SmallOff(BitsOf(kind, 0));
    FlagsAt(Reg(SMALL, SmallDisk(full), BitsOf(kind, 0)), x);
    assert x / 8 == 0 && x % 8 == x;
  }

  /** Ones below, nothing above. */
  lemma {:induction false} SmallTail(b: nat, x: nat)
    requires b == 31 || b == 255 || b == 15 || b == 127 || b == 7 || b == 63 || b == 3 || b == 1 || b == 0
    ensures Has(b, x) <==> x < (if b == 255 then 8 else if b == 127 then 7 else if b == 63 then 6 else if b == 31 then 5
                                else if b == 15 then 4 else if b == 7 then 3 else if b == 3 then 2 else b)
  {
    if x > 0 {
      SmallTail(b / 2, x - 1);
    }
  }

  lemma SmallFree(full: bool)
    ensures Volume(SMALL, SmallDisk(full))
    ensures FreeBits(SMALL, SmallDisk(full), Blocks, 0) == {5, 6}
    ensures FreeBits(SMALL, SmallDisk(full), Inodes, 0) == if full then {} else {1, 2, 3, 4, 5, 6, 7}
    ensures FreeCount(SMALL, SmallDisk(full), Blocks, 0) == 2
    ensures FreeCount(SMALL, SmallDisk(full), Inodes, 0) == if full then 0 else 7
  {
    SmallLayout(full);
    hide Layout, Shape, FlagsOf;
    assert Limit(SMALL, Blocks, 0) == 7 && Limit(SMALL, Inodes, 0) == 8;
    forall x: nat | x < 8
      ensures FlagsOf(SMALL, SmallDisk(full), Blocks, 0)[x] == (x < 5)
      ensures FlagsOf(SMALL, SmallDisk(full), Inodes, 0)[x] == (full || x == 0)
    {
      SmallFlag(full, Blocks, x);
      SmallFlag(full, Inodes, x);
      SmallTail(31, x);
      SmallTail(if full then 255 else 1, x);
    }
    assert FreeBits(SMALL, SmallDisk(full), Blocks, 0) == {5, 6};
    assert FreeBits(SMALL, SmallDisk(full), Inodes, 0) == if full then {} else {1, 2, 3, 4, 5, 6, 7};
  }

  /** A number in a region. */
  lemma SmallWord(full: bool, r: Region, o: nat)
    requires Volume(SMALL, SmallDisk(full)) && Meta(SMALL, r) && o + 4 <= Len(SMALL, r)
    ensures |Reg(SMALL, SmallDisk(full), r)| == Len(SMALL, r)
    ensures var x, s := Off(SMALL, r) + o, Reg(SMALL, SmallDisk(full), r);
            && s[o] == SmallByte(full, x) && s[o + 1] == SmallByte(full, x + 1) && s[o + 2] == SmallByte(full, x + 2)
            && s[o + 3] == SmallByte(full, x + 3)
  {
    hide Layout, Shape, Off;
    SmallAt(full, r, o);
    SmallAt(full, r, o + 1);
    SmallAt(full, r, o + 2);
    SmallAt(full, r, o + 3);
  }

  lemma SmallGroup(full: bool)
    ensures Volume(SMALL, SmallDisk(full)) && GroupOk(SMALL, SmallDisk(full), 0)
  {
    SmallFree(full);
    hide Layout, Shape, Off, FreeCount, FreeBits;
    SmallOff(Desc(0));
    SmallWord(full, Desc(0), 0);
    SmallWord(full, Desc(0), 4);
    SmallWord(full, Desc(0), 8);
    SmallWord(full, Desc(0), 12);
  }

  lemma SmallAccounts(full: bool)
    ensures Accounts(SMALL, SmallDisk(full), SmallSuper(full))
  {
    SmallGroup(full);
    SmallFree(full);
    hide Layout, Shape, Off, FreeCount, FreeBits, GroupOk;
    assert Total(SMALL, SmallDisk(full), Blocks, 0) == 0 && Total(SMALL, SmallDisk(full), Inodes, 0) == 0;
    assert Total(SMALL, SmallDisk(full), Blocks, 1) == 2;
    assert Total(SMALL, SmallDisk(full), Inodes, 1) == if full then 0 else 7;
    SmallOff(Super);
    RegLen(SMALL, SmallDisk(full), Super);
    forall x: nat | x < SUPER_SIZE ensures Reg(SMALL, SmallDisk(full), Super)[x] == SmallSuper(full)[x] {
      SmallAt(full, Super, x);
    }
    assert Reg(SMALL, SmallDisk(full), Super) == SmallSuper(full);
  }

  /** Blocks 6 and 7, numbered from the first data block. */
  lemma SmallFreeBlocks(full: bool)
    ensures Volume(SMALL, SmallDisk(full)) && FreeBlocks(SMALL, SmallDisk(full)) == {5, 6}
  {
    SmallFree(full);
    hide Layout, Shape, FlagsOf, FreeBits;
    forall n: nat ensures n in FreeBlocks(SMALL, SmallDisk(full)) <==> n == 5 || n == 6 {
      if n < 7 { GroupItem(SMALL, SmallDisk(full), Blocks, 0, n); }
    }
  }

  /** Inode 1 is a regular file or a directory, without blocks. */
  lemma SmallInode(full: bool)
    ensures Volume(SMALL, SmallDisk(full))
    ensures if full then IsRegular(Rec(SMALL, SmallDisk(full), 1)) else IsDirectory(Rec(SMALL, SmallDisk(full), 1))
    ensures forall s :: 0 <= s < SLOTS ==> Pointer(Rec(SMALL, SmallDisk(full), 1), s) == 0
  {
    SmallLayout(full);
    hide Layout, Shape, Off;
    SmallOff(Record(1));
    SmallWord(full, Record(1), MODE);
    forall s | 0 <= s < SLOTS ensures Pointer(Rec(SMALL, SmallDisk(full), 1), s) == 0 {
      SmallWord(full, Record(1), BLOCK + 4 * s);
    }
  }

  lemma SmallFiles(full: bool)
    ensures FilesOk(SMALL, SmallDisk(full), {1})
  {
    SmallInode(full);
    SmallFreeBlocks(full);
    hide Layout, Shape, Pointer, Rec, Marked, IsData;
    var d := SmallDisk(full);
    forall p | Within(SMALL, p) ensures At(SMALL, d, 1, p) == 0 {
      NodeRoot(SMALL, d, Rec(SMALL, d, 1), p.slot);
      NothingBelow(SMALL, d, Rec(SMALL, d, 1), p.slot, [], p.idx);
    }
    forall n: nat | n < Items(SMALL, Blocks) ensures FreeOk(SMALL, d, n) {
      assert n in FreeBlocks(SMALL, d) <==> !Marked(SMALL, d, Blocks, n);
      if n >= 5 { SmallData(1 + n); }
    }
  }

  /** Three slots are needed, two blocks are free. */
  lemma SmallWontFit()
    ensures Volume(SMALL, SmallDisk(true)) && Inode(SMALL, 1)
    ensures Needed(Rec(SMALL, SmallDisk(true), 1), 1024, 0, 3072) == 3 && WontFit(SMALL, SmallDisk(true), 1, 0, 3072)
    ensures Cost(SMALL, SmallDisk(true), 1, 0, 3072) == 2
  {
    SmallInode(true);
    SmallFreeBlocks(true);
    hide Layout, Shape, Pointer, Rec, FreeBlocks;
    var rec := Rec(SMALL, SmallDisk(true), 1);
    assert EndSlot(1024, 0, 3072) == 3 && FirstSlot(1024, 0) == 0;
    assert Holes(rec, 0, 0) == 0 && Holes(rec, 0, 1) == 1 && Holes(rec, 0, 2) == 2 && Holes(rec, 0, 3) == 3;
    assert |{5, 6}| == 2;
  }

  /** The write fails, and both free blocks are marked though no file has them. */
  method LeakExample(data: seq<byte>) returns (v: Io.Volume, r: Kerr)
    requires |data| == 3072
    ensures r == NoSpace && v.geo == SMALL && Volume(SMALL, v.disk) && FreeBlocks(SMALL, v.disk) == {}
    ensures Unreferred(SMALL, v.disk, {1}, 6) && Unreferred(SMALL, v.disk, {1}, 7)
    ensures |v.sup| == SUPER_SIZE && Get32(v.sup, TotalAt(Blocks)) == 0
  {
    hide Layout, Shape, Accounts, FilesOk, Unreferred, FreeBlocks, Needed, Rec, GroupOf, Sized, SameRecs, PartWrote,
      Written;
    SmallLayout(true);
    SmallAccounts(true);
    SmallFiles(true);
    SmallWontFit();
    SmallFreeBlocks(true);
    SmallInode(true);
    v := new Io.Volume(SMALL, SmallDisk(true), SmallSuper(true));
    r := WriteFile(v, 1, 0, data, {1});
    LostAll(v.disk, v.sup);
  }

  lemma LostAll(d: seq<byte>, sup: seq<byte>)
    requires Charged(SMALL, SmallDisk(true), SmallSuper(true), d, sup, {1}, 1, 0, 3072, false)
    ensures Volume(SMALL, d) && FreeBlocks(SMALL, d) == {} && Unreferred(SMALL, d, {1}, 6)
    ensures Unreferred(SMALL, d, {1}, 7)
    ensures |sup| == SUPER_SIZE && Get32(sup, TotalAt(Blocks)) == 0
  {
    hide Layout, Shape, Unreferred, FreeBlocks, Needed, Rec, Sized;
    SmallFreeBlocks(true);
    SmallWontFit();
    var gone := Gone(SMALL, SmallDisk(true), d);
    assert gone <= {5, 6} && |gone| == 2;
    if 5 !in gone { PairOnly(gone, 6); assert false; }
    if 6 !in gone { PairOnly(gone, 5); assert false; }
    assert 5 in Lost(SMALL, SmallDisk(true), d, {1}) && 6 in Lost(SMALL, SmallDisk(true), d, {1});
  }

  lemma PairOnly(s: set<nat>, x: nat)
    requires s <= {x}
    ensures |s| <= 1
  {
    if s != {} { assert s == {x}; }
  }

  // ---------------------------------------------------------------- freeing a free block

  /** Block 6 is free; freeing it once more leaves two free blocks and a total of three. */
  method FreeExample() returns (v: Io.Volume, ok: bool)
    ensures ok && v.geo == SMALL && Accounts(SMALL, SmallDisk(true), SmallSuper(true))
    ensures !Accounts(SMALL, v.disk, v.sup)
    ensures Overcounted(SMALL, SmallDisk(true), v.disk, v.sup, Blocks) && FreeBlocks(SMALL, v.disk) == {5, 6}
    ensures Get32(v.sup, TotalAt(Blocks)) == 3
  {
    SmallLayout(true);
    SmallAccounts(true);
    SmallFreeBlocks(true);
    hide Layout, Shape, Accounts, FreeBlocks, Sized, Overcounted, Marked;
    v := new Io.Volume(SMALL, SmallDisk(true), SmallSuper(true));
    ok := Alloc.FreeBlock(v, 6);
    SmallFreed(v.disk, v.sup);
  }

  lemma SmallFreed(d: seq<byte>, sup: seq<byte>)
    requires Volume(SMALL, SmallDisk(true)) && Alloc.FreedItem(SMALL, SmallDisk(true), d, sup, Blocks, 5)
    ensures !Accounts(SMALL, d, sup) && Overcounted(SMALL, SmallDisk(true), d, sup, Blocks)
    ensures FreeBlocks(SMALL, d) == {5, 6} && Get32(sup, TotalAt(Blocks)) == 3
  {
    SmallFreeBlocks(true);
    hide Layout, Shape, Accounts, Sized, Marked, Get32, Turned;
    assert 5 in FreeBlocks(SMALL, SmallDisk(true));
    forall n: nat ensures n in FreeBlocks(SMALL, d) <==> n in FreeBlocks(SMALL, SmallDisk(true)) {
      if n < Items(SMALL, Blocks) { assert SameMark(SMALL, SmallDisk(true), d, Blocks, n); }
    }
    TotalIsFree(SMALL, d, Blocks, 1);
    assert UpTo(SMALL, Blocks, 1) == Items(SMALL, Blocks) && |{5, 6}| == 2;
  }

  // ---------------------------------------------------------------- a file created and removed

  /** The directory has no block, hence no names and no room. */
  lemma SmallDir()
    ensures var d := SmallDisk(false);
            && DirState(SMALL, d, SmallSuper(false), {1}, 1) && DirMap(SMALL, d, 1) == map[]
            && !AnyRoom(SMALL, d, 1, 1) && AnySlot(SMALL, d, 1)
  {
    SmallLayout(false);
    SmallAccounts(false);
    SmallFiles(false);
    SmallInode(false);
    hide Layout, Shape, Accounts, FilesOk, Sized, Pointer, Rec, HasRoom;
    var d := SmallDisk(false);
    forall s: nat | s < NDIR ensures SlotBlock(SMALL, d, 1, s) == 0 {
      DirectPathIs(SMALL, s);
      NoBlocks(SMALL, d, 1, Path(s, []));
    }
    NoNames(d, NDIR);
  }

  lemma {:induction false} NoNames(d: seq<byte>, n: nat)
    requires Volume(SMALL, d) && Inode(SMALL, 1) && n <= NDIR
    requires forall s: nat :: s < NDIR ==> SlotBlock(SMALL, d, 1, s) == 0
    ensures Span(SMALL, d, 1, 0, n) == []
  {
    hide Layout, Shape, Sized, At, SlotBlock;
    if n > 0 { NoNames(d, n - 1); }
  }

  /** Inode 1 is the only one in use. */
  lemma SmallMarks()
    ensures Volume(SMALL, SmallDisk(false)) && 1 < Items(SMALL, Inodes) && Eligible(SMALL, Inodes, 1)
    ensures Marked(SMALL, SmallDisk(false), Inodes, 0) && !Marked(SMALL, SmallDisk(false), Inodes, 1)
  {
    hide Layout, Shape, Sized, FlagsOf, FreeBits, Marked;
    SmallFree(false);
    GroupItem(SMALL, SmallDisk(false), Inodes, 0, 0);
    GroupItem(SMALL, SmallDisk(false), Inodes, 0, 1);
  }

  /** There is an inode to be had, and a block. */
  lemma SmallSpace()
    ensures Live(SMALL, SmallDisk(false), {1}) && AnyInode(SMALL, SmallDisk(false))
    ensures CanAdd(SMALL, SmallDisk(false), 1, 1)
  {
    hide Layout, Shape, Sized, Marked, AnyRoom, AnySlot, FreeBlocks, Accounts, FilesOk, DirState, DirMap, Eligible;
    var d := SmallDisk(false);
    SmallMarks();
    SmallDir();
    SmallFreeBlocks(false);
    FullIsNone(SMALL, d);
    assert 5 in FreeBlocks(SMALL, d);
  }

  /** The file "a" is created and removed: the directory keeps a block for its names. */
  method CreateExample() returns (v: Io.Volume, w: Kerr, r: Kerr)
    ensures w == Good && r == Good && v.geo == SMALL
    ensures Accounts(SMALL, SmallDisk(false), SmallSuper(false)) && Get32(SmallSuper(false), TotalAt(Blocks)) == 2
    ensures |v.sup| == SUPER_SIZE && Get32(v.sup, TotalAt(Blocks)) == 1 && Get32(v.sup, TotalAt(Inodes)) == 7
  {
    hide Layout, Shape, Accounts, FilesOk, Sized, DirState, DirMap, AnyRoom, AnySlot, CanAdd, AnyInode, Live, Restored,
      Get32;
    SmallLayout(false);
    SmallAccounts(false);
    SmallTotals();
    SmallDir();
    SmallSpace();
    v := new Io.Volume(SMALL, SmallDisk(false), SmallSuper(false));
    w, r := CreateThenRemove(v, 1, [97], {1});
  }

  lemma SmallTotals()
    ensures Get32(SmallSuper(false), TotalAt(Blocks)) == 2 && Get32(SmallSuper(false), TotalAt(Inodes)) == 7
  {
  }
}
