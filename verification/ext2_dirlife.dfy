/**
 A directory's life (src/fs/ext2/ext2_file.c, ext2_dir.c): ext2_create_dir, ext2_remove_dir, and
 what the two together do to the free space and to the parent's link count.
 */
module Ext2DirLife {
  import opened Bits
  import opened Words
  import opened Ext2Layout
  import opened Ext2Space
  import opened Ext2Tree
  import opened Ext2Files
  import opened Ext2Spend
  import opened Ext2Write
  import opened Ext2Chain
  import opened Ext2DirBlock
  import opened Ext2DirScan
  import opened Ext2Names
  import opened Ext2Dir
  import opened Ext2DirAdd
  import opened Ext2Move
  import opened Ext2Life
  import Alloc = Ext2Alloc
  import Io = Ext2Io

  // ---------------------------------------------------------------- the count of directories

  lemma CountReg(geo: Geo, d: seq<byte>, g: nat, desc: seq<byte>, sup: seq<byte>, r: Region)
    requires Volume(geo, d) && g < geo.groups && |desc| == DESC_SIZE && |sup| == SUPER_SIZE && Sound(geo, r)
    ensures Reg(geo, CountPut(geo, d, g, desc, sup), r) ==
            if r == Super then sup else if r == Desc(g) then desc else Reg(geo, d, r)
  {
    hide Shape, Layout, IsData, Reg, Put;
    PutReg(geo, d, Desc(g), desc, r);
    PutReg(geo, Put(geo, d, Desc(g), desc), Super, sup, r);
  }

  lemma CountFlags(geo: Geo, d: seq<byte>, g: nat, desc: seq<byte>, sup: seq<byte>, k: Kind, h: nat)
    requires Volume(geo, d) && g < geo.groups && |desc| == DESC_SIZE && |sup| == SUPER_SIZE && h < geo.groups
    ensures FlagsOf(geo, CountPut(geo, d, g, desc, sup), k, h) == FlagsOf(geo, d, k, h)
    ensures FreeCount(geo, CountPut(geo, d, g, desc, sup), k, h) == FreeCount(geo, d, k, h)
  {
    hide Shape, Layout, Sized, CountPut, Reg, Flags, Where;
    CountReg(geo, d, g, desc, sup, BitsOf(k, h));
  }

  lemma {:induction false} CountTotal(geo: Geo, d: seq<byte>, g: nat, desc: seq<byte>, sup: seq<byte>, k: Kind, n: nat)
    requires Volume(geo, d) && g < geo.groups && |desc| == DESC_SIZE && |sup| == SUPER_SIZE && n <= geo.groups
    ensures Total(geo, CountPut(geo, d, g, desc, sup), k, n) == Total(geo, d, k, n)
  {
    hide Volume, CountPut, FreeCount;
    if n > 0 {
      CountTotal(geo, d, g, desc, sup, k, n - 1);
      CountFlags(geo, d, g, desc, sup, k, n - 1);
    }
  }

  /** A descriptor with the same pointers and free counts. */
  predicate SameCounts(desc: seq<byte>, desc2: seq<byte>) {
    && |desc| == |desc2| == DESC_SIZE && Get32(desc2, 0) == Get32(desc, 0) && Get32(desc2, 4) == Get32(desc, 4)
    && Get32(desc2, 8) == Get32(desc, 8) && Get16(desc2, 12) == Get16(desc, 12) && Get16(desc2, 14) == Get16(desc, 14)
  }

  lemma CountGroup(geo: Geo, d: seq<byte>, g: nat, desc: seq<byte>, sup: seq<byte>, h: nat)
    requires Volume(geo, d) && g < geo.groups && |sup| == SUPER_SIZE && h < geo.groups && GroupOk(geo, d, h)
    requires SameCounts(DescOf(geo, d, g), desc)
    ensures GroupOk(geo, CountPut(geo, d, g, desc, sup), h)
  {
    hide Shape, Layout, Sized, CountPut, Reg, FreeCount, Get16, Get32;
    CountReg(geo, d, g, desc, sup, Desc(h));
    CountFlags(geo, d, g, desc, sup, Blocks, h);
    CountFlags(geo, d, g, desc, sup, Inodes, h);
  }

  lemma CountAccounts(geo: Geo, d: seq<byte>, sup: seq<byte>, g: nat, desc: seq<byte>)
    requires Accounts(geo, d, sup) && g < geo.groups && Volume(geo, d) && SameCounts(DescOf(geo, d, g), desc)
    ensures Accounts(geo, CountPut(geo, d, g, desc, sup), sup)
  {
    hide Shape, Layout, Sized, CountPut, Reg, Total, GroupOk, SameCounts, Get32, Get16, DescOf;
    assert |desc| == DESC_SIZE by { CountsSized(DescOf(geo, d, g), desc); }
    forall h: nat | h < geo.groups ensures GroupOk(geo, CountPut(geo, d, g, desc, sup), h) {
      CountGroup(geo, d, g, desc, sup, h);
    }
    CountTotal(geo, d, g, desc, sup, Blocks, geo.groups);
    CountTotal(geo, d, g, desc, sup, Inodes, geo.groups);
    CountReg(geo, d, g, desc, sup, Super);
  }

  lemma CountsSized(desc: seq<byte>, desc2: seq<byte>)
    requires SameCounts(desc, desc2)
    ensures |desc2| == DESC_SIZE
  {
  }

  lemma CountRest(geo: Geo, d: seq<byte>, sup: seq<byte>, g: nat, desc: seq<byte>)
    requires Volume(geo, d) && g < geo.groups && |desc| == DESC_SIZE && |sup| == SUPER_SIZE
    ensures SameContents(geo, d, CountPut(geo, d, g, desc, sup)) && SameMarks(geo, d, CountPut(geo, d, g, desc, sup))
  {
    hide Shape, Layout, Sized, CountPut, Reg, IsData, FlagsOf, Items, SameMark;
    var d2 := CountPut(geo, d, g, desc, sup);
    forall r | Sound(geo, r) && (r.Record? || r.Data?) ensures SameReg(geo, d, d2, r) {
      CountReg(geo, d, g, desc, sup, r);
    }
    forall k, m: nat | m < Items(geo, k) ensures SameMark(geo, d, d2, k, m) {
      CountMark(geo, d, sup, g, desc, k, m);
    }
  }

  lemma CountMark(geo: Geo, d: seq<byte>, sup: seq<byte>, g: nat, desc: seq<byte>, k: Kind, m: nat)
    requires Volume(geo, d) && g < geo.groups && |desc| == DESC_SIZE && |sup| == SUPER_SIZE
    ensures SameMark(geo, d, CountPut(geo, d, g, desc, sup), k, m)
  {
    hide Layout, Sized, CountPut, Reg, FlagsOf;
    if GroupOf(geo, k, m) < geo.groups { CountFlags(geo, d, g, desc, sup, k, GroupOf(geo, k, m)); }
  }

  lemma DirsOnly(desc: seq<byte>, du: int)
    requires |desc| == DESC_SIZE
    ensures SameCounts(desc, Alloc.AdjustedDesc(desc, 0, 0, du))
    ensures BytesSame(desc, Alloc.AdjustedDesc(desc, 0, 0, du), 16, 18)
    ensures Get16(Alloc.AdjustedDesc(desc, 0, 0, du), 16) == (Get16(desc, 16) + du) % LIMIT16
  {
    hide Get16, Get32, Put16;
    CountedDescIs(desc, Get16(desc, 12), Get16(desc, 14), (Get16(desc, 16) + du) % LIMIT16);
    DirBytes(desc, (Get16(desc, 16) + du) % LIMIT16);
  }

  lemma DirBytes(desc: seq<byte>, dirs: nat)
    requires |desc| == DESC_SIZE && dirs < LIMIT16
    ensures BytesSame(desc, CountedDesc(desc, Get16(desc, 12), Get16(desc, 14), dirs), 16, 18)
  {
    hide Get16;
    Put16Same(desc, 12);
    Put16Same(desc, 14);
  }

  /** used_dirs_count of group `g`. */
  ghost function Dirs(geo: Geo, d: seq<byte>, g: nat): nat
    requires Volume(geo, d) && g < geo.groups
  {
    Get16(DescOf(geo, d, g), 16)
  }

  /** What the descriptor of group `g` has become if the directories of group `h` are `du` more. */
  ghost predicate DirsIn(geo: Geo, d: seq<byte>, d2: seq<byte>, h: nat, du: int, g: nat)
    requires Volume(geo, d) && Volume(geo, d2) && g < geo.groups
  {
    && BytesSame(DescOf(geo, d, g), DescOf(geo, d2, g), 12, if g == h then 18 else 16)
    && Dirs(geo, d2, g) == if g == h then (Dirs(geo, d, g) + du) % LIMIT16 else Dirs(geo, d, g)
  }

  /**
   The group of inode `c` has `du` directories more; of all else in descriptors and superblock only
   free counts differ.
   */
  ghost predicate DirsCounted(geo: Geo, d: seq<byte>, d2: seq<byte>, c: nat, du: int) {
    && Volume(geo, d) && Volume(geo, d2) && Inode(geo, c) && 0 < PerGroup(geo, Inodes)
    && BytesSame(Reg(geo, d, Super), Reg(geo, d2, Super), 12, 20)
    && var h := GroupOf(geo, Inodes, c - 1);
    forall g: nat :: g < geo.groups ==> DirsIn(geo, d, d2, h, du, g)
  }

  lemma AccountsSuper(geo: Geo, d: seq<byte>, sup: seq<byte>)
    requires Accounts(geo, d, sup)
    ensures Volume(geo, d) && Reg(geo, d, Super) == sup
  {
  }

  lemma CountedDirs(geo: Geo, d: seq<byte>, sup: seq<byte>, c: nat, du: int, d2: seq<byte>)
    requires Accounts(geo, d, sup) && Inode(geo, c) && Volume(geo, d) && 0 < PerGroup(geo, Inodes)
    requires GroupOf(geo, Inodes, c - 1) < geo.groups && |sup| == SUPER_SIZE
    requires var g := GroupOf(geo, Inodes, c - 1);
             d2 == CountPut(geo, d, g, Alloc.AdjustedDesc(DescOf(geo, d, g), 0, 0, du), sup)
    ensures DirsCounted(geo, d, d2, c, du)
  {
    hide Accounts, Layout, Shape, Sized, CountPut, Reg, Get16, GroupOf, Alloc.AdjustedDesc, PerGroup, SameCounts;
    var g := GroupOf(geo, Inodes, c - 1);
    var desc := Alloc.AdjustedDesc(DescOf(geo, d, g), 0, 0, du);
    AccountsSuper(geo, d, sup);
    DirsOnly(DescOf(geo, d, g), du);
    CountReg(geo, d, g, desc, sup, Super);
    forall h: nat | h < geo.groups ensures DirsIn(geo, d, d2, g, du, h) {
      CountReg(geo, d, g, desc, sup, Desc(h));
    }
  }

  /** Free counts may change before and after. */
  lemma DirsMore(geo: Geo, d: seq<byte>, d1: seq<byte>, d2: seq<byte>, c: nat, du: int)
    requires SameRest(geo, d, d1) && DirsCounted(geo, d1, d2, c, du)
    ensures DirsCounted(geo, d, d2, c, du)
  {
    hide Layout, Shape, Sized, Reg, DescOf, GroupOf, PerGroup, Get16;
    var h := GroupOf(geo, Inodes, c - 1);
    forall g: nat | g < geo.groups ensures DirsIn(geo, d, d2, h, du, g) {
      assert SameDesc(geo, d, d1, g) && DirsIn(geo, d1, d2, h, du, g);
      DirsKept(geo, d, d1, g);
    }
  }

  lemma DirsKept(geo: Geo, d: seq<byte>, d1: seq<byte>, g: nat)
    requires Volume(geo, d) && Volume(geo, d1) && g < geo.groups && SameDesc(geo, d, d1, g)
    ensures Dirs(geo, d1, g) == Dirs(geo, d, g)
  {
    hide Volume;
    var a, b := DescOf(geo, d, g), DescOf(geo, d1, g);
    assert a[16] == b[16] && a[17] == b[17];
  }

  /** The count of directories in the group of inode `c`, if it can be changed: nothing else depends on it. */
  method CountDirs(v: Io.Volume, c: nat, du: int)
    requires v.Ready() && Accounts(v.geo, v.disk, v.sup) && Inode(v.geo, c) && -1 <= du <= 1
    modifies v`disk, v`sup, v.bufSector
    ensures v.Ready() && Accounts(v.geo, v.disk, v.sup) && v.sup == old(v.sup)
    ensures SameContents(v.geo, old(v.disk), v.disk) && SameMarks(v.geo, old(v.disk), v.disk)
    ensures 0 < PerGroup(v.geo, Inodes) && GroupOf(v.geo, Inodes, c - 1) < v.geo.groups
    ensures 0 <= Dirs(v.geo, old(v.disk), GroupOf(v.geo, Inodes, c - 1)) + du ==>
              DirsCounted(v.geo, old(v.disk), v.disk, c, du)
    ensures Dirs(v.geo, old(v.disk), GroupOf(v.geo, Inodes, c - 1)) + du < 0 ==> v.disk == old(v.disk)
  {
    ItemPlace(v.geo, Inodes, c - 1);
    hide Accounts, Layout, Shape, Sized, Alloc.AdjustedDesc, Alloc.AdjustedSuper, CountPut, Get16, Get32, SameCounts,
      SameMark, DirsCounted, PerGroup;
    ghost var d, sup := v.disk, v.sup;
    var g := GroupOf(v.geo, Inodes, c - 1);
    SuperSame(sup);
    DirsOnly(DescOf(v.geo, d, g), du);
    CountAccounts(v.geo, d, sup, g, Alloc.AdjustedDesc(DescOf(v.geo, d, g), 0, 0, du));
    CountRest(v.geo, d, sup, g, Alloc.AdjustedDesc(DescOf(v.geo, d, g), 0, 0, du));
    SelfContents(v.geo, d);
    TotalsSmall(v.geo, d, sup);
    CountedDirs(v.geo, d, sup, c, du, CountPut(v.geo, d, g, Alloc.AdjustedDesc(DescOf(v.geo, d, g), 0, 0, du), sup));
    var _ := Alloc.UpdateCounts(v, g, 0, 0, du);
  }

  lemma TotalsSmall(geo: Geo, d: seq<byte>, sup: seq<byte>)
    requires Accounts(geo, d, sup)
    ensures Volume(geo, d) && |sup| == SUPER_SIZE
    ensures 0 <= Alloc.Signed(Get32(sup, 12)) && 0 <= Alloc.Signed(Get32(sup, 16))
  {
    hide Accounts, Get32;
    Alloc.TotalSmall(geo, d, sup, Blocks);
    Alloc.TotalSmall(geo, d, sup, Inodes);
  }

  lemma SelfContents(geo: Geo, d: seq<byte>)
    requires Volume(geo, d)
    ensures SameContents(geo, d, d) && SameMarks(geo, d, d)
  {
    forall r | Sound(geo, r) && (r.Record? || r.Data?) ensures SameReg(geo, d, d, r) {
    }
  }

  // ---------------------------------------------------------------- the new directory

  /** setup_new_dir_inode, and its block entered: two links, mode 0755, one block. */
  function NewDir(bs: nat, b: nat): (r: seq<byte>)
    requires bs < LIMIT32 && b < LIMIT32
    ensures |r| == INODE_SIZE
  {
    Put32(Put32(Put32(Blank(0x4000 + 0x1ED, 2), SIZE, bs), SECTORS, bs / SECTOR), BLOCK, b)
  }

  /** Permissions 0755, the size and the sectors of one block, and nothing but zeros besides links and pointer. */
  predicate DirRec(rec: seq<byte>, bs: nat) {
    && ZeroBut(rec, Field(MODE, 2) + Field(LINKS, 2) + Field(SIZE, 4) + Field(SECTORS, 4) + Field(BLOCK, 4))
    && Get16(rec, MODE) == 0x41ED && Get32(rec, SIZE) == bs && Get32(rec, SECTORS) == bs / 512
  }

  lemma NewDirIs(bs: nat, b: nat)
    requires bs < LIMIT32 && b < LIMIT32
    ensures var r := NewDir(bs, b);
            && IsDirectory(r) && Get16(r, LINKS) == 2 && DirRec(r, bs)
            && forall s :: 0 <= s < SLOTS ==> Pointer(r, s) == if s == 0 then b else 0
  {
    hide Blank, Get16, Put32, Get32, AgreeBut;
    var r1 := Blank(0x4000 + 0x1ED, 2);
    BlankIs(0x4000 + 0x1ED, 2);
    var r2 := Put32(r1, SIZE, bs);
    var r3 := Put32(r2, SECTORS, bs / SECTOR);
    Put32Get(r1, SIZE, bs);
    Put32Get(r2, SECTORS, bs / SECTOR);
    Put32Elsewhere(r3, BLOCK, b, SECTORS);
    Put32Get(r3, BLOCK, b);
    NewDirZero(r1, r2, r3, NewDir(bs, b), bs, b);
    PutField(r1, SIZE, bs);
    PutField(r2, SECTORS, bs / SECTOR);
    PutField(r3, BLOCK, b);
  }

  lemma NewDirZero(r1: seq<byte>, r2: seq<byte>, r3: seq<byte>, r4: seq<byte>, bs: nat, b: nat)
    requires |r1| == INODE_SIZE && ZeroBut(r1, Field(MODE, 2) + Field(LINKS, 2)) && bs < LIMIT32 && b < LIMIT32
    requires r2 == Put32(r1, SIZE, bs) && r3 == Put32(r2, SECTORS, bs / SECTOR) && r4 == Put32(r3, BLOCK, b)
    ensures ZeroBut(r4, Field(MODE, 2) + Field(LINKS, 2) + Field(SIZE, 4) + Field(SECTORS, 4) + Field(BLOCK, 4))
  {
    hide Put32;
    AgreePut32(r1, SIZE, bs);
    AgreePut32(r2, SECTORS, bs / SECTOR);
    AgreePut32(r3, BLOCK, b);
    AgreeMore(r1, r2, r3, Field(SIZE, 4), Field(SECTORS, 4));
    AgreeMore(r1, r3, r4, Field(SIZE, 4) + Field(SECTORS, 4), Field(BLOCK, 4));
  }

  /** A number written to an inode leaves its other fields. */
  lemma PutField(r: seq<byte>, o: nat, x: nat)
    requires |r| == INODE_SIZE && x < LIMIT32 && (o == SIZE || o == SECTORS || o == BLOCK)
    ensures var r2 := Put32(r, o, x);
            && Get16(r2, MODE) == Get16(r, MODE) && Get16(r2, LINKS) == Get16(r, LINKS)
            && (o != SIZE ==> Get32(r2, SIZE) == Get32(r, SIZE))
            && forall s :: 0 <= s < SLOTS && !(o == BLOCK && s == 0) ==> Pointer(r2, s) == Pointer(r, s)
  {
    hide Put32, Get16, Get32;
    Put32Elsewhere(r, o, x, MODE);
    Put32Elsewhere(r, o, x, LINKS);
    Put32Elsewhere(r, o, x, SIZE);
    forall s | 0 <= s < SLOTS && !(o == BLOCK && s == 0) ensures Pointer(Put32(r, o, x), s) == Pointer(r, s) {
      Put32Elsewhere(r, o, x, BLOCK + 4 * s);
    }
  }

  /** A data block that no file has touches none. */
  lemma OtherBlock(geo: Geo, d: seq<byte>, files: set<nat>, b: nat, t: seq<byte>)
    requires FilesOk(geo, d, files) && IsData(geo, b) && |t| == geo.bs && Volume(geo, d)
    requires forall j, q :: j in files && Within(geo, q) ==> Inode(geo, j) && At(geo, d, j, q) != b
    ensures b < geo.blockCount && KeptFiles(geo, d, Put(geo, d, Data(b), t), files)
  {
    hide Shape, Layout, Sized, Marked, Reg, At, Items, OneOwner, FreeOk, Put;
    var d2 := Put(geo, d, Data(b), t);
    DataPutBlock(geo, d, b, t, b);
    forall j | j in files ensures Kept(geo, d, d2, j) {
      DataPutRecord(geo, d, b, t, j);
      forall q | Within(geo, q) ensures SameBlock(geo, d, d2, At(geo, d, j, q)) {
        assert NodeOk(geo, d, j, q);
        DataPutBlock(geo, d, b, t, At(geo, d, j, q));
      }
      forall q | Within(geo, q) ensures KeptAt(geo, d, d2, j, q) {
        AtSame(geo, d, d2, j, q);
      }
    }
  }

  /** An inode with a single block, in its first slot. */
  ghost predicate OneBlock(geo: Geo, d: seq<byte>, c: nat, b: nat) {
    && Volume(geo, d) && Inode(geo, c)
    && forall s :: 0 <= s < SLOTS ==> Pointer(Rec(geo, d, c), s) == if s == 0 then b else 0
  }

  lemma OneBlockAt(geo: Geo, d: seq<byte>, c: nat, b: nat, p: Path)
    requires OneBlock(geo, d, c, b) && Within(geo, p)
    ensures At(geo, d, c, p) == if p == Path(0, []) then b else 0
  {
    hide Layout, Shape, Sized, Pointer, Rec;
    NodeRoot(geo, d, Rec(geo, d, c), p.slot);
    if p.slot != 0 {
      NothingBelow(geo, d, Rec(geo, d, c), p.slot, [], p.idx);
    } else {
      FirstSlotFlat(geo, p);
    }
  }

  lemma FirstSlotFlat(geo: Geo, p: Path)
    requires Within(geo, p) && p.slot == 0
    ensures p == Path(0, [])
  {
  }

  /** A directory with a block of its own is no trouble to the others. */
  lemma OneMoreBlock(geo: Geo, d: seq<byte>, files: set<nat>, c: nat, b: nat)
    requires FilesOk(geo, d, files) && OneBlock(geo, d, c, b) && c !in files && BlockOk(geo, d, b)
    requires forall j, q :: j in files && Within(geo, q) ==> Inode(geo, j) && At(geo, d, j, q) != b
    ensures FilesOk(geo, d, files + {c})
  {
    hide Shape, Layout, Sized, Marked, At, Items, FreeOk, Rec, IsData, Pointer;
    forall p | Within(geo, p) ensures At(geo, d, c, p) == if p == Path(0, []) then b else 0 {
      OneBlockAt(geo, d, c, b, p);
    }
    forall i, p, j, q | i in files + {c} && j in files + {c} && Within(geo, p) && Within(geo, q)
      ensures OneOwner(geo, d, i, p, j, q)
    {
      if i in files && j in files { assert OneOwner(geo, d, i, p, j, q); }
    }
  }

  lemma OneBlockOf(geo: Geo, d: seq<byte>, c: nat, b: nat)
    requires OneBlock(geo, d, c, b) && geo.firstData <= b < geo.blockCount && b != 0
    ensures BlocksOf(geo, d, c) == {b - geo.firstData}
  {
    BlockItem(geo, b);
    FirstWithin(geo);
    hide Volume, At, Items, Pointer, Rec;
    forall p | Within(geo, p) ensures At(geo, d, c, p) == if p == Path(0, []) then b else 0 {
      OneBlockAt(geo, d, c, b, p);
    }
    assert At(geo, d, c, Path(0, [])) == b;
    forall n: nat ensures InSlots(geo, d, c, SLOTS, n) <==> n == b - geo.firstData {
      if n == b - geo.firstData { assert Path(0, []).slot < SLOTS; }
    }
  }

  lemma FirstWithin(geo: Geo)
    ensures Within(geo, Path(0, []))
  {
  }

  /** The names of a directory whose one block is `t`. */
  lemma {:induction false} OneSpan(geo: Geo, d: seq<byte>, c: nat, b: nat, n: nat)
    requires OneBlock(geo, d, c, b) && 0 < b < geo.blockCount && 0 < n <= NDIR
    requires Whole(Reg(geo, d, Data(b)))
    ensures Span(geo, d, c, 0, n) == Names(Reg(geo, d, Data(b)))
  {
    hide Layout, Shape, Sized, Pointer, Rec, Reg, Whole, Names, At, OneBlock;
    assert Volume(geo, d) && Inode(geo, c) by { OneBlockVolume(geo, d, c, b); }
    DirectPathIs(geo, n - 1);
    OneBlockAt(geo, d, c, b, Path(n - 1, []));
    if n > 1 {
      OneSpan(geo, d, c, b, n - 1);
    }
  }

  lemma OneBlockVolume(geo: Geo, d: seq<byte>, c: nat, b: nat)
    requires OneBlock(geo, d, c, b)
    ensures Volume(geo, d) && Inode(geo, c)
  {
  }

  /** What a new directory holds. */
  function Dotted(c: nat, p: nat): map<seq<byte>, Target> {
    map[DOT := Target(c, FT_DIR), DOTDOT := Target(p, FT_DIR)]
  }

  lemma OneDir(geo: Geo, d: seq<byte>, c: nat, b: nat, p: nat)
    requires OneBlock(geo, d, c, b) && 0 < b < geo.blockCount && Whole(Reg(geo, d, Data(b)))
    requires Names(Reg(geo, d, Data(b))) == [Binding(DOT, c, FT_DIR), Binding(DOTDOT, p, FT_DIR)]
    ensures DirOk(geo, d, c) && DirMap(geo, d, c) == Dotted(c, p)
  {
    OneSpan(geo, d, c, b, NDIR);
    hide Layout, Shape, Sized, Pointer, Rec, Reg, Tiled, Bindings, At;
    forall s: nat | s < NDIR ensures SlotWhole(geo, d, c, s) {
      DirectPathIs(geo, s);
      OneBlockAt(geo, d, c, b, Path(s, []));
    }
    var list := Span(geo, d, c, 0, NDIR);
    assert list[..1][..0] == [];
    assert MapOf(list[..1]) == map[DOT := Target(c, FT_DIR)];
  }

  /** The parent entry of a new directory is where a move looks for it. */
  lemma OneParentEntry(geo: Geo, d: seq<byte>, c: nat, b: nat)
    requires OneBlock(geo, d, c, b) && 0 < b < geo.blockCount
    requires UsedRecord(Reg(geo, d, Data(b)), SECOND) && Name(Reg(geo, d, Data(b)), SECOND) == DOTDOT
    ensures Linkable(geo, d, c) && HasParent(geo, d, c)
  {
    DirectPathIs(geo, 0);
    hide Layout, Shape, Sized, Pointer, Rec, Reg, Tiled, At;
    OneBlockAt(geo, d, c, b, Path(0, []));
  }

  /** Directory `c` holds its two entries in block `b`, has two links, and can be given another parent. */
  ghost predicate NewDirectory(geo: Geo, d: seq<byte>, c: nat, p: nat, b: nat) {
    && Volume(geo, d) && Inode(geo, c) && IsDir(geo, d, c) && DirOk(geo, d, c) && DirMap(geo, d, c) == Dotted(c, p)
    && Links(geo, d, c) == 2 && DirRec(Rec(geo, d, c), geo.bs) && Linkable(geo, d, c) && HasParent(geo, d, c)
    && geo.firstData <= b && BlocksOf(geo, d, c) == {b - geo.firstData}
  }

  lemma KeptNew(geo: Geo, d: seq<byte>, d2: seq<byte>, c: nat, p: nat, b: nat)
    requires NewDirectory(geo, d, c, p, b) && Volume(geo, d2) && Kept(geo, d, d2, c)
    ensures NewDirectory(geo, d2, c, p, b)
  {
    hide Layout, Shape, Sized, IsDir, DirOk, DirMap, BlocksOf, Kept, Links, Linkable, HasParent, DirRec, Rec;
    KeptMeans(geo, d, d2, c, 0);
    KeptBlocks(geo, d, d2, c);
    KeptLinks(geo, d, d2, c);
    KeptFirst(geo, d, d2, c);
  }

  lemma KeptFirst(geo: Geo, d: seq<byte>, d2: seq<byte>, c: nat)
    requires Volume(geo, d) && Volume(geo, d2) && Inode(geo, c) && Kept(geo, d, d2, c)
    requires Linkable(geo, d, c) && HasParent(geo, d, c)
    ensures Linkable(geo, d2, c) && HasParent(geo, d2, c)
  {
    DirectPathIs(geo, 0);
    assert KeptAt(geo, d, d2, c, Path(0, []));
    hide Layout, Shape, Sized, InPlace, At, Get16, Get32, Kept, Reg;
    assert FirstBlock(geo, d2, c) == FirstBlock(geo, d, c);
  }

  lemma KeptLinks(geo: Geo, d: seq<byte>, d2: seq<byte>, c: nat)
    requires Volume(geo, d) && Volume(geo, d2) && Inode(geo, c) && Kept(geo, d, d2, c)
    ensures Links(geo, d2, c) == Links(geo, d, c) && Rec(geo, d2, c) == Rec(geo, d, c)
  {
  }

  ghost predicate Unused(geo: Geo, d: seq<byte>, files: set<nat>, b: nat) {
    && Volume(geo, d) && (forall j :: j in files ==> Inode(geo, j))
    && forall j, q :: j in files && Within(geo, q) ==> At(geo, d, j, q) != b
  }

  lemma KeptUnused(geo: Geo, d: seq<byte>, d2: seq<byte>, files: set<nat>, b: nat)
    requires Unused(geo, d, files, b) && KeptFiles(geo, d, d2, files)
    ensures Unused(geo, d2, files, b)
  {
    hide Volume, At, SameBlock, Rec;
    forall j, q | j in files && Within(geo, q) ensures At(geo, d2, j, q) != b {
      assert Kept(geo, d, d2, j);
      assert KeptAt(geo, d, d2, j, q);
    }
  }

  lemma FreeIsUnused(geo: Geo, d: seq<byte>, files: set<nat>, b: nat)
    requires FilesOk(geo, d, files) && geo.firstData <= b < geo.blockCount && !Marked(geo, d, Blocks, b - geo.firstData)
    ensures b != 0 && IsData(geo, b) && Unused(geo, d, files, b)
  {
    FreeNotZero(geo, d, files, b);
    FilesInodes(geo, d, files);
    hide Layout, Shape, Sized, Marked, At, Items, NodeOk, OneOwner, FreeOk;
    forall j, q | j in files && Within(geo, q) ensures At(geo, d, j, q) != b {
      FreeUnused(geo, d, files, b, j, q);
    }
  }

  /** Block `b` is marked, holds no metadata, and is in none of the files, which are in order. */
  ghost predicate Prepared(geo: Geo, d: seq<byte>, sup: seq<byte>, files: set<nat>, b: nat) {
    && Accounts(geo, d, sup) && FilesOk(geo, d, files) && Volume(geo, d) && Unused(geo, d, files, b)
    && BlockOk(geo, d, b)
  }

  lemma KeptPrepared(geo: Geo, d: seq<byte>, sup: seq<byte>, d2: seq<byte>, files: set<nat>, b: nat)
    requires Prepared(geo, d, sup, files, b) && KeptFiles(geo, d, d2, files) && SameMarks(geo, d, d2)
    requires Accounts(geo, d2, sup)
    ensures Prepared(geo, d2, sup, files, b)
  {
    hide Accounts, FilesOk, Layout, Shape, Sized, KeptFiles, Marked, Unused, IsData;
    KeptSteady(geo, d, d2, files);
    KeptUnused(geo, d, d2, files, b);
    BlockItem(geo, b);
    assert SameMark(geo, d, d2, Blocks, b - geo.firstData);
  }

  lemma BlockStep(geo: Geo, d: seq<byte>, sup: seq<byte>, files: set<nat>, b: nat, t: seq<byte>, d2: seq<byte>)
    requires Prepared(geo, d, sup, files, b) && |t| == geo.bs && d2 == Put(geo, d, Data(b), t)
    ensures Prepared(geo, d2, sup, files, b) && KeptFiles(geo, d, d2, files) && SameMarks(geo, d, d2)
    ensures Reg(geo, d2, Data(b)) == t
  {
    hide Accounts, FilesOk, Layout, Shape, Sized, Put, KeptFiles, Marked, SameMarks, Reg, At, IsData;
    PutAccounts(geo, d, sup, Data(b), t);
    PutSameMarks(geo, d, Data(b), t);
    OtherBlock(geo, d, files, b, t);
    KeptPrepared(geo, d, sup, d2, files, b);
    DataPutBlock(geo, d, b, t, b);
  }

  lemma RecordStep(geo: Geo, d: seq<byte>, sup: seq<byte>, files: set<nat>, b: nat, c: nat, inode: seq<byte>,
                   d2: seq<byte>)
    requires Prepared(geo, d, sup, files, b) && Inode(geo, c) && c !in files && |inode| == INODE_SIZE
    requires d2 == Virtual(geo, d, c, inode)
    ensures Prepared(geo, d2, sup, files, b) && KeptFiles(geo, d, d2, files) && SameMarks(geo, d, d2)
    ensures Reg(geo, d2, Data(b)) == Reg(geo, d, Data(b)) && Rec(geo, d2, c) == Padded(geo, inode)
  {
    hide Accounts, FilesOk, Layout, Shape, Sized, Put, KeptFiles, Marked, SameMarks, Reg, At, IsData, Rec;
    PutAccounts(geo, d, sup, Record(c), Padded(geo, inode));
    PutSameMarks(geo, d, Record(c), Padded(geo, inode));
    OtherRecord(geo, d, files, c, inode);
    KeptPrepared(geo, d, sup, d2, files, b);
    RecordPutBlock(geo, d, c, Padded(geo, inode), b);
    VirtualRec(geo, d, c, inode, c);
    NotZero(geo, b);
  }

  lemma NotZero(geo: Geo, b: nat)
    requires Shape(geo) && IsData(geo, b) && geo.firstData <= b
    ensures 0 < b
  {
    hide Layout;
    assert Apart(geo, Data(b), Super);
  }

  /** Block and inode written: the files keep what they have. */
  lemma HouseFiles(geo: Geo, d: seq<byte>, sup: seq<byte>, files: set<nat>, c: nat, b: nat, t: seq<byte>,
                   inode: seq<byte>)
    requires Prepared(geo, d, sup, files, b) && Inode(geo, c) && c !in files && |t| == geo.bs && |inode| == INODE_SIZE
    ensures var d3 := GrownDisk(geo, d, c, inode, b, t);
            && Prepared(geo, d3, sup, files, b) && KeptFiles(geo, d, d3, files) && SameMarks(geo, d, d3)
            && Reg(geo, d3, Data(b)) == t && Rec(geo, d3, c) == Padded(geo, inode)
  {
    hide Accounts, FilesOk, Layout, Shape, Sized, Put, KeptFiles, Marked, SameMarks, Reg, Rec, Virtual, Unused;
    var d2 := Put(geo, d, Data(b), t);
    var d3 := GrownDisk(geo, d, c, inode, b, t);
    BlockStep(geo, d, sup, files, b, t, d2);
    RecordStep(geo, d2, sup, files, b, c, inode, d3);
    KeptMore(geo, d, d2, d3, files);
    MarksMore(geo, d, d2, d3);
  }

  lemma MarksMore(geo: Geo, d: seq<byte>, d1: seq<byte>, d2: seq<byte>)
    requires SameMarks(geo, d, d1) && SameMarks(geo, d1, d2)
    ensures SameMarks(geo, d, d2)
  {
    hide Volume, Marked, Items;
    forall k, m: nat | m < Items(geo, k) ensures SameMark(geo, d, d2, k, m) {
      assert SameMark(geo, d, d1, k, m) && SameMark(geo, d1, d2, k, m);
    }
  }

  /** The block of a new directory, as initialize_directory_block leaves it. */
  predicate DirBlock(t: seq<byte>, c: nat, p: nat) {
    && Whole(t) && Names(t) == [Binding(DOT, c, FT_DIR), Binding(DOTDOT, p, FT_DIR)]
    && UsedRecord(t, SECOND) && Name(t, SECOND) == DOTDOT
  }

  lemma HeadDirRec(rec: seq<byte>, bs: nat)
    requires |rec| >= INODE_SIZE && DirRec(rec[..INODE_SIZE], bs)
    ensures DirRec(rec, bs)
  {
    var c := rec[..INODE_SIZE];
    assert forall x :: 0 <= x < INODE_SIZE ==> c[x] == rec[x];
  }

  lemma HouseDir(geo: Geo, d: seq<byte>, sup: seq<byte>, files: set<nat>, c: nat, p: nat, b: nat, t: seq<byte>)
    requires Prepared(geo, d, sup, files, b)
    requires Inode(geo, c) && c !in files && 0 < b < LIMIT32 && geo.bs < LIMIT32 && DirBlock(t, c, p)
    requires Reg(geo, d, Data(b)) == t && Rec(geo, d, c) == Padded(geo, NewDir(geo.bs, b))
    ensures FilesOk(geo, d, files + {c}) && NewDirectory(geo, d, c, p, b)
  {
    hide Accounts, FilesOk, Layout, Shape, Sized, Put, Rec, Reg, At, Tiled, Bindings, NewDir, Pointer, Get16, Get32,
      Marked, BlocksOf, DirOk, DirMap, Linkable, HasParent;
    NewDirIs(geo.bs, b);
    var inode := NewDir(geo.bs, b);
    assert Padded(geo, inode)[..INODE_SIZE] == inode;
    HeadFields(Padded(geo, inode), inode);
    HeadLinks(Padded(geo, inode), inode);
    HeadDirRec(Padded(geo, inode), geo.bs);
    assert OneBlock(geo, d, c, b);
    OneMoreBlock(geo, d, files, c, b);
    OneDir(geo, d, c, b, p);
    OneParentEntry(geo, d, c, b);
    OneBlockOf(geo, d, c, b);
  }

  // ---------------------------------------------------------------- creation

  /** The volume with the new directory in it, and no name for it yet. */
  ghost predicate Housed(geo: Geo, d: seq<byte>, d2: seq<byte>, sup2: seq<byte>, files: set<nat>, p: nat, c: nat,
                         b: nat) {
    && Volume(geo, d) && Inode(geo, p) && Inode(geo, c) && c !in files && p in files && geo.firstData <= b
    && DirState(geo, d2, sup2, files + {c}, p) && DirMap(geo, d2, p) == DirMap(geo, d, p)
    && KeptFiles(geo, d, d2, files) && Live(geo, d2, files + {c}) && NewDirectory(geo, d2, c, p, b)
    && c - 1 in FreeInodes(geo, d) && FreeInodes(geo, d2) == FreeInodes(geo, d) - {c - 1}
    && b - geo.firstData in FreeBlocks(geo, d) && FreeBlocks(geo, d2) == FreeBlocks(geo, d) - {b - geo.firstData}
  }

  /** Inode `c` and block `b`, free on `d`, are marked on `d2`, which is otherwise the same. */
  ghost predicate Obtained(geo: Geo, d: seq<byte>, d1: seq<byte>, d2: seq<byte>, c: nat, b: nat) {
    && Volume(geo, d) && Volume(geo, d1) && Inode(geo, c) && geo.firstData <= b < geo.blockCount
    && !Marked(geo, d, Inodes, c - 1) && Turned(geo, d, d1, Inodes, c - 1, true)
    && !Marked(geo, d1, Blocks, b - geo.firstData) && Turned(geo, d1, d2, Blocks, b - geo.firstData, true)
  }

  lemma ObtainedKept(geo: Geo, d: seq<byte>, d1: seq<byte>, d2: seq<byte>, sup2: seq<byte>, files: set<nat>, c: nat,
                     b: nat)
    requires FilesOk(geo, d, files) && Obtained(geo, d, d1, d2, c, b) && Accounts(geo, d2, sup2)
    ensures Prepared(geo, d2, sup2, files, b) && KeptFiles(geo, d, d2, files) && 0 < b
  {
    hide Accounts, FilesOk, Layout, Shape, Sized, Marked, KeptFiles, Unused, SameContents, Steady, IsData, Turned;
    TurnedContents(geo, d, d1, Inodes, c - 1, true);
    TurnedContents(geo, d1, d2, Blocks, b - geo.firstData, true);
    InodeTurned(geo, d, d1, files, c - 1, true);
    ContentsKept(geo, d, d1, files);
    FreeIsUnused(geo, d1, files, b);
    TurnedSteady(geo, d1, d2, files, b - geo.firstData);
    SteadyOk(geo, d1, d2, files);
    ContentsKept(geo, d1, d2, files);
    KeptUnused(geo, d1, d2, files, b);
    KeptMore(geo, d, d1, d2, files);
    TurnedOn(geo, d1, d2, b);
  }

  lemma TurnedOn(geo: Geo, d: seq<byte>, d2: seq<byte>, b: nat)
    requires geo.firstData <= b < geo.blockCount && Turned(geo, d, d2, Blocks, b - geo.firstData, true)
    ensures Volume(geo, d2) && Marked(geo, d2, Blocks, b - geo.firstData)
  {
    hide Layout, Shape, Sized, Marked;
    BlockItem(geo, b);
    assert MarkedLike(geo, d, d2, Blocks, b - geo.firstData, true, Blocks, b - geo.firstData);
  }

  lemma ObtainedFree(geo: Geo, d: seq<byte>, d1: seq<byte>, d2: seq<byte>, files: set<nat>, c: nat, b: nat)
    requires Obtained(geo, d, d1, d2, c, b) && Live(geo, d, files)
    ensures Volume(geo, d2) && c !in files && Live(geo, d2, files + {c})
    ensures c - 1 in FreeInodes(geo, d) && FreeInodes(geo, d2) == FreeInodes(geo, d) - {c - 1}
    ensures b - geo.firstData in FreeBlocks(geo, d)
    ensures FreeBlocks(geo, d2) == FreeBlocks(geo, d) - {b - geo.firstData}
  {
    hide Layout, Shape, Sized, Marked, Turned, FreeBlocks, FreeInodes, Live;
    UnmarkedFree(geo, d, files, c);
    TurnedFree(geo, d, d1, c - 1, true);
    TurnedLive(geo, d, d1, files, c - 1, true);
    TurnedTakes(geo, d1, d2, b);
    BlockTurnedInodes(geo, d1, d2, files + {c}, b - geo.firstData);
  }

  /** A block marked or freed: the inodes. */
  lemma BlockTurnedInodes(geo: Geo, d: seq<byte>, d2: seq<byte>, files: set<nat>, n: nat)
    requires Turned(geo, d, d2, Blocks, n, true) && Live(geo, d, files)
    ensures Volume(geo, d2) && FreeInodes(geo, d2) == FreeInodes(geo, d) && Live(geo, d2, files)
  {
    TurnedVolumes(geo, d, d2, Blocks, n, true);
    hide Volume, Marked, SameContents;
    forall m: nat ensures m in FreeInodes(geo, d2) <==> m in FreeInodes(geo, d) {
      if m < Items(geo, Inodes) { assert MarkedLike(geo, d, d2, Blocks, n, true, Inodes, m); }
    }
    forall j | j in files ensures Marked(geo, d2, Inodes, j - 1) {
      assert MarkedLike(geo, d, d2, Blocks, n, true, Inodes, j - 1);
    }
  }

  lemma HousedIs(geo: Geo, d: seq<byte>, sup: seq<byte>, d1: seq<byte>, d2: seq<byte>, sup2: seq<byte>,
                 files: set<nat>, p: nat, c: nat, b: nat, t: seq<byte>, d3: seq<byte>)
    requires DirState(geo, d, sup, files, p) && Live(geo, d, files) && Obtained(geo, d, d1, d2, c, b)
    requires Accounts(geo, d2, sup2) && Volume(geo, d2) && DirBlock(t, c, p) && |t| == geo.bs
    requires geo.bs < LIMIT32 && b < LIMIT32 && d3 == GrownDisk(geo, d2, c, NewDir(geo.bs, b), b, t)
    ensures Housed(geo, d, d3, sup2, files, p, c, b) && SameMarks(geo, d2, d3)
  {
    hide Accounts, FilesOk, Layout, Shape, Sized, IsDir, DirOk, DirMap, Kept, FreeBlocks, FreeInodes, Live, SameMarks,
      NewDirectory, NewDir, DirBlock, Obtained, GrownDisk, Unused, BlockOk;
    ObtainedKept(geo, d, d1, d2, sup2, files, c, b);
    ObtainedFree(geo, d, d1, d2, files, c, b);
    assert Inode(geo, c) && geo.firstData <= b by { ObtainedRange(geo, d, d1, d2, c, b); }
    HouseFiles(geo, d2, sup2, files, c, b, t, NewDir(geo.bs, b));
    HouseDir(geo, d3, sup2, files, c, p, b, t);
    KeptMore(geo, d, d2, d3, files);
    MarksFree(geo, d2, d3);
    MarksLive(geo, d2, d3, files + {c});
    assert Kept(geo, d, d3, p);
    KeptDir(geo, d, sup, d3, sup2, files, files + {c}, p);
  }

  lemma ObtainedRange(geo: Geo, d: seq<byte>, d1: seq<byte>, d2: seq<byte>, c: nat, b: nat)
    requires Obtained(geo, d, d1, d2, c, b)
    ensures Inode(geo, c) && geo.firstData <= b < geo.blockCount
  {
  }

  /** Room for the name of a directory that takes a block itself. */
  ghost predicate RoomForDir(geo: Geo, d: seq<byte>, p: nat, n: nat)
    requires Volume(geo, d) && Inode(geo, p)
  {
    0 < n < 255 && (AnyRoom(geo, d, p, n) || (AnySlot(geo, d, p) && |FreeBlocks(geo, d)| > 1))
  }

  lemma CanAddLess(geo: Geo, d: seq<byte>, d2: seq<byte>, p: nat, n: nat, x: nat)
    requires Volume(geo, d) && Volume(geo, d2) && Inode(geo, p) && Kept(geo, d, d2, p)
    requires x in FreeBlocks(geo, d) && FreeBlocks(geo, d2) == FreeBlocks(geo, d) - {x}
    ensures AnyRoom(geo, d2, p, n) <==> AnyRoom(geo, d, p, n)
    ensures CanAdd(geo, d2, p, n) <==> RoomForDir(geo, d, p, n)
  {
    RoomSame(geo, d, d2, p, n);
    FullIsNone(geo, d2);
    hide Layout, Shape, Sized, Marked, FreeBlocks, Items, AnyRoom, AnySlot, Kept;
    assert |FreeBlocks(geo, d2)| == |FreeBlocks(geo, d)| - 1;
    assert FreeBlocks(geo, d2) == {} <==> |FreeBlocks(geo, d2)| == 0;
  }

  /** The free blocks after a directory with block `b` and a name of `n` bytes is created in `p`. */
  ghost predicate DirSpace(geo: Geo, d: seq<byte>, d2: seq<byte>, p: nat, n: nat, b: nat)
    requires Volume(geo, d) && Volume(geo, d2) && Inode(geo, p) && geo.firstData <= b
  {
    var rest := FreeBlocks(geo, d) - {b - geo.firstData};
    && b - geo.firstData in FreeBlocks(geo, d)
    && if AnyRoom(geo, d, p, n) then FreeBlocks(geo, d2) == rest
       else exists x :: x in rest && FreeBlocks(geo, d2) == rest - {x}
  }

  /** Directory `c` is new and holds its two entries; its name is in the parent, which has one more link. */
  ghost predicate DirCreated(geo: Geo, d: seq<byte>, d2: seq<byte>, sup2: seq<byte>, files: set<nat>, p: nat,
                             name: seq<byte>, c: nat, b: nat) {
    && Volume(geo, d) && Inode(geo, p) && Inode(geo, c) && c !in files && DirState(geo, d2, sup2, files + {c}, p)
    && DirMap(geo, d2, p) == DirMap(geo, d, p)[name := Target(c, FT_DIR)]
    && Links(geo, d2, p) == (Links(geo, d, p) + 1) % LIMIT16
    && KeptFiles(geo, d, d2, files - {p}) && Live(geo, d2, files + {c}) && NewDirectory(geo, d2, c, p, b)
    && c - 1 in FreeInodes(geo, d) && FreeInodes(geo, d2) == FreeInodes(geo, d) - {c - 1}
    && DirSpace(geo, d, d2, p, |name|, b)
  }

  /** Bitmaps and counts apart, nothing has changed. */
  lemma CountedAgain(geo: Geo, d: seq<byte>, sup: seq<byte>, d2: seq<byte>, sup2: seq<byte>, files: set<nat>, p: nat)
    requires DirState(geo, d, sup, files, p) && Live(geo, d, files) && Accounts(geo, d2, sup2)
    requires SameContents(geo, d, d2) && SameMarks(geo, d, d2)
    ensures DirState(geo, d2, sup2, files, p) && DirMap(geo, d2, p) == DirMap(geo, d, p)
    ensures Links(geo, d2, p) == Links(geo, d, p) && KeptFiles(geo, d, d2, files) && Live(geo, d2, files)
    ensures Rec(geo, d2, p) == Rec(geo, d, p)
    ensures FreeBlocks(geo, d2) == FreeBlocks(geo, d) && FreeInodes(geo, d2) == FreeInodes(geo, d)
  {
    hide Accounts, FilesOk, Layout, Shape, Sized, IsDir, DirOk, DirMap, Kept, FreeBlocks, FreeInodes, Live, SameMarks,
      SameContents, Links;
    ContentsKept(geo, d, d2, files);
    UncreatedIs(geo, d, sup, d2, sup2, files, p);
    assert Kept(geo, d, d2, p);
    KeptLinks(geo, d, d2, p);
  }

  /** The name is in, the parent has its link, the count of directories is changed. */
  lemma DirCreatedIs(geo: Geo, d: seq<byte>, d3: seq<byte>, sup3: seq<byte>, d5: seq<byte>, sup5: seq<byte>,
                     d6: seq<byte>, sup6: seq<byte>, files: set<nat>, p: nat, name: seq<byte>, c: nat, b: nat)
    requires Housed(geo, d, d3, sup3, files, p, c, b) && Listed(geo, d3, d5, files, p, c, |name|)
    requires DirState(geo, d5, sup5, files + {c}, p) && Links(geo, d5, p) == (Links(geo, d, p) + 1) % LIMIT16
    requires DirMap(geo, d5, p) == DirMap(geo, d3, p)[name := Target(c, FT_DIR)]
    requires Accounts(geo, d6, sup6) && SameContents(geo, d5, d6) && SameMarks(geo, d5, d6)
    ensures DirCreated(geo, d, d6, sup6, files, p, name, c, b)
  {
    hide Accounts, FilesOk, Layout, Shape, Sized, IsDir, DirOk, DirMap, Kept, FreeBlocks, FreeInodes, Live, SameMarks,
      SameContents, Links, NewDirectory, AnyRoom;
    CountedAgain(geo, d5, sup5, d6, sup6, files + {c}, p);
    assert c in files + {c} - {p} && c in files + {c};
    KeptTrans(geo, d3, d5, d6, c);
    KeptNew(geo, d3, d6, c, p, b);
    assert KeptFiles(geo, d3, d5, files - {p}) && KeptFiles(geo, d5, d6, files - {p});
    KeptMore(geo, d3, d5, d6, files - {p});
    assert KeptFiles(geo, d, d3, files - {p});
    KeptMore(geo, d, d3, d6, files - {p});
    assert Kept(geo, d, d3, p);
    RoomSame(geo, d, d3, p, |name|);
  }

  /** Block and inode given back. */
  lemma AllRefunded(geo: Geo, d: seq<byte>, sup: seq<byte>, d1: seq<byte>, d2: seq<byte>, d3: seq<byte>,
                    sup3: seq<byte>, d4: seq<byte>, d5: seq<byte>, sup5: seq<byte>, files: set<nat>, p: nat, c: nat,
                    b: nat)
    requires DirState(geo, d, sup, files, p) && Live(geo, d, files) && Obtained(geo, d, d1, d2, c, b)
    requires Housed(geo, d, d3, sup3, files, p, c, b) && SameMarks(geo, d2, d3)
    requires geo.firstData <= b && Turned(geo, d3, d4, Blocks, b - geo.firstData, false)
    requires Turned(geo, d4, d5, Inodes, c - 1, false) && Accounts(geo, d5, sup5)
    ensures Uncreated(geo, d, d5, sup5, files, p)
  {
    hide Accounts, FilesOk, Layout, Shape, Sized, IsDir, DirOk, DirMap, Kept, FreeBlocks, FreeInodes, Live, SameMarks,
      Turned, Marked, SameContents, Uncreated, NewDirectory;
    TurnedContents(geo, d3, d4, Blocks, b - geo.firstData, false);
    TurnedContents(geo, d4, d5, Inodes, c - 1, false);
    ContentsTrans(geo, d3, d4, d5);
    FewerFiles(geo, d3, files + {c}, c);
    assert files + {c} - {c} == files;
    ContentsKept(geo, d3, d5, files);
    KeptMore(geo, d, d3, d5, files);
    TurnedBack(geo, d1, d2, d3, d4, Blocks, b - geo.firstData);
    TurnedBack(geo, d, d1, d4, d5, Inodes, c - 1);
    UncreatedIs(geo, d, sup, d5, sup5, files, p);
  }

  /** No block: the inode given back. */
  lemma InodeRefunded(geo: Geo, d: seq<byte>, sup: seq<byte>, d1: seq<byte>, d2: seq<byte>, sup2: seq<byte>,
                      files: set<nat>, p: nat, c: nat)
    requires DirState(geo, d, sup, files, p) && Live(geo, d, files) && Inode(geo, c)
    requires !Marked(geo, d, Inodes, c - 1) && Turned(geo, d, d1, Inodes, c - 1, true)
    requires Turned(geo, d1, d2, Inodes, c - 1, false) && Accounts(geo, d2, sup2)
    ensures Uncreated(geo, d, d2, sup2, files, p)
  {
    hide Accounts, FilesOk, Layout, Shape, Sized, IsDir, DirOk, DirMap, Kept, FreeBlocks, FreeInodes, Live, SameMarks,
      Turned, Marked, SameContents, Uncreated;
    TurnedContents(geo, d, d1, Inodes, c - 1, true);
    TurnedContents(geo, d1, d2, Inodes, c - 1, false);
    ContentsTrans(geo, d, d1, d2);
    ContentsKept(geo, d, d2, files);
    SelfContents(geo, d1);
    TurnedBack(geo, d, d1, d1, d2, Inodes, c - 1);
    UncreatedIs(geo, d, sup, d2, sup2, files, p);
  }

  lemma TurnedUsed(geo: Geo, d: seq<byte>, d2: seq<byte>, kind: Kind, n: nat, v: bool, k: Kind, m: nat)
    requires Turned(geo, d, d2, kind, n, v) && m < Items(geo, k) && (k == kind && m == n ==> v)
    requires k != kind || m != n ==> Volume(geo, d) && Marked(geo, d, k, m)
    ensures Volume(geo, d2) && Alloc.Taken(geo, d2, k, m) && GroupOf(geo, k, m) < geo.groups
  {
    TurnedVolumes(geo, d, d2, kind, n, v);
    ItemPlace(geo, k, m);
    hide Marked, Layout, Shape, Sized, SameContents;
    assert MarkedLike(geo, d, d2, kind, n, v, k, m);
  }

  /** initialize_directory_block and the inode that points to the block. */
  method HouseNew(v: Io.Volume, p: nat, c: nat, b: nat, ghost d: seq<byte>, ghost sup: seq<byte>, ghost d1: seq<byte>,
                  ghost files: set<nat>)
    requires v.Ready() && Accounts(v.geo, v.disk, v.sup) && DirState(v.geo, d, sup, files, p) && Live(v.geo, d, files)
    requires Obtained(v.geo, d, d1, v.disk, c, b)
    modifies v`disk, v.bufBlock, v.bufSector
    ensures v.Ready() && Housed(v.geo, d, v.disk, v.sup, files, p, c, b) && SameMarks(v.geo, old(v.disk), v.disk)
    ensures SameRest(v.geo, old(v.disk), v.disk)
  {
    hide Accounts, Layout, IsDir, DirOk, DirMap, FilesOk, Live, Housed, SameMarks, Tiled, Bindings, Names, Whole,
      UsedRecord, Put, Virtual, NewDir, Marked, Turned, SameRest;
    SmallBlock(v.geo);
    InodeFits(v.geo, c);
    InodeFits(v.geo, p);
    BlockFits(v.geo, b);
    InRange(v.geo, c);
    ghost var d2 := v.disk;
    InitBlock(v.bufBlock, c, p);
    ghost var t := v.bufBlock[..];
    assert DirBlock(t, c, p);
    ObtainedSound(v.geo, d, d1, d2, files, c, b);
    PutAccounts(v.geo, d2, v.sup, Data(b), t);
    PutSameMarks(v.geo, d2, Data(b), t);
    Io.WriteBlock(v, b, v.bufBlock);
    PutInodeMarks(v.geo, v.disk, c, NewDir(v.geo.bs, b));
    RestMore(v.geo, d2, v.disk, Virtual(v.geo, v.disk, c, NewDir(v.geo.bs, b)));
    var _ := WriteInode(v, c, NewDir(v.geo.bs, b));
    HousedIs(v.geo, d, sup, d1, d2, v.sup, files, p, c, b, t, v.disk);
  }

  lemma ObtainedSound(geo: Geo, d: seq<byte>, d1: seq<byte>, d2: seq<byte>, files: set<nat>, c: nat, b: nat)
    requires FilesOk(geo, d, files) && Obtained(geo, d, d1, d2, c, b)
    ensures Sound(geo, Data(b))
  {
    hide FilesOk, Layout, Sized, Marked, Turned, Unused;
    InodeTurned(geo, d, d1, files, c - 1, true);
    FreeIsUnused(geo, d1, files, b);
  }

  /** The name, the link and the count. */
  method EnterDir(v: Io.Volume, p: nat, name: seq<byte>, c: nat, b: nat, inode: seq<byte>, ghost d: seq<byte>,
                  ghost files: set<nat>)
    returns (ok: bool)
    requires v.Ready() && Housed(v.geo, d, v.disk, v.sup, files, p, c, b) && name !in DirMap(v.geo, d, p)
    requires |inode| == INODE_SIZE && inode == Rec(v.geo, d, p)[..INODE_SIZE]
    modifies v`disk, v`sup, v.bufBlock, v.bufBitmap, v.bufSector
    ensures v.Ready() && (ok <==> RoomForDir(v.geo, d, p, |name|))
    ensures !ok ==> v.disk == old(v.disk) && v.sup == old(v.sup)
    ensures ok ==> DirCreated(v.geo, d, v.disk, v.sup, files, p, name, c, b)
    ensures ok ==> DirsCounted(v.geo, old(v.disk), v.disk, c, 1)
    ensures ok ==> ParentRec(Rec(v.geo, d, p), Rec(v.geo, v.disk, p), v.geo.bs, !AnyRoom(v.geo, d, p, |name|),
                             Field(LINKS, 2))
  {
    hide SameRest, DirsCounted, ParentRec, GrownRec, MetaOf, Accounts, FilesOk, Layout, Shape, IsDir, DirOk, DirMap,
      Kept, Sized, GroupOf, Rec, SameMarks, OthersSame, Live, CanAdd, AnyRoom, RoomForDir, NewDirectory, KeptFiles,
      FreeBlocks, FreeInodes, Pointer, PointersBut, Get16, Get32, Untimed, WithLinks, Virtual, Added, OneTaken,
      Listed, DirCreated, SameContents;
    ghost var d3, sup3, e := v.disk, v.sup, Binding(name, c, FT_DIR);
    HousedSame(v.geo, d, d3, sup3, files, p, c, b, |name|);
    InRange(v.geo, p);
    InodeFits(v.geo, c);
    var inode2;
    ok, inode2 := AddEntry(v, p, inode, Binding(name, c, FT_DIR), files + {c});
    if !ok {
      return;
    }
    ghost var d4 := v.disk;
    AddedFacts(v.geo, d3, d4, v.sup, files + {c}, p, e);
    GrownMeta(inode, inode2, v.geo.bs, !AnyRoom(v.geo, d3, p, |name|));
    HeadLinks(Rec(v.geo, d, p), inode);
    PutParent(v, p, inode2, (Get16(inode2, LINKS) + 1) % LIMIT16, files + {c});
    ghost var d5, sup5 := v.disk, v.sup;
    ListedIs(v.geo, d3, d4, v.sup, d5, files, p, c, e);
    LinkedRec(inode, inode2, (Get16(inode2, LINKS) + 1) % LIMIT16, v.geo.bs, !AnyRoom(v.geo, d, p, |name|));
    HeadParent(Rec(v.geo, d, p), Rec(v.geo, d5, p), v.geo.bs, !AnyRoom(v.geo, d, p, |name|), Field(LINKS, 2));
    RestMore(v.geo, d3, d4, d5);
    CountDirs(v, c, 1);
    DirsMore(v.geo, d3, d5, v.disk, c, 1);
    ListedState(v.geo, d3, d5, files, p, c, |name|);
    CountedAgain(v.geo, d5, sup5, v.disk, v.sup, files + {c}, p);
    DirCreatedIs(v.geo, d, d3, sup3, d5, sup5, v.disk, v.sup, files, p, name, c, b);
  }

  lemma ListedState(geo: Geo, d: seq<byte>, d2: seq<byte>, files: set<nat>, p: nat, c: nat, n: nat)
    requires Listed(geo, d, d2, files, p, c, n)
    ensures Live(geo, d2, files + {c})
  {
  }

  lemma LinkedRec(inode: seq<byte>, inode2: seq<byte>, n: nat, bs: nat, grown: bool)
    requires |inode| == |inode2| == INODE_SIZE && GrownRec(inode, inode2, bs, grown) && n < LIMIT16
    ensures ParentRec(inode, Untimed(WithLinks(inode2, n)), bs, grown, Field(LINKS, 2))
  {
    hide Untimed, Get32, Put16;
    var r := WithLinks(inode2, n);
    AgreePut16(inode2, LINKS, n);
    Put16Elsewhere(inode2, LINKS, n, SIZE);
    Put16Elsewhere(inode2, LINKS, n, SECTORS);
    UntimedFields(r);
    var grew := if grown then Extent() else {};
    AgreeMore(inode, inode2, r, grew, Field(LINKS, 2));
    AgreeMore(inode, r, Untimed(r), grew + Field(LINKS, 2), Times());
    assert grew + Field(LINKS, 2) + Times() == Times() + Field(LINKS, 2) + grew;
  }

  /** The parent is written back with another link count and without times. */
  method PutParent(v: Io.Volume, p: nat, inode: seq<byte>, n: nat, ghost files: set<nat>)
    requires v.Ready() && DirState(v.geo, v.disk, v.sup, files, p) && n < LIMIT16
    requires |inode| == INODE_SIZE && inode == Rec(v.geo, v.disk, p)[..INODE_SIZE]
    modifies v`disk, v.bufSector
    ensures v.Ready() && Stepped(v.geo, old(v.disk), v.disk, v.sup, files, p) && Links(v.geo, v.disk, p) == n
    ensures DirMap(v.geo, v.disk, p) == DirMap(v.geo, old(v.disk), p) && SameMarks(v.geo, old(v.disk), v.disk)
    ensures SameRest(v.geo, old(v.disk), v.disk)
    ensures Rec(v.geo, v.disk, p)[..INODE_SIZE] == Untimed(WithLinks(inode, n))
  {
    hide Accounts, FilesOk, Layout, IsDir, DirOk, DirMap, GroupOf, Virtual, Get16, Get32, WithLinks, Pointer, Untimed,
      SameMarks, SameRest;
    InRange(v.geo, p);
    WithLinksIs(inode, n);
    var inode2 := WithLinks(inode, n);
    UntimedIs(inode2);
    InodePut(v.geo, v.disk, v.sup, files, p, inode, Untimed(inode2));
    PutInodeMarks(v.geo, v.disk, p, Untimed(inode2));
    var _ := WriteInode(v, p, Untimed(inode2));
    HeadLinks(Rec(v.geo, v.disk, p), Untimed(inode2));
  }

  lemma HousedSame(geo: Geo, d: seq<byte>, d3: seq<byte>, sup3: seq<byte>, files: set<nat>, p: nat, c: nat, b: nat,
                   n: nat)
    requires Housed(geo, d, d3, sup3, files, p, c, b)
    ensures CanAdd(geo, d3, p, n) <==> RoomForDir(geo, d, p, n)
    ensures AnyRoom(geo, d3, p, n) <==> AnyRoom(geo, d, p, n)
    ensures DirState(geo, d3, sup3, files + {c}, p) && DirMap(geo, d3, p) == DirMap(geo, d, p)
    ensures Rec(geo, d3, p) == Rec(geo, d, p) && Live(geo, d3, files + {c})
  {
    hide Accounts, FilesOk, Layout, Shape, Sized, IsDir, DirOk, DirMap, FreeBlocks, FreeInodes, Live, Rec, CanAdd,
      NewDirectory, KeptAt, RoomForDir, AnyRoom;
    assert Kept(geo, d, d3, p);
    CanAddLess(geo, d, d3, p, n, b - geo.firstData);
  }

  /** ext2_create_dir once the parent is found. */
  method CreateDir(v: Io.Volume, p: nat, name: seq<byte>, ghost files: set<nat>) returns (r: Kerr, c: nat, b: nat)
    requires v.Ready() && DirState(v.geo, v.disk, v.sup, files, p) && Live(v.geo, v.disk, files)
    modifies v`disk, v`sup, v.bufBlock, v.bufBitmap, v.bufSector, v.bufInode
    ensures v.Ready() && (r == Good || r == Exists || r == NoSpace)
    ensures r == Exists <==> name in DirMap(v.geo, old(v.disk), p)
    ensures r == Exists ==> v.disk == old(v.disk) && v.sup == old(v.sup)
    ensures r == NoSpace <==>
              && name !in DirMap(v.geo, old(v.disk), p)
              && !(AnyInode(v.geo, old(v.disk)) && FreeBlocks(v.geo, old(v.disk)) != {} &&
                   RoomForDir(v.geo, old(v.disk), p, |name|))
    ensures r == NoSpace ==> Uncreated(v.geo, old(v.disk), v.disk, v.sup, files, p)
    ensures r == Good ==> DirCreated(v.geo, old(v.disk), v.disk, v.sup, files, p, name, c, b)
    ensures r == Good ==>
              && DirsCounted(v.geo, old(v.disk), v.disk, c, 1)
              && ParentRec(Rec(v.geo, old(v.disk), p), Rec(v.geo, v.disk, p), v.geo.bs,
                           !AnyRoom(v.geo, old(v.disk), p, |name|), Field(LINKS, 2))
    ensures r != Good ==> SameRest(v.geo, old(v.disk), v.disk)
  {
    hide SameRest, DirsCounted, ParentRec, AnyRoom, Accounts, FilesOk, Layout, Shape, IsDir, DirOk, DirMap, Kept,
      HitAt, Sized, GroupOf, Rec, SameMarks, OthersSame, Live, RoomForDir, AnyInode, Uncreated, Turned, Marked,
      Eligible, Housed, DirCreated, FreeBlocks, Get16;
    c, b := 0, 0;
    RestSelf(v.geo, v.disk);
    InRange(v.geo, p);
    ghost var d, sup := v.disk, v.sup;
    var f := FindEntry(v, p, name, files);
    if f.Hit? {
      return Exists, 0, 0;
    }
    var _, inode := ReadInode(v, p);
    var ok;
    ok, c := Alloc.AllocInode(v);
    AnyInodeIs(v.geo, d, ok, c);
    if !ok {
      UncreatedSame(v.geo, d, sup, files, p);
      return NoSpace, 0, 0;
    }
    ghost var d1 := v.disk;
    ok, b := Alloc.AllocBlock(v);
    AnyBlockIs(v.geo, d, d1, c, ok, b);
    if !ok {
      TurnedUsed(v.geo, d, d1, Inodes, c - 1, true, Inodes, c - 1);
      var _ := Alloc.FreeInode(v, c);
      InodeRefunded(v.geo, d, sup, d1, v.disk, v.sup, files, p, c);
      TurnedContents(v.geo, d, d1, Inodes, c - 1, true);
      TurnedContents(v.geo, d1, v.disk, Inodes, c - 1, false);
      RestMore(v.geo, d, d1, v.disk);
      return NoSpace, 0, 0;
    }
    ghost var d2 := v.disk;
    TurnedContents(v.geo, d, d1, Inodes, c - 1, true);
    TurnedContents(v.geo, d1, d2, Blocks, b - v.geo.firstData, true);
    RestMore(v.geo, d, d1, d2);
    HouseNew(v, p, c, b, d, sup, d1, files);
    ghost var d3 := v.disk;
    RestMore(v.geo, d, d2, d3);
    ok := EnterDir(v, p, name, c, b, inode, d, files);
    if ok {
      DirsMore(v.geo, d, d3, v.disk, c, 1);
      return Good, c, b;
    }
    GiveBack(v, p, c, b, d, sup, d1, d2, files);
    RestMore(v.geo, d, d3, v.disk);
    return NoSpace, 0, 0;
  }

  /** free_block and free_inode, for want of room for the name. */
  method GiveBack(v: Io.Volume, p: nat, c: nat, b: nat, ghost d: seq<byte>, ghost sup: seq<byte>, ghost d1: seq<byte>,
                  ghost d2: seq<byte>, ghost files: set<nat>)
    requires v.Ready() && DirState(v.geo, d, sup, files, p) && Live(v.geo, d, files) && Obtained(v.geo, d, d1, d2, c, b)
    requires Housed(v.geo, d, v.disk, v.sup, files, p, c, b) && SameMarks(v.geo, d2, v.disk)
    modifies v`disk, v`sup, v.bufBitmap, v.bufSector
    ensures v.Ready() && Uncreated(v.geo, d, v.disk, v.sup, files, p) && SameRest(v.geo, old(v.disk), v.disk)
  {
    hide FilesOk, Layout, Shape, IsDir, DirOk, DirMap, Kept, Sized, GroupOf, Rec, SameMarks, Live, Uncreated, Turned,
      Marked, FreeBlocks, FreeInodes, NewDirectory, KeptFiles, Accounts, SameRest;
    ghost var d3, sup3 := v.disk, v.sup;
    StillMarkedBoth(v.geo, d, d1, d2, d3, c, b);
    var _ := Alloc.FreeBlock(v, b);
    ghost var d4 := v.disk;
    TurnedUsed(v.geo, d3, d4, Blocks, b - v.geo.firstData, false, Inodes, c - 1);
    var _ := Alloc.FreeInode(v, c);
    AllRefunded(v.geo, d, sup, d1, d2, d3, sup3, d4, v.disk, v.sup, files, p, c, b);
    TurnedContents(v.geo, d3, d4, Blocks, b - v.geo.firstData, false);
    TurnedContents(v.geo, d4, v.disk, Inodes, c - 1, false);
    RestMore(v.geo, d3, d4, v.disk);
  }

  lemma StillMarkedBoth(geo: Geo, d: seq<byte>, d1: seq<byte>, d2: seq<byte>, d3: seq<byte>, c: nat, b: nat)
    requires Obtained(geo, d, d1, d2, c, b) && SameMarks(geo, d2, d3)
    ensures Volume(geo, d3) && Alloc.Taken(geo, d3, Blocks, b - geo.firstData) && Marked(geo, d3, Inodes, c - 1)
    ensures GroupOf(geo, Blocks, b - geo.firstData) < geo.groups
  {
    BlockItem(geo, b);
    hide Marked, Layout, Shape, Sized;
    TurnedUsed(geo, d, d1, Inodes, c - 1, true, Inodes, c - 1);
    TurnedUsed(geo, d1, d2, Blocks, b - geo.firstData, true, Inodes, c - 1);
    TurnedUsed(geo, d1, d2, Blocks, b - geo.firstData, true, Blocks, b - geo.firstData);
    assert SameMark(geo, d2, d3, Inodes, c - 1) && SameMark(geo, d2, d3, Blocks, b - geo.firstData);
  }

  lemma AnyBlockIs(geo: Geo, d: seq<byte>, d1: seq<byte>, c: nat, ok: bool, b: nat)
    requires Inode(geo, c) && Turned(geo, d, d1, Inodes, c - 1, true) && Volume(geo, d1)
    requires ok ==> geo.firstData <= b < geo.blockCount && !Marked(geo, d1, Blocks, b - geo.firstData)
    requires !ok ==> forall n: nat :: n < Items(geo, Blocks) ==> Marked(geo, d1, Blocks, n)
    ensures Volume(geo, d) && (ok <==> FreeBlocks(geo, d) != {})
  {
    TurnedFree(geo, d, d1, c - 1, true);
    FullIsNone(geo, d1);
    hide Volume, Marked, Turned, FreeBlocks;
  }

  // ---------------------------------------------------------------- removal

  ghost predicate NamesDir(geo: Geo, d: seq<byte>, p: nat, name: seq<byte>)
    requires Volume(geo, d) && Inode(geo, p)
  {
    name in DirMap(geo, d, p) && DirMap(geo, d, p)[name].ftype == FT_DIR
  }

  /** The directory is gone, with its blocks and its inode, and the parent has a link less. */
  ghost predicate DirRemoved(geo: Geo, d: seq<byte>, d2: seq<byte>, sup2: seq<byte>, files: set<nat>, p: nat,
                             name: seq<byte>, c: nat) {
    FileRemoved(geo, d, d2, sup2, files, p, name, c) && Links(geo, d2, p) == Fewer(Links(geo, d, p))
  }

  lemma OthersMore(geo: Geo, d: seq<byte>, d1: seq<byte>, d2: seq<byte>, files: set<nat>, i: nat)
    requires OthersSame(geo, d, d1, files, i) && OthersSame(geo, d1, d2, files, i)
    ensures OthersSame(geo, d, d2, files, i)
  {
    hide Layout, Shape, Sized, Kept;
    forall j | j in files && j != i ensures Kept(geo, d, d2, j) {
      KeptTrans(geo, d, d1, d2, j);
    }
  }

  lemma RemovedAgain(geo: Geo, d: seq<byte>, d3: seq<byte>, sup3: seq<byte>, d4: seq<byte>, sup4: seq<byte>,
                     files: set<nat>, p: nat, name: seq<byte>, c: nat)
    requires FileRemoved(geo, d, d3, sup3, files, p, name, c)
    requires Accounts(geo, d4, sup4) && SameContents(geo, d3, d4) && SameMarks(geo, d3, d4)
    ensures FileRemoved(geo, d, d4, sup4, files, p, name, c) && Links(geo, d4, p) == Links(geo, d3, p)
    ensures Rec(geo, d4, p) == Rec(geo, d3, p)
  {
    hide Accounts, FilesOk, Layout, Shape, Sized, IsDir, DirOk, DirMap, Kept, FreeBlocks, FreeInodes, Live, SameMarks,
      SameContents, Links, BlocksOf;
    CountedAgain(geo, d3, sup3, d4, sup4, files - {c}, p);
    assert KeptFiles(geo, d3, d4, files - {p, c});
    KeptMore(geo, d, d3, d4, files - {p, c});
  }

  lemma ReleasedLinks(geo: Geo, d: seq<byte>, d2: seq<byte>, sup2: seq<byte>, files: set<nat>, c: nat, p: nat)
    requires Released(geo, d, d2, sup2, files, c) && p in files && Inode(geo, p)
    ensures Volume(geo, d) && Volume(geo, d2) && Links(geo, d2, p) == Links(geo, d, p)
    ensures Rec(geo, d2, p) == Rec(geo, d, p)
  {
    hide Accounts, FilesOk, Layout, Shape, Sized, FreeBlocks, FreeInodes, Live, BlocksOf, Links, KeptAt;
    assert Kept(geo, d, d2, p);
    KeptLinks(geo, d, d2, p);
  }

  /** The parent gives up a link, if it has any. */
  method LeaveParent(v: Io.Volume, p: nat, ghost files: set<nat>)
    requires v.Ready() && DirState(v.geo, v.disk, v.sup, files, p)
    modifies v`disk, v.bufInode, v.bufSector
    ensures v.Ready() && DirState(v.geo, v.disk, v.sup, files, p)
    ensures DirMap(v.geo, v.disk, p) == DirMap(v.geo, old(v.disk), p)
    ensures OthersSame(v.geo, old(v.disk), v.disk, files, p)
    ensures SameMarks(v.geo, old(v.disk), v.disk) && Links(v.geo, v.disk, p) == Fewer(Links(v.geo, old(v.disk), p))
    ensures SameRest(v.geo, old(v.disk), v.disk)
    ensures LeftRec(v.geo, old(v.disk), v.disk, p)
  {
    hide Accounts, FilesOk, Layout, IsDir, DirOk, DirMap, GroupOf, Get16, SameMarks, OthersSame, SameRest, ParentRec,
      Untimed, WithLinks, GrownRec;
    RestSelf(v.geo, v.disk);
    InRange(v.geo, p);
    var _, inode := ReadInode(v, p);
    HeadLinks(Rec(v.geo, v.disk, p), inode);
    NoneChanged(v.geo, v.disk, files, p);
    SelfContents(v.geo, v.disk);
    if Get16(inode, LINKS) > 0 {
      PutParent(v, p, inode, Get16(inode, LINKS) - 1, files);
      SameGrown(inode, v.geo.bs);
      LinkedRec(inode, inode, Get16(inode, LINKS) - 1, v.geo.bs, false);
      HeadParent(old(Rec(v.geo, v.disk, p)), Rec(v.geo, v.disk, p), v.geo.bs, false, Field(LINKS, 2));
    }
  }

  /** The inode of a parent that had a link differs in links and times; one that had none is as it was. */
  ghost predicate LeftRec(geo: Geo, d: seq<byte>, d2: seq<byte>, p: nat)
    requires Volume(geo, d) && Volume(geo, d2) && Inode(geo, p)
  {
    if Links(geo, d, p) > 0 then ParentRec(Rec(geo, d, p), Rec(geo, d2, p), geo.bs, false, Field(LINKS, 2))
    else Rec(geo, d2, p) == Rec(geo, d, p)
  }

  /** ext2_remove_dir once the parent is found. */
  method RemoveDir(v: Io.Volume, p: nat, name: seq<byte>, ghost files: set<nat>) returns (r: Kerr)
    requires v.Ready() && DirState(v.geo, v.disk, v.sup, files, p) && Live(v.geo, v.disk, files)
    requires NamesDir(v.geo, v.disk, p, name) ==>
               var c := DirMap(v.geo, v.disk, p)[name].ino;
               c in files && c != p && (IsDir(v.geo, v.disk, c) ==> DirOk(v.geo, v.disk, c))
    modifies v`disk, v`sup, v.bufBitmap, v.bufSector, v.bufBlock, v.bufBlock3, v.bufBlock4, v.bufInode
    ensures v.Ready() && (r == Good || r == NotFound || r == IoError || r == Busy)
    ensures r == NotFound <==> !NamesDir(v.geo, old(v.disk), p, name)
    ensures r == IoError <==>
              NamesDir(v.geo, old(v.disk), p, name) &&
              !IsDir(v.geo, old(v.disk), DirMap(v.geo, old(v.disk), p)[name].ino)
    ensures r == Good || r == Busy ==> Inode(v.geo, DirMap(v.geo, old(v.disk), p)[name].ino)
    ensures r == Busy ==> !Bare(DirMap(v.geo, old(v.disk), DirMap(v.geo, old(v.disk), p)[name].ino))
    ensures r == Good ==> Bare(DirMap(v.geo, old(v.disk), DirMap(v.geo, old(v.disk), p)[name].ino))
    ensures r != Good ==> v.disk == old(v.disk) && v.sup == old(v.sup)
    ensures r == Good ==>
              DirRemoved(v.geo, old(v.disk), v.disk, v.sup, files, p, name, DirMap(v.geo, old(v.disk), p)[name].ino)
    ensures r == Good ==> LeftRec(v.geo, old(v.disk), v.disk, p)
    ensures r == Good ==>
              DirsFewer(v.geo, old(v.disk), v.disk, DirMap(v.geo, old(v.disk), p)[name].ino)
  {
    hide SameRest, ParentRec, DirsFewer, Accounts, FilesOk, Layout, Shape, IsDir, DirOk, DirMap, Kept, HitAt, Sized,
      GroupOf, Rec, Released, FileRemoved, SameMarks, SameContents, OthersSame, Live, Get16;
    InRange(v.geo, p);
    ghost var d := v.disk;
    var f := FindEntry(v, p, name, files);
    if !f.Hit? || f.ftype != FT_DIR {
      return NotFound;
    }
    FilesInodes(v.geo, d, files);
    InRange(v.geo, f.ino);
    var _, inode := ReadInode(v, f.ino);
    DirectoryByMode(v.geo, d, f.ino, inode);
    if !IsDirectory(inode) {
      return IoError;
    }
    var empty := DirectoryIsEmpty(v, f.ino, files);
    if !empty {
      return Busy;
    }
    var _ := RemoveEntry(v, p, name, files);
    ghost var d1 := v.disk;
    LeaveParent(v, p, files);
    ghost var d2, sup2 := v.disk, v.sup;
    OthersMore(v.geo, d, d1, d2, files, p);
    MarksMore(v.geo, d, d1, d2);
    MarksLive(v.geo, d, d2, files);
    var _ := FreeInodeAndBlocks(v, f.ino, files);
    ghost var d3, sup3 := v.disk, v.sup;
    FileRemovedIs(v.geo, d, sup2, d2, d3, sup3, files, p, name, f.ino);
    ReleasedLinks(v.geo, d2, d3, sup3, files, f.ino, p);
    assert Accounts(v.geo, d3, sup3) by { RemovedAccounts(v.geo, d, d3, sup3, files, p, name, f.ino); }
    RestMore(v.geo, d, d1, d2);
    RestMore(v.geo, d, d2, d3);
    CountDirs(v, f.ino, -1);
    FewerDirs(v.geo, d, d3, v.disk, f.ino);
    RemovedAgain(v.geo, d, d3, sup3, v.disk, v.sup, files, p, name, f.ino);
    return Good;
  }

  /** A directory less in the group of inode `c`, if any was counted there. */
  ghost predicate DirsFewer(geo: Geo, d: seq<byte>, d2: seq<byte>, c: nat) {
    && Volume(geo, d) && Volume(geo, d2) && Inode(geo, c) && 0 < PerGroup(geo, Inodes)
    && var h := GroupOf(geo, Inodes, c - 1);
    h < geo.groups && if Dirs(geo, d, h) > 0 then DirsCounted(geo, d, d2, c, -1) else SameRest(geo, d, d2)
  }

  lemma FewerDirs(geo: Geo, d: seq<byte>, d3: seq<byte>, d4: seq<byte>, c: nat)
    requires SameRest(geo, d, d3) && Inode(geo, c) && Volume(geo, d4) && 0 < PerGroup(geo, Inodes)
    requires var h := GroupOf(geo, Inodes, c - 1);
             && h < geo.groups && (Dirs(geo, d3, h) > 0 ==> DirsCounted(geo, d3, d4, c, -1))
             && (Dirs(geo, d3, h) == 0 ==> d4 == d3)
    ensures DirsFewer(geo, d, d4, c)
  {
    var h := GroupOf(geo, Inodes, c - 1);
    assert SameDesc(geo, d, d3, h);
    DirsKept(geo, d, d3, h);
    hide SameRest, DirsCounted, Layout, Shape, Sized, GroupOf, PerGroup, DescOf, Get16;
    if Dirs(geo, d, h) > 0 { DirsMore(geo, d, d3, d4, c, -1); }
  }

  lemma RemovedAccounts(geo: Geo, d: seq<byte>, d2: seq<byte>, sup2: seq<byte>, files: set<nat>, p: nat,
                        name: seq<byte>, c: nat)
    requires FileRemoved(geo, d, d2, sup2, files, p, name, c)
    ensures Accounts(geo, d2, sup2)
  {
  }

  lemma DirectoryByMode(geo: Geo, d: seq<byte>, i: nat, inode: seq<byte>)
    requires Volume(geo, d) && Inode(geo, i) && |inode| == INODE_SIZE && inode == Rec(geo, d, i)[..INODE_SIZE]
    ensures IsDir(geo, d, i) <==> IsDirectory(inode)
  {
    HeadFields(Rec(geo, d, i), inode);
  }

  // ---------------------------------------------------------------- creation and removal

  lemma DirCreatedThere(geo: Geo, d: seq<byte>, d1: seq<byte>, sup1: seq<byte>, files: set<nat>, p: nat,
                        name: seq<byte>, c: nat, b: nat)
    requires DirCreated(geo, d, d1, sup1, files, p, name, c, b) && p in files
    ensures DirState(geo, d1, sup1, files + {c}, p) && Live(geo, d1, files + {c}) && NamesDir(geo, d1, p, name)
    ensures DirMap(geo, d1, p)[name].ino == c && c != p && Inode(geo, c) && IsDir(geo, d1, c) && DirOk(geo, d1, c)
    ensures Bare(DirMap(geo, d1, c))
  {
    hide Accounts, FilesOk, Layout, Shape, Sized, IsDir, DirOk, DirMap, KeptFiles, Live, FreeBlocks, FreeInodes,
      AnyRoom, Links, Linkable, HasParent, BlocksOf;
  }

  lemma DirRestoredIs(geo: Geo, d: seq<byte>, d1: seq<byte>, sup1: seq<byte>, d2: seq<byte>, sup2: seq<byte>,
                      files: set<nat>, p: nat, name: seq<byte>, c: nat, b: nat)
    requires DirCreated(geo, d, d1, sup1, files, p, name, c, b) && name !in DirMap(geo, d, p)
    requires DirRemoved(geo, d1, d2, sup2, files + {c}, p, name, c)
    ensures Restored(geo, d, d2, sup2, files, p, name)
    ensures Links(geo, d2, p) == Fewer((Links(geo, d, p) + 1) % LIMIT16)
  {
    hide Accounts, FilesOk, Layout, Shape, Sized, IsDir, DirOk, DirMap, Kept, Live, FreeBlocks, FreeInodes, BlocksOf,
      AnyRoom, Rec, Links, Linkable, HasParent;
    assert files + {c} - {c} == files && files + {c} - {p, c} == files - {p};
    assert DirMap(geo, d, p)[name := Target(c, FT_DIR)] - {name} == DirMap(geo, d, p);
    KeptMore(geo, d, d1, d2, files - {p});
    assert FreeInodes(geo, d) - {c - 1} + {c - 1} == FreeInodes(geo, d);
    SpaceBack(geo, d, d1, d2, p, |name|, b);
  }

  /** The block of the directory comes back. */
  lemma SpaceBack(geo: Geo, d: seq<byte>, d1: seq<byte>, d2: seq<byte>, p: nat, n: nat, b: nat)
    requires Volume(geo, d) && Volume(geo, d1) && Volume(geo, d2) && Inode(geo, p) && geo.firstData <= b
    requires DirSpace(geo, d, d1, p, n, b) && FreeBlocks(geo, d2) == FreeBlocks(geo, d1) + {b - geo.firstData}
    ensures RoomTaken(geo, d, d2, p, n)
  {
    hide Layout, Shape, Sized, FreeBlocks, AnyRoom;
    var f, y := FreeBlocks(geo, d), b - geo.firstData;
    assert f - {y} + {y} == f;
    if !AnyRoom(geo, d, p, n) {
      var x :| x in f - {y} && FreeBlocks(geo, d1) == f - {y} - {x};
      assert f - {y} - {x} + {y} == f - {x};
    }
  }

  /** ext2_create_dir, then ext2_remove_dir of the same name. */
  method CreateThenRemoveDir(v: Io.Volume, p: nat, name: seq<byte>, ghost files: set<nat>) returns (w: Kerr, r: Kerr)
    requires v.Ready() && DirState(v.geo, v.disk, v.sup, files, p) && Live(v.geo, v.disk, files)
    modifies v`disk, v`sup, v.bufBitmap, v.bufSector, v.bufBlock, v.bufBlock3, v.bufBlock4, v.bufInode
    ensures v.Ready() && (w == Good ==> r == Good)
    ensures w == Good <==>
              && name !in DirMap(v.geo, old(v.disk), p) && AnyInode(v.geo, old(v.disk))
              && FreeBlocks(v.geo, old(v.disk)) != {} && RoomForDir(v.geo, old(v.disk), p, |name|)
    ensures w == Good ==>
              && Restored(v.geo, old(v.disk), v.disk, v.sup, files, p, name)
              && |v.sup| == |old(v.sup)| == SUPER_SIZE
              && Get32(v.sup, TotalAt(Inodes)) == Get32(old(v.sup), TotalAt(Inodes))
              && Get32(v.sup, TotalAt(Blocks)) ==
                 Get32(old(v.sup), TotalAt(Blocks)) - (if AnyRoom(v.geo, old(v.disk), p, |name|) then 0 else 1)
              && (Links(v.geo, v.disk, p) == Links(v.geo, old(v.disk), p) <==>
                  Links(v.geo, old(v.disk), p) < LIMIT16 - 1)
  {
    hide Accounts, FilesOk, Layout, Shape, Sized, IsDir, DirOk, DirMap, KeptFiles, Live, FreeBlocks, FreeInodes, Get32,
      AnyRoom, AnyInode, RoomForDir, Uncreated, Restored, FileRemoved, DirCreated, Bare, Rec;
    ghost var d, sup := v.disk, v.sup;
    var c, b;
    w, c, b := CreateDir(v, p, name, files);
    if w != Good {
      return w, w;
    }
    ghost var d1, sup1 := v.disk, v.sup;
    DirCreatedThere(v.geo, d, d1, sup1, files, p, name, c, b);
    r := RemoveDir(v, p, name, files + {c});
    DirRestoredIs(v.geo, d, d1, sup1, v.disk, v.sup, files, p, name, c, b);
    RestoredTotals(v.geo, d, sup, v.disk, v.sup, files, p, name);
    LinksFit(v.geo, d, p);
  }

  lemma LinksFit(geo: Geo, d: seq<byte>, p: nat)
    requires Volume(geo, d) && Inode(geo, p)
    ensures Links(geo, d, p) < LIMIT16
  {
  }
}
