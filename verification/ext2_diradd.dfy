/**
 Adding a name to a directory, in a block it has or in a new one, the emptiness test, and
 renaming within a directory by either of its two ways (src/fs/ext2/ext2_dir.c, ext2_file.c).
 */
module Ext2DirAdd {
  import opened Bits
  import opened Words
  import opened Ext2Layout
  import opened Ext2Space
  import opened Ext2Tree
  import opened Ext2Files
  import opened Ext2Spend
  import opened Ext2Write
  import opened Ext2DirBlock
  import opened Ext2DirScan
  import opened Ext2Names
  import opened Ext2Dir
  import Alloc = Ext2Alloc
  import Io = Ext2Io

  // ---------------------------------------------------------------- a new block

  /** The inode read is the one on disk: seen through it, all is as on disk. */
  lemma ReadVirtual(geo: Geo, d: seq<byte>, sup: seq<byte>, files: set<nat>, i: nat, inode: seq<byte>, j: nat, p: Path)
    requires Accounts(geo, d, sup) && FilesOk(geo, d, files) && i in files && Inode(geo, i) && |inode| == INODE_SIZE
    requires inode == Rec(geo, d, i)[..INODE_SIZE] && j in files && Within(geo, p)
    ensures Volume(geo, d) && Inode(geo, j) && FilesOk(geo, Virtual(geo, d, i, inode), files)
    ensures KeptAt(geo, d, Virtual(geo, d, i, inode), j, p)
  {
    hide Accounts, Layout, Shape, Sized, Put, Marked, Pointer, OneOwner, FreeOk, Node;
    StartOk(geo, d, sup, files, i, inode);
    HeadFields(Rec(geo, d, i), inode);
    assert PointersBut(Rec(geo, d, i), Padded(geo, inode), SLOTS);
    RecordPutAt(geo, d, files, i, SLOTS, Padded(geo, inode), j, p);
    assert NodeOk(geo, d, j, p);
    RecordPutBlock(geo, d, i, Padded(geo, inode), At(geo, d, j, p));
  }

  /** Entering a new block into slot `s` keeps every other block of every file. */
  lemma EnteredKept(geo: Geo, d: seq<byte>, d1: seq<byte>, files: set<nat>, i: nat, inode: seq<byte>, inode2: seq<byte>,
                    s: nat, b: nat, t: seq<byte>, j: nat, p: Path)
    requires |t| == geo.bs && Entering(geo, d, d1, files, i, inode, inode2, s, b) && j in files && Within(geo, p)
    requires !(j == i && p == Path(s, []))
    ensures Volume(geo, d1) && Volume(geo, Put(geo, d1, Data(b), t)) && Inode(geo, j)
    ensures KeptAt(geo, Virtual(geo, d, i, inode), Virtual(geo, Put(geo, d1, Data(b), t), i, inode2), j, p)
  {
    hide Layout, Shape, Sized, Marked, NotInner, Put, Virtual, Pointer, PointersBut, At, OneOwner, FreeOk, IsData;
    EnteringSteps(geo, d, d1, files, i, inode, inode2, s, b, t);
    EnteringAssigns(geo, d, d1, files, i, inode, inode2, s, b, t);
    var d2 := Put(geo, d1, Data(b), t);
    var v, v1, v2 := Virtual(geo, d, i, inode), Virtual(geo, d1, i, inode), Virtual(geo, d2, i, inode);
    VirtualAgain(geo, d2, i, inode, inode2);
    AssignAt(geo, v2, files, i, s, b, Padded(geo, inode2), j, p);
    TurnedSteady(geo, v, v1, files, b - geo.firstData);
    assert SameAt(geo, v, v1, j, p) && SameAt(geo, v1, v2, j, p) && NodeOk(geo, v, j, p);
    FreshUnused(geo, v, v1, files, b, j, p);
    var c := At(geo, v, j, p);
    if c != 0 {
      SameContentsBlock(geo, v, v1, c);
      DataPutBlock(geo, v1, b, t, c);
      RecordPutBlock(geo, v2, i, Padded(geo, inode2), c);
    }
  }

  /** The new block itself. */
  lemma EnteredBlock(geo: Geo, d: seq<byte>, d1: seq<byte>, files: set<nat>, i: nat, inode: seq<byte>,
                     inode2: seq<byte>, s: nat, b: nat, t: seq<byte>)
    requires |t| == geo.bs && Entering(geo, d, d1, files, i, inode, inode2, s, b)
    ensures Volume(geo, d1) && Volume(geo, Put(geo, d1, Data(b), t)) && 0 < b < geo.blockCount
    ensures Reg(geo, Virtual(geo, Put(geo, d1, Data(b), t), i, inode2), Data(b)) == t
  {
    hide Layout, Shape, Sized, Marked, NotInner, Put, Virtual, Pointer, PointersBut, At, FilesOk, IsData, Turned,
      Steady;
    EnteringSteps(geo, d, d1, files, i, inode, inode2, s, b, t);
    DataPutBlock(geo, d1, b, t, b);
    VirtualBlock(geo, Put(geo, d1, Data(b), t), i, inode2, b);
  }

  /** The inode with a new directory block: pointer, size and sector count. */
  function WithDirBlock(inode: seq<byte>, s: nat, b: nat, bs: nat): (r: seq<byte>)
    requires |inode| == INODE_SIZE && s < NDIR && b < LIMIT32
    ensures |r| == INODE_SIZE
  {
    Put32(WithBlock(inode, s, b, bs), SIZE, (Get32(inode, SIZE) + bs) % LIMIT32)
  }

  /** The inode of a directory with a block more, or none: size, sectors and direct pointers, and nothing else. */
  predicate GrownRec(a: seq<byte>, b: seq<byte>, bs: nat, grown: bool) {
    && AgreeBut(a, b, if grown then Extent() else {})
    && (Get32(b, SIZE) == if grown then (Get32(a, SIZE) + bs) % LIMIT32 else Get32(a, SIZE))
    && (Get32(b, SECTORS) == if grown then (Get32(a, SECTORS) + bs / 512) % LIMIT32 else Get32(a, SECTORS))
  }

  lemma GrownFields(inode: seq<byte>, r1: seq<byte>, r: seq<byte>, s: nat, b: nat, bs: nat)
    requires |inode| == |r1| == INODE_SIZE && GainsBlock(inode, r1, s, b, bs)
    requires r == Put32(r1, SIZE, (Get32(inode, SIZE) + bs) % LIMIT32)
    ensures GrownRec(inode, r, bs, true)
  {
    hide Put32, Get32, Pointer, PointersBut;
    var n := (Get32(inode, SIZE) + bs) % LIMIT32;
    Put32Get(r1, SIZE, n);
    Put32Elsewhere(r1, SIZE, n, SECTORS);
    AgreePut32(r1, SIZE, n);
    AgreeMore(inode, r1, r, Field(SECTORS, 4) + Field(BLOCK + 4 * s, 4), Field(SIZE, 4));
    assert Field(BLOCK + 4 * s, 4) <= Field(BLOCK, 4 * NDIR);
  }

  lemma SameGrown(inode: seq<byte>, bs: nat)
    requires |inode| >= INODE_SIZE
    ensures GrownRec(inode, inode, bs, false)
  {
  }

  lemma WithDirBlockIs(inode: seq<byte>, s: nat, b: nat, bs: nat)
    requires |inode| == INODE_SIZE && s < NDIR && b < LIMIT32
    ensures var r := WithDirBlock(inode, s, b, bs);
            && Pointer(r, s) == b && PointersBut(inode, r, s)
            && Get16(r, MODE) == Get16(inode, MODE) && (Pointer(inode, s) == 0 ==> GrownRec(inode, r, bs, true))
  {
    hide Put32, Get32, Get16, WithBlock, AgreeBut;
    WithBlockIs(inode, s, b, bs);
    var r1, n := WithBlock(inode, s, b, bs), (Get32(inode, SIZE) + bs) % LIMIT32;
    Put32Get(r1, SIZE, n);
    if Pointer(inode, s) == 0 { GrownFields(inode, r1, WithDirBlock(inode, s, b, bs), s, b, bs); }
    Put32Elsewhere(r1, SIZE, n, MODE);
    Put32Elsewhere(r1, SIZE, n, BLOCK + 4 * s);
    forall t | 0 <= t < SLOTS && t != s ensures Pointer(WithDirBlock(inode, s, b, bs), t) == Pointer(inode, t) {
      Put32Elsewhere(r1, SIZE, n, BLOCK + 4 * t);
    }
  }

  /** Block `b` is to hold `t` as the new block in slot `s` of the directory whose inode was just read. */
  ghost predicate Growing(geo: Geo, d: seq<byte>, sup: seq<byte>, d1: seq<byte>, files: set<nat>, i: nat,
                          inode: seq<byte>, inode2: seq<byte>, s: nat, b: nat, t: seq<byte>) {
    && Accounts(geo, d, sup) && FilesOk(geo, d, files) && Volume(geo, d) && Volume(geo, d1) && Inode(geo, i)
    && i in files
    && |inode| == INODE_SIZE && inode == Rec(geo, d, i)[..INODE_SIZE] && |t| == geo.bs
    && Entering(geo, d, d1, files, i, inode, inode2, s, b) && Get16(inode2, MODE) == Get16(inode, MODE)
  }

  /** The disk with the block and the inode written. */
  ghost function GrownDisk(geo: Geo, d1: seq<byte>, i: nat, inode2: seq<byte>, b: nat, t: seq<byte>): (d3: seq<byte>)
    requires Volume(geo, d1) && Inode(geo, i)
    ensures Volume(geo, d3)
  {
    if b < geo.blockCount && |inode2| == INODE_SIZE then Virtual(geo, Put(geo, d1, Data(b), t), i, inode2) else d1
  }

  lemma GrownPath(geo: Geo, d: seq<byte>, sup: seq<byte>, d1: seq<byte>, files: set<nat>, i: nat, inode: seq<byte>,
                  inode2: seq<byte>, s: nat, b: nat, t: seq<byte>, j: nat, p: Path)
    requires Growing(geo, d, sup, d1, files, i, inode, inode2, s, b, t)
    requires j in files && Within(geo, p) && !(j == i && p == Path(s, []))
    ensures Inode(geo, j) && KeptAt(geo, d, GrownDisk(geo, d1, i, inode2, b, t), j, p)
  {
    hide Accounts, FilesOk, Layout, Shape, Sized, Put, Virtual, Marked, Turned, Pointer, PointersBut, At, Reg, Get16;
    ReadVirtual(geo, d, sup, files, i, inode, j, p);
    EnteredKept(geo, d, d1, files, i, inode, inode2, s, b, t, j, p);
  }

  /** Only slot `s` changed, and it holds the names of `t`. */
  ghost predicate GrownSlot(geo: Geo, d: seq<byte>, d3: seq<byte>, i: nat, s: nat, names: seq<Binding>) {
    && SlotChanged(geo, d, d3, i, s) && SlotBlock(geo, d, i, s) == 0 && SlotNames(geo, d, i, s) == []
    && SlotWhole(geo, d3, i, s) && SlotNames(geo, d3, i, s) == names
  }

  lemma GrownSlots(geo: Geo, d: seq<byte>, sup: seq<byte>, d1: seq<byte>, files: set<nat>, i: nat, inode: seq<byte>,
                   inode2: seq<byte>, s: nat, b: nat, t: seq<byte>)
    requires Growing(geo, d, sup, d1, files, i, inode, inode2, s, b, t) && Whole(t)
    ensures GrownSlot(geo, d, GrownDisk(geo, d1, i, inode2, b, t), i, s, Names(t))
  {
    hide Accounts, FilesOk, Layout, Shape, Sized, Put, Virtual, Marked, Turned, PointersBut, At, Reg, Tiled, Bindings,
      Get16;
    EnteringSteps(geo, d, d1, files, i, inode, inode2, s, b, t);
    EnteredOk(geo, d, d1, files, i, inode, inode2, s, b, t);
    EnteredBlock(geo, d, d1, files, i, inode, inode2, s, b, t);
    SlotPointer(geo, d, files, i, inode, s);
    var d3 := GrownDisk(geo, d1, i, inode2, b, t);
    forall r: nat | r < NDIR && r != s ensures SameSlot(geo, d, d3, i, r) {
      DirectPathIs(geo, r);
      GrownPath(geo, d, sup, d1, files, i, inode, inode2, s, b, t, i, Path(r, []));
    }
  }

  lemma StillDir(geo: Geo, d: seq<byte>, d2: seq<byte>, i: nat, inode: seq<byte>, inode2: seq<byte>)
    requires IsDir(geo, d, i) && Volume(geo, d2) && |inode| == |inode2| == INODE_SIZE
    requires inode == Rec(geo, d, i)[..INODE_SIZE]
    requires Get16(inode2, MODE) == Get16(inode, MODE)
    ensures IsDir(geo, Virtual(geo, d2, i, inode2), i)
  {
    HeadFields(Rec(geo, d, i), inode);
    VirtualRec(geo, d2, i, inode2, i);
    assert Padded(geo, inode2)[..INODE_SIZE] == inode2;
    HeadFields(Padded(geo, inode2), inode2);
  }

  /** The volume stays in order. */
  lemma GrownFiles(geo: Geo, d: seq<byte>, sup: seq<byte>, d1: seq<byte>, sup1: seq<byte>, files: set<nat>, i: nat,
                   inode: seq<byte>, inode2: seq<byte>, s: nat, b: nat, t: seq<byte>)
    requires Growing(geo, d, sup, d1, files, i, inode, inode2, s, b, t) && Accounts(geo, d1, sup1) && IsDir(geo, d, i)
    ensures var d3 := GrownDisk(geo, d1, i, inode2, b, t);
            FilesOk(geo, d3, files) && Accounts(geo, d3, sup1) && IsDir(geo, d3, i)
  {
    hide Accounts, FilesOk, Layout, Shape, Sized, Put, Marked, Turned, PointersBut, At, Reg, Get16, IsDir, Steady,
      Pointer;
    EnteringSteps(geo, d, d1, files, i, inode, inode2, s, b, t);
    EnteredOk(geo, d, d1, files, i, inode, inode2, s, b, t);
    PutAccounts(geo, d1, sup1, Data(b), t);
    PutAccounts(geo, Put(geo, d1, Data(b), t), sup1, Record(i), Padded(geo, inode2));
    StillDir(geo, d, Put(geo, d1, Data(b), t), i, inode, inode2);
  }

  lemma GrownRecord(geo: Geo, d: seq<byte>, sup: seq<byte>, d1: seq<byte>, files: set<nat>, i: nat, inode: seq<byte>,
                    inode2: seq<byte>, s: nat, b: nat, t: seq<byte>, j: nat)
    requires Growing(geo, d, sup, d1, files, i, inode, inode2, s, b, t) && Inode(geo, j) && j != i
    ensures Rec(geo, GrownDisk(geo, d1, i, inode2, b, t), j) == Rec(geo, d, j)
  {
    hide Accounts, FilesOk, Layout, Shape, Sized, Put, Virtual, Marked, Turned, Pointer, PointersBut, Reg, Get16;
    EnteringSteps(geo, d, d1, files, i, inode, inode2, s, b, t);
    TurnedRecord(geo, d, d1, b - geo.firstData, j);
    DataPutRecord(geo, d1, b, t, j);
    VirtualRec(geo, Put(geo, d1, Data(b), t), i, inode2, j);
  }

  lemma GrownOthers(geo: Geo, d: seq<byte>, sup: seq<byte>, d1: seq<byte>, files: set<nat>, i: nat, inode: seq<byte>,
                    inode2: seq<byte>, s: nat, b: nat, t: seq<byte>)
    requires Growing(geo, d, sup, d1, files, i, inode, inode2, s, b, t)
    ensures OthersSame(geo, d, GrownDisk(geo, d1, i, inode2, b, t), files, i)
  {
    var d3 := GrownDisk(geo, d1, i, inode2, b, t);
    FilesInodes(geo, d, files);
    hide Growing, GrownDisk, KeptAt;
    forall j | j in files && j != i ensures Kept(geo, d, d3, j) {
      GrownRecord(geo, d, sup, d1, files, i, inode, inode2, s, b, t, j);
      forall p | Within(geo, p) ensures KeptAt(geo, d, d3, j, p) {
        GrownPath(geo, d, sup, d1, files, i, inode, inode2, s, b, t, j, p);
      }
    }
  }

  /** A directory with a new block holding one entry. */
  lemma GrownOk(geo: Geo, d: seq<byte>, sup: seq<byte>, d1: seq<byte>, sup1: seq<byte>, files: set<nat>, i: nat,
                inode: seq<byte>, inode2: seq<byte>, s: nat, b: nat, t: seq<byte>, e: Binding)
    requires Growing(geo, d, sup, d1, files, i, inode, inode2, s, b, t) && DirState(geo, d, sup, files, i)
    requires Accounts(geo, d1, sup1)
    requires Whole(t) && Names(t) == [e] && e.name !in DirMap(geo, d, i)
    ensures var d3 := GrownDisk(geo, d1, i, inode2, b, t);
            && DirState(geo, d3, sup1, files, i) && OthersSame(geo, d, d3, files, i)
            && DirMap(geo, d3, i) == DirMap(geo, d, i)[e.name := Target(e.ino, e.ftype)]
            && SlotChanged(geo, d, d3, i, s) && SlotBlock(geo, d, i, s) == 0
  {
    hide GrownDisk, Accounts, FilesOk, IsDir, DirOk, DirMap, Whole, Names, OthersSame, SlotChanged, SlotNames,
      SlotWhole, Volume, Entering;
    var d3 := GrownDisk(geo, d1, i, inode2, b, t);
    GrownFiles(geo, d, sup, d1, sup1, files, i, inode, inode2, s, b, t);
    GrownOthers(geo, d, sup, d1, files, i, inode, inode2, s, b, t);
    GrownSlots(geo, d, sup, d1, files, i, inode, inode2, s, b, t);
    assert InsertedAt([], [e], e, 0);
    SlotInserted(geo, d, d3, i, s, e);
  }

  // ---------------------------------------------------------------- adding a name

  /** The first block, if there is one, has its records where they were. */
  ghost predicate FirstStays(geo: Geo, d: seq<byte>, d2: seq<byte>, i: nat, e: Binding)
    requires Volume(geo, d) && Volume(geo, d2) && Inode(geo, i)
  {
    var b := SlotBlock(geo, d, i, 0);
    0 < b < geo.blockCount ==>
      SlotBlock(geo, d2, i, 0) == b && AllStay(Reg(geo, d, Data(b)), Reg(geo, d2, Data(b)), e)
  }

  /** The directory has the new name, and nothing else changed. */
  ghost predicate Added(geo: Geo, d: seq<byte>, d2: seq<byte>, sup2: seq<byte>, files: set<nat>, i: nat, e: Binding) {
    && Volume(geo, d) && Inode(geo, i) && DirState(geo, d2, sup2, files, i) && OthersSame(geo, d, d2, files, i)
    && DirMap(geo, d2, i) == DirMap(geo, d, i)[e.name := Target(e.ino, e.ftype)] && FirstStays(geo, d, d2, i, e)
  }

  /** A slot other than the first was written. */
  lemma FirstKept(geo: Geo, d: seq<byte>, d2: seq<byte>, i: nat, s: nat, e: Binding)
    requires SlotChanged(geo, d, d2, i, s) && (s != 0 || SlotBlock(geo, d, i, 0) == 0)
    ensures FirstStays(geo, d, d2, i, e)
  {
    hide Layout, Shape, Sized, Reg, At, AllStay, SlotBlock;
    if s != 0 {
      assert SameSlot(geo, d, d2, i, 0);
      if 0 < SlotBlock(geo, d, i, 0) < geo.blockCount { SameStays(Reg(geo, d, Data(SlotBlock(geo, d, i, 0))), e); }
    }
  }

  /** The first block was written. */
  lemma FirstPut(geo: Geo, d: seq<byte>, files: set<nat>, i: nat, b: nat, t: seq<byte>, e: Binding, d2: seq<byte>)
    requires Volume(geo, d) && Inode(geo, i) && b < geo.blockCount && |t| == geo.bs && d2 == Put(geo, d, Data(b), t)
    requires AllStay(Reg(geo, d, Data(b)), t, e) && Direct(geo, d, files, i, 0, b)
    ensures Volume(geo, d2) && FirstStays(geo, d, d2, i, e)
  {
    hide Layout, Shape, Reg, Put, AllStay, FilesOk;
    DirectBlock(geo, d, files, i, 0, b);
    DataPutSteady(geo, d, files, b, t);
    assert SameAt(geo, d, d2, i, Path(0, [])) by { DirectPathIs(geo, 0); }
    DataPutBlock(geo, d, b, t, b);
  }

  /** The block in slot `s` has room for an entry with a name of length `n`. */
  ghost predicate SlotRoom(geo: Geo, d: seq<byte>, i: nat, s: nat, n: nat)
    requires Volume(geo, d) && Inode(geo, i) && s < NDIR
  {
    var b := SlotBlock(geo, d, i, s);
    0 < b < geo.blockCount && HasRoom(Reg(geo, d, Data(b)), Size(n))
  }

  ghost predicate AnyRoom(geo: Geo, d: seq<byte>, i: nat, n: nat)
    requires Volume(geo, d) && Inode(geo, i)
  {
    exists s: nat :: s < NDIR && SlotRoom(geo, d, i, s, n)
  }

  ghost predicate AnySlot(geo: Geo, d: seq<byte>, i: nat)
    requires Volume(geo, d) && Inode(geo, i)
  {
    exists s: nat :: s < NDIR && SlotBlock(geo, d, i, s) == 0
  }

  /** A name of length `n` can be added: a record has room, or there is an empty slot and a free block. */
  ghost predicate CanAdd(geo: Geo, d: seq<byte>, i: nat, n: nat)
    requires Volume(geo, d) && Inode(geo, i)
  {
    0 < n < 255 && (AnyRoom(geo, d, i, n) || (AnySlot(geo, d, i) && !DiskFull(geo, d)))
  }

  /** A block of the directory with the entry inserted. */
  lemma InsertOk(geo: Geo, d: seq<byte>, sup: seq<byte>, files: set<nat>, i: nat, s: nat, b: nat, t: seq<byte>,
                 e: Binding)
    requires DirState(geo, d, sup, files, i) && Direct(geo, d, files, i, s, b) && e.name !in DirMap(geo, d, i)
    requires b < geo.blockCount
    requires |t| == geo.bs && Whole(Reg(geo, d, Data(b))) && Whole(t)
    requires Inserted(Names(Reg(geo, d, Data(b))), Names(t), e) && AllStay(Reg(geo, d, Data(b)), t, e)
    ensures Added(geo, d, Put(geo, d, Data(b), t), sup, files, i, e)
    ensures Rec(geo, Put(geo, d, Data(b), t), i) == Rec(geo, d, i) && SameMarks(geo, d, Put(geo, d, Data(b), t))
    ensures SameRest(geo, d, Put(geo, d, Data(b), t))
  {
    SlotIs(geo, d, files, i, s, b);
    hide Accounts, FilesOk, Layout, Shape, Sized, IsDir, DirOk, DirMap, Whole, Names, OthersSame, SlotChanged,
      SlotNames, SlotWhole, Put, Reg, Direct, Inserted, AllStay, FirstStays, SameMarks,
      SameRest;
    DirBlockPut(geo, d, files, i, s, b, t);
    DirPutRest(geo, d, sup, files, i, s, b, t);
    SlotInserted(geo, d, Put(geo, d, Data(b), t), i, s, e);
    DirRecord(geo, d, files, i, s, b, t);
    if s == 0 {
      FirstPut(geo, d, files, i, b, t, e, Put(geo, d, Data(b), t));
    } else {
      FirstKept(geo, d, Put(geo, d, Data(b), t), i, s, e);
    }
  }

  lemma DirRecord(geo: Geo, d: seq<byte>, files: set<nat>, i: nat, s: nat, b: nat, t: seq<byte>)
    requires Direct(geo, d, files, i, s, b) && b < geo.blockCount && |t| == geo.bs
    ensures Volume(geo, d) && Inode(geo, i) && Rec(geo, Put(geo, d, Data(b), t), i) == Rec(geo, d, i)
    ensures SameMarks(geo, d, Put(geo, d, Data(b), t)) && SameRest(geo, d, Put(geo, d, Data(b), t))
  {
    hide Layout, Shape, Sized, Reg, Put, NodeOk, OneOwner, FreeOk, SameMarks, SameRest;
    DirectBlock(geo, d, files, i, s, b);
    DataPutRecord(geo, d, b, t, i);
    PutSameMarks(geo, d, Data(b), t);
  }

  lemma SlotIs(geo: Geo, d: seq<byte>, files: set<nat>, i: nat, s: nat, b: nat)
    requires Direct(geo, d, files, i, s, b) && b < geo.blockCount && Volume(geo, d) && Inode(geo, i)
    requires Whole(Reg(geo, d, Data(b)))
    ensures SlotNames(geo, d, i, s) == Names(Reg(geo, d, Data(b)))
  {
  }

  lemma SlotIsWhole(geo: Geo, d: seq<byte>, sup: seq<byte>, files: set<nat>, i: nat, s: nat, b: nat)
    requires DirState(geo, d, sup, files, i) && Direct(geo, d, files, i, s, b)
    ensures b < geo.blockCount && |Reg(geo, d, Data(b))| == geo.bs && Whole(Reg(geo, d, Data(b)))
  {
    hide Accounts, Layout, Shape, Sized, Reg, Tiled, Unique, Span, NodeOk, OneOwner, FreeOk;
    assert SlotWhole(geo, d, i, s);
    DirectBlock(geo, d, files, i, s, b);
  }

  lemma SmallBlock(geo: Geo)
    requires Shape(geo)
    ensures 1024 <= geo.bs < LIMIT16
  {
  }

  /** Try the block in slot `s`. */
  method AddToSlot(v: Io.Volume, i: nat, inode: seq<byte>, s: nat, e: Binding, ghost files: set<nat>)
    returns (done: bool)
    requires v.Ready() && DirState(v.geo, v.disk, v.sup, files, i) && s < NDIR && |inode| == INODE_SIZE
    requires inode == Rec(v.geo, v.disk, i)[..INODE_SIZE]
    requires Pointer(inode, s) != 0 && e.name !in DirMap(v.geo, v.disk, i) && 0 < e.ino < LIMIT32 && |e.name| < 255
    modifies v`disk, v.bufBlock
    ensures v.Ready() && (done ==> Added(v.geo, old(v.disk), v.disk, v.sup, files, i, e))
    ensures !done ==> v.disk == old(v.disk)
    ensures Rec(v.geo, v.disk, i) == Rec(v.geo, old(v.disk), i)
    ensures done ==> SameMarks(v.geo, old(v.disk), v.disk) && SameRest(v.geo, old(v.disk), v.disk)
    ensures done <==> SlotRoom(v.geo, old(v.disk), i, s, |e.name|)
  {
    hide Accounts, FilesOk, Layout, IsDir, DirOk, DirMap, Whole, Names, Put, Reg, Direct, Inserted, Added, Pointer, At,
      HasRoom, Size, SameMarks, SameRest;
    SlotPointer(v.geo, v.disk, files, i, inode, s);
    var b := Pointer(inode, s);
    SlotIsWhole(v.geo, v.disk, v.sup, files, i, s, b);
    SmallBlock(v.geo);
    Io.ReadBlock(v, b, v.bufBlock);
    var r := InsertInBlock(v.bufBlock, e);
    if !r.Found? {
      return false;
    }
    InsertOk(v.geo, v.disk, v.sup, files, i, s, b, v.bufBlock[..], e);
    Io.WriteBlock(v, b, v.bufBlock);
    return true;
  }

  /** The first loop of append_or_replace_directory_entry: the blocks the directory has. */
  method AddToBlocks(v: Io.Volume, i: nat, inode: seq<byte>, e: Binding, ghost files: set<nat>) returns (done: bool)
    requires v.Ready() && DirState(v.geo, v.disk, v.sup, files, i) && |inode| == INODE_SIZE
    requires inode == Rec(v.geo, v.disk, i)[..INODE_SIZE]
    requires e.name !in DirMap(v.geo, v.disk, i) && 0 < e.ino < LIMIT32 && |e.name| < 255
    modifies v`disk, v.bufBlock
    ensures v.Ready() && (done ==> Added(v.geo, old(v.disk), v.disk, v.sup, files, i, e))
    ensures !done ==> v.disk == old(v.disk)
    ensures Rec(v.geo, v.disk, i) == Rec(v.geo, old(v.disk), i)
    ensures done ==> SameMarks(v.geo, old(v.disk), v.disk) && SameRest(v.geo, old(v.disk), v.disk)
    ensures done <==> AnyRoom(v.geo, old(v.disk), i, |e.name|)
  {
    hide Accounts, FilesOk, IsDir, DirOk, DirMap, Added, Pointer, Layout, Shape, HasRoom, Reg, Size, SlotBlock, Rec,
      SameMarks, SameRest;
    ghost var d := v.disk;
    var s := 0;
    while s < NDIR
      invariant s <= NDIR && v.Ready() && v.disk == d && forall r: nat :: r < s ==> !SlotRoom(v.geo, d, i, r, |e.name|)
    {
      SlotPointer(v.geo, v.disk, files, i, inode, s);
      if Pointer(inode, s) != 0 {
        done := AddToSlot(v, i, inode, s, e, files);
        if done {
          return true;
        }
      }
      s := s + 1;
    }
    return false;
  }

  /** A whole block that is one record. */
  lemma OneRecordBlock(t: seq<byte>, e: Binding)
    requires |t| < LIMIT16 && 0 < e.ino < LIMIT32 && |e.name| < 256 && HEADER + |e.name| <= |t|
    requires t == RecordBytes(e.ino, |t|, e.name, e.ftype)
    ensures Whole(t) && Names(t) == [e]
  {
    hide RecordBytes;
    assert t[0..0 + |t|] == t;
    RecordReads(t, 0, e.ino, |t|, e.name, e.ftype);
  }

  /** Write `t` to block `b`, through the block buffer. */
  method PutBlock(v: Io.Volume, b: nat, t: seq<byte>)
    requires v.Ready() && b < v.geo.blockCount && |t| == v.geo.bs
    modifies v`disk, v.bufBlock
    ensures v.Ready() && v.disk == Put(v.geo, old(v.disk), Data(b), t)
  {
    hide Shape, Layout;
    Poke(v.bufBlock, 0, t);
    WholePoke(v.bufBlock[..], old(v.bufBlock[..]), t);
    Io.WriteBlock(v, b, v.bufBlock);
  }

  /** Write block `b`, then the inode that points to it. */
  method EnterBlock(v: Io.Volume, i: nat, inode2: seq<byte>, b: nat, t: seq<byte>)
    requires v.Ready() && Accounts(v.geo, v.disk, v.sup) && Inode(v.geo, i) && |inode2| == INODE_SIZE && |t| == v.geo.bs
    requires b < v.geo.blockCount && Sound(v.geo, Data(b))
    modifies v`disk, v.bufBlock, v.bufSector
    ensures v.Ready() && v.disk == GrownDisk(v.geo, old(v.disk), i, inode2, b, t)
    ensures Rec(v.geo, v.disk, i)[..INODE_SIZE] == inode2
  {
    hide Accounts, Shape, Layout, Virtual, Put, Sized;
    InRange(v.geo, i);
    PutAccounts(v.geo, v.disk, v.sup, Data(b), t);
    PutBlock(v, b, t);
    ghost var d := v.disk;
    var ok := WriteInode(v, i, inode2);
    VirtualRec(v.geo, d, i, inode2, i);
    assert Padded(v.geo, inode2)[..INODE_SIZE] == inode2;
  }

  /** A new block for the directory, in the empty slot `s`. */
  method AddBlock(v: Io.Volume, i: nat, inode: seq<byte>, s: nat, e: Binding, ghost files: set<nat>)
    returns (ok: bool, inode2: seq<byte>)
    requires v.Ready() && DirState(v.geo, v.disk, v.sup, files, i) && s < NDIR && |inode| == INODE_SIZE
    requires inode == Rec(v.geo, v.disk, i)[..INODE_SIZE]
    requires Pointer(inode, s) == 0 && e.name !in DirMap(v.geo, v.disk, i) && 0 < e.ino < LIMIT32 && |e.name| < 255
    modifies v`disk, v`sup, v.bufBlock, v.bufBitmap, v.bufSector
    ensures v.Ready() && |inode2| == INODE_SIZE
    ensures ok ==>
              Added(v.geo, old(v.disk), v.disk, v.sup, files, i, e) && inode2 == Rec(v.geo, v.disk, i)[..INODE_SIZE]
    ensures ok ==> GrownRec(inode, inode2, v.geo.bs, true)
    ensures !ok ==> v.disk == old(v.disk) && v.sup == old(v.sup) && inode2 == inode
    ensures !ok <==> DiskFull(v.geo, old(v.disk))
    ensures ok ==> OneTaken(v.geo, old(v.disk), v.disk) && SameRest(v.geo, old(v.disk), v.disk)
  {
    hide Accounts, FilesOk, Layout, Shape, IsDir, DirOk, DirMap, Whole, Names, Put, Reg, Turned, Marked, Pointer,
      PointersBut, Get16, Virtual, WithDirBlock, RecordBytes, GrownDisk, Added, OneTaken, GrownRec, SameRest;
    SmallBlock(v.geo);
    ghost var d, sup := v.disk, v.sup;
    inode2 := inode;
    var b;
    ok, b := Alloc.AllocBlock(v);
    if !ok {
      return;
    }
    BlockFits(v.geo, b);
    inode2 := WithDirBlock(inode, s, b, v.geo.bs);
    WithDirBlockIs(inode, s, b, v.geo.bs);
    var t := RecordBytes(e.ino, v.geo.bs, e.name, e.ftype);
    OneRecordBlock(t, e);
    AddPlan(v.geo, d, sup, v.disk, v.sup, files, i, inode, inode2, s, b, t, e);
    EnterBlock(v, i, inode2, b, t);
  }

  lemma WholePoke(c: seq<byte>, b: seq<byte>, t: seq<byte>)
    requires |t| == |b| && c == Splice(b, 0, t)
    ensures c == t
  {
  }

  lemma AddPlan(geo: Geo, d: seq<byte>, sup: seq<byte>, d1: seq<byte>, sup1: seq<byte>, files: set<nat>, i: nat,
                inode: seq<byte>, inode2: seq<byte>, s: nat, b: nat, t: seq<byte>, e: Binding)
    requires DirState(geo, d, sup, files, i) && Accounts(geo, d1, sup1) && |t| == geo.bs && Whole(t) && Names(t) == [e]
    requires e.name !in DirMap(geo, d, i)
    requires |inode| == |inode2| == INODE_SIZE && inode == Rec(geo, d, i)[..INODE_SIZE]
    requires Get16(inode2, MODE) == Get16(inode, MODE)
    requires geo.firstData <= b < geo.blockCount && !Marked(geo, d, Blocks, b - geo.firstData)
    requires Turned(geo, d, d1, Blocks, b - geo.firstData, true)
    requires s < NDIR && Pointer(inode, s) == 0 && Pointer(inode2, s) == b && PointersBut(inode, inode2, s)
    ensures Volume(geo, d1) && Sound(geo, Data(b))
    ensures Added(geo, d, GrownDisk(geo, d1, i, inode2, b, t), sup1, files, i, e)
    ensures OneTaken(geo, d, GrownDisk(geo, d1, i, inode2, b, t))
    ensures SameRest(geo, d, GrownDisk(geo, d1, i, inode2, b, t))
  {
    hide SameRest, Accounts, Layout, Shape, Sized, IsDir, DirOk, DirMap, Whole, Names, Put, Reg, At, Marked, Pointer,
      PointersBut, Get16, Get32, Virtual, FilesOk, Turned, OneTaken, GrownDisk;
    StartOk(geo, d, sup, files, i, inode);
    TurnedRecord(geo, d, d1, b - geo.firstData, i);
    EnteringSteps(geo, d, d1, files, i, inode, inode2, s, b, t);
    GrownOk(geo, d, sup, d1, sup1, files, i, inode, inode2, s, b, t, e);
    FirstKept(geo, d, GrownDisk(geo, d1, i, inode2, b, t), i, s, e);
    GrownMarks(geo, d, d1, i, inode2, b, t);
  }

  /** One free block is marked now; no other item changed. */
  ghost predicate OneTaken(geo: Geo, d: seq<byte>, d2: seq<byte>) {
    && Volume(geo, d) && Volume(geo, d2)
    && exists n: nat :: n < Items(geo, Blocks) && !Marked(geo, d, Blocks, n) && TakesOnly(geo, d, d2, n)
  }

  ghost predicate TakesOnly(geo: Geo, d: seq<byte>, d2: seq<byte>, n: nat)
    requires Volume(geo, d) && Volume(geo, d2)
  {
    forall k, m: nat :: m < Items(geo, k) ==> MarkedLike(geo, d, d2, Blocks, n, true, k, m)
  }

  lemma GrownMarks(geo: Geo, d: seq<byte>, d1: seq<byte>, i: nat, inode2: seq<byte>, b: nat, t: seq<byte>)
    requires Volume(geo, d) && geo.firstData <= b < geo.blockCount && !Marked(geo, d, Blocks, b - geo.firstData)
    requires Turned(geo, d, d1, Blocks, b - geo.firstData, true) && Volume(geo, d1) && Sound(geo, Data(b))
    requires Inode(geo, i) && |inode2| == INODE_SIZE && |t| == geo.bs
    ensures OneTaken(geo, d, GrownDisk(geo, d1, i, inode2, b, t))
    ensures SameRest(geo, d, GrownDisk(geo, d1, i, inode2, b, t))
  {
    hide Layout, Shape, Sized, Put, Marked, SameContents, SameRest;
    var d2, d3 := Put(geo, d1, Data(b), t), GrownDisk(geo, d1, i, inode2, b, t);
    PutSameMarks(geo, d1, Data(b), t);
    PutSameMarks(geo, d2, Record(i), Padded(geo, inode2));
    RestMore(geo, d, d1, d2);
    RestMore(geo, d, d2, d3);
    var n := b - geo.firstData;
    forall k, m: nat | m < Items(geo, k) ensures MarkedLike(geo, d, d3, Blocks, n, true, k, m) {
      assert SameMark(geo, d1, d2, k, m) && SameMark(geo, d2, d3, k, m);
      assert MarkedLike(geo, d, d1, Blocks, n, true, k, m);
    }
    assert TakesOnly(geo, d, d3, n);
  }

  /** append_or_replace_directory_entry: the name goes into a block with room, or into a new block. */
  method AddEntry(v: Io.Volume, i: nat, inode: seq<byte>, e: Binding, ghost files: set<nat>)
    returns (ok: bool, inode2: seq<byte>)
    requires v.Ready() && DirState(v.geo, v.disk, v.sup, files, i) && |inode| == INODE_SIZE
    requires inode == Rec(v.geo, v.disk, i)[..INODE_SIZE]
    requires e.name !in DirMap(v.geo, v.disk, i) && 0 < e.ino < LIMIT32
    modifies v`disk, v`sup, v.bufBlock, v.bufBitmap, v.bufSector
    ensures v.Ready() && |inode2| == INODE_SIZE
    ensures ok ==>
              Added(v.geo, old(v.disk), v.disk, v.sup, files, i, e) && inode2 == Rec(v.geo, v.disk, i)[..INODE_SIZE]
    ensures !ok ==> v.disk == old(v.disk) && v.sup == old(v.sup)
    ensures ok <==> CanAdd(v.geo, old(v.disk), i, |e.name|)
    ensures ok && AnyRoom(v.geo, old(v.disk), i, |e.name|) ==> v.sup == old(v.sup) && inode2 == inode
    ensures ok && AnyRoom(v.geo, old(v.disk), i, |e.name|) ==> SameMarks(v.geo, old(v.disk), v.disk)
    ensures ok && !AnyRoom(v.geo, old(v.disk), i, |e.name|) ==> OneTaken(v.geo, old(v.disk), v.disk)
    ensures ok ==> SameRest(v.geo, old(v.disk), v.disk)
    ensures ok ==> GrownRec(inode, inode2, v.geo.bs, !AnyRoom(v.geo, old(v.disk), i, |e.name|))
  {
    hide Accounts, FilesOk, IsDir, DirOk, DirMap, Added, Pointer, Layout, Shape, DiskFull, SlotRoom, AnyRoom, SlotBlock,
      Rec, GrownRec, SameMarks, OneTaken, SameRest;
    SameGrown(inode, v.geo.bs);
    inode2 := inode;
    if |e.name| == 0 || |e.name| >= 255 {
      return false, inode;
    }
    ok := AddToBlocks(v, i, inode, e, files);
    if ok {
      return true, inode;
    }
    var s := 0;
    while s < NDIR
      invariant s <= NDIR && v.Ready() && v.disk == old(v.disk) && v.sup == old(v.sup)
      invariant forall r: nat :: r < s ==> SlotBlock(v.geo, v.disk, i, r) != 0
    {
      SlotPointer(v.geo, v.disk, files, i, inode, s);
      if Pointer(inode, s) == 0 {
        ok, inode2 := AddBlock(v, i, inode, s, e, files);
        return;
      }
      s := s + 1;
    }
    return false, inode;
  }

  // ---------------------------------------------------------------- the emptiness test

  /** Only "." and ".." are bound. */
  ghost predicate Bare(m: map<seq<byte>, Target>) {
    forall n :: n in m ==> n == DOT || n == DOTDOT
  }

  lemma BareIs(list: seq<Binding>)
    ensures Bare(MapOf(list)) <==> OnlyDots(list)
  {
    forall k | 0 <= k < |list| ensures list[k].name in MapOf(list) {
      MapDomain(list, list[k].name);
    }
    forall n | n in MapOf(list) ensures exists k :: 0 <= k < |list| && list[k].name == n {
      MapDomain(list, n);
    }
  }

  lemma DotsSplit(a: seq<Binding>, b: seq<Binding>)
    ensures OnlyDots(a + b) <==> OnlyDots(a) && OnlyDots(b)
  {
    forall k | 0 <= k < |a| ensures (a + b)[k] == a[k] {
    }
    forall k | 0 <= k < |b| ensures (a + b)[|a| + k] == b[k] {
    }
  }

  /** The block in slot `s`, if there is one, holds no other names. */
  method SlotIsBare(v: Io.Volume, i: nat, inode: seq<byte>, s: nat, ghost files: set<nat>) returns (r: bool)
    requires v.Ready() && FilesOk(v.geo, v.disk, files) && i in files && Inode(v.geo, i) && s < NDIR
    requires |inode| == INODE_SIZE && inode == Rec(v.geo, v.disk, i)[..INODE_SIZE]
    modifies v.bufBlock
    ensures SlotWhole(v.geo, v.disk, i, s) ==> (r <==> OnlyDots(SlotNames(v.geo, v.disk, i, s)))
  {
    SlotPointer(v.geo, v.disk, files, i, inode, s);
    hide FilesOk, Layout, At, Tiled, Get16, Get32, Reg, Bindings;
    var b := Pointer(inode, s);
    if b == 0 {
      return true;
    }
    Io.ReadBlock(v, b, v.bufBlock);
    var f := FindOther(v.bufBlock);
    return f.Absent?;
  }

  /** directory_is_empty. */
  method DirectoryIsEmpty(v: Io.Volume, i: nat, ghost files: set<nat>) returns (r: bool)
    requires v.Ready() && Accounts(v.geo, v.disk, v.sup) && FilesOk(v.geo, v.disk, files)
    requires InodeInRange(v.geo, i) && (Inode(v.geo, i) ==> i in files)
    modifies v.bufBlock, v.bufInode, v.bufSector
    ensures !IsDir(v.geo, v.disk, i) ==> !r
    ensures IsDir(v.geo, v.disk, i) && DirOk(v.geo, v.disk, i) ==> (r <==> Bare(DirMap(v.geo, v.disk, i)))
  {
    hide Accounts, FilesOk, Layout, Get16, Get32, SlotNames, SlotWhole, Shape, Sized, GroupOf, Rec, Bare, OnlyDots;
    var ok, inode := ReadInode(v, i);
    if ok { HeadFields(Rec(v.geo, v.disk, i), inode); }
    if !ok || !IsDirectory(inode) {
      return false;
    }
    Alloc.Ready(v);
    BareIs(Span(v.geo, v.disk, i, 0, NDIR));
    var s := 0;
    NoDots();
    while s < NDIR
      invariant s <= NDIR && (DirOk(v.geo, v.disk, i) ==> OnlyDots(Span(v.geo, v.disk, i, 0, s)))
    {
      r := SlotIsBare(v, i, inode, s, files);
      if DirOk(v.geo, v.disk, i) { BareSlot(v.geo, v.disk, i, s); }
      if !r {
        return false;
      }
      s := s + 1;
    }
    return true;
  }

  lemma NoDots()
    ensures OnlyDots([])
  {
  }

  lemma BareSlot(geo: Geo, d: seq<byte>, i: nat, s: nat)
    requires DirOk(geo, d, i) && s < NDIR
    ensures SlotWhole(geo, d, i, s)
    ensures OnlyDots(Span(geo, d, i, 0, s + 1)) <==>
              OnlyDots(Span(geo, d, i, 0, s)) && OnlyDots(SlotNames(geo, d, i, s))
    ensures !OnlyDots(SlotNames(geo, d, i, s)) ==> !OnlyDots(Span(geo, d, i, 0, NDIR))
  {
    hide SlotNames, SlotWhole, OnlyDots, Volume;
    SpanSplit(geo, d, i, 0, s + 1, NDIR);
    DotsSplit(Span(geo, d, i, 0, s), SlotNames(geo, d, i, s));
    DotsSplit(Span(geo, d, i, 0, s + 1), Span(geo, d, i, s + 1, NDIR));
  }

  // ---------------------------------------------------------------- renaming

  /** The binding of `n1` in `p1` is now that of `n2` in `p2`; nothing else changed. */
  ghost predicate Moved(geo: Geo, d: seq<byte>, d2: seq<byte>, sup2: seq<byte>, files: set<nat>, p1: nat, n1: seq<byte>,
                        p2: nat, n2: seq<byte>) {
    && Volume(geo, d) && Inode(geo, p1) && Inode(geo, p2) && DirState(geo, d2, sup2, files, p1)
    && DirState(geo, d2, sup2, files, p2)
    && n1 in DirMap(geo, d, p1) && n2 !in DirMap(geo, d, p2)
    && (p1 == p2 ==> DirMap(geo, d2, p1) == (DirMap(geo, d, p1) - {n1})[n2 := DirMap(geo, d, p1)[n1]])
    && (p1 != p2 ==>
          DirMap(geo, d2, p1) == DirMap(geo, d, p1) - {n1} &&
          DirMap(geo, d2, p2) == DirMap(geo, d, p2)[n2 := DirMap(geo, d, p1)[n1]])
    && (forall j :: j in files ==> Inode(geo, j))
    && (forall j :: j in files && j != p1 && j != p2 ==> Kept(geo, d, d2, j))
  }

  /** The inodes after a binding has moved: the old parent's as it was, the new one's grown or as it was. */
  ghost predicate MovedRecs(geo: Geo, d: seq<byte>, d2: seq<byte>, p1: nat, p2: nat, grown: bool) {
    && Volume(geo, d) && Volume(geo, d2) && Inode(geo, p1) && Inode(geo, p2)
    && (p1 != p2 ==> Rec(geo, d2, p1) == Rec(geo, d, p1))
    && GrownRec(Rec(geo, d, p2), Rec(geo, d2, p2), geo.bs, grown)
  }

  lemma HeadGrown(a: seq<byte>, b: seq<byte>, bs: nat, grown: bool)
    requires |a| >= INODE_SIZE && |b| >= INODE_SIZE && GrownRec(a[..INODE_SIZE], b[..INODE_SIZE], bs, grown)
    ensures GrownRec(a, b, bs, grown)
  {
    var c, e := a[..INODE_SIZE], b[..INODE_SIZE];
    assert forall x :: 0 <= x < INODE_SIZE ==> c[x] == a[x] && e[x] == b[x];
  }

  lemma OtherRec(geo: Geo, d: seq<byte>, d2: seq<byte>, files: set<nat>, i: nat, j: nat)
    requires OthersSame(geo, d, d2, files, i) && j in files && j != i && Inode(geo, j)
    ensures Rec(geo, d2, j) == Rec(geo, d, j)
  {
    assert Kept(geo, d, d2, j);
  }

  lemma AddedFacts(geo: Geo, d: seq<byte>, d2: seq<byte>, sup2: seq<byte>, files: set<nat>, i: nat, e: Binding)
    requires Added(geo, d, d2, sup2, files, i, e)
    ensures Volume(geo, d) && Inode(geo, i) && DirState(geo, d2, sup2, files, i) && OthersSame(geo, d, d2, files, i)
    ensures DirMap(geo, d2, i) == DirMap(geo, d, i)[e.name := Target(e.ino, e.ftype)]
  {
  }

  lemma KeptTrans(geo: Geo, d: seq<byte>, d1: seq<byte>, d2: seq<byte>, j: nat)
    requires Volume(geo, d) && Volume(geo, d1) && Volume(geo, d2) && Inode(geo, j) && Kept(geo, d, d1, j)
    requires Kept(geo, d1, d2, j)
    ensures Kept(geo, d, d2, j)
  {
    hide Layout, Shape, Sized, At, Reg;
    forall p | Within(geo, p) ensures KeptAt(geo, d, d2, j, p) {
      assert KeptAt(geo, d, d1, j, p) && KeptAt(geo, d1, d2, j, p);
    }
  }

  /** A directory that another one's change left alone. */
  lemma StillState(geo: Geo, d: seq<byte>, sup: seq<byte>, d1: seq<byte>, sup1: seq<byte>, files: set<nat>, i: nat,
                   p: nat)
    requires DirState(geo, d, sup, files, p) && DirState(geo, d1, sup1, files, i) && OthersSame(geo, d, d1, files, i)
    requires p != i
    ensures DirState(geo, d1, sup1, files, p) && DirMap(geo, d1, p) == DirMap(geo, d, p)
  {
    hide Accounts, FilesOk, Layout, Shape, Sized, IsDir, DirOk, DirMap, Kept;
    KeptMeans(geo, d, d1, p, 0);
  }

  /** Adding the new name, then removing the old one. */
  lemma MoveOk(geo: Geo, d: seq<byte>, sup: seq<byte>, d1: seq<byte>, sup1: seq<byte>, d2: seq<byte>, files: set<nat>,
               p1: nat, n1: seq<byte>, p2: nat, n2: seq<byte>, e: Binding)
    requires DirState(geo, d, sup, files, p1) && DirState(geo, d, sup, files, p2) && n1 in DirMap(geo, d, p1)
    requires n2 !in DirMap(geo, d, p2)
    requires e.name == n2 && DirMap(geo, d, p1)[n1] == Target(e.ino, e.ftype)
    requires Added(geo, d, d1, sup1, files, p2, e) && DirState(geo, d1, sup1, files, p1)
    requires DirState(geo, d2, sup1, files, p1)
    requires OthersSame(geo, d1, d2, files, p1) && DirMap(geo, d2, p1) == DirMap(geo, d1, p1) - {n1}
    ensures Moved(geo, d, d2, sup1, files, p1, n1, p2, n2)
  {
    hide Accounts, FilesOk, Layout, Shape, Sized, IsDir, DirOk, DirMap, Kept, Volume;
    if p1 == p2 {
      RenameEither(DirMap(geo, d, p1), n1, n2);
    } else {
      StillState(geo, d, sup, d1, sup1, files, p2, p1);
      StillState(geo, d1, sup1, d2, sup1, files, p1, p2);
    }
    forall j | j in files && j != p1 && j != p2 ensures Kept(geo, d, d2, j) {
      KeptTrans(geo, d, d1, d2, j);
    }
  }

  /** The binding that a lookup found. */
  lemma FoundRange(geo: Geo, d: seq<byte>, sup: seq<byte>, files: set<nat>, i: nat, name: seq<byte>, r: Lookup)
    requires DirState(geo, d, sup, files, i) && HitAt(geo, d, i, name, r)
    ensures r.Hit? && 0 < r.ino < LIMIT32
  {
    hide Accounts, FilesOk, Layout, Shape, Sized, IsDir, DirOk;
    HitFacts(geo, d, sup, files, i, name, r);
  }

  /** The second way of ext2_rename: add the new name, then remove the old one. */
  method MoveEntry(v: Io.Volume, p1: nat, n1: seq<byte>, p2: nat, inode: seq<byte>, e: Binding, ghost files: set<nat>)
    returns (r: Kerr)
    requires v.Ready() && DirState(v.geo, v.disk, v.sup, files, p1) && DirState(v.geo, v.disk, v.sup, files, p2)
    requires |inode| == INODE_SIZE && inode == Rec(v.geo, v.disk, p2)[..INODE_SIZE] && 0 < e.ino < LIMIT32
    requires n1 in DirMap(v.geo, v.disk, p1) && e.name !in DirMap(v.geo, v.disk, p2)
    requires DirMap(v.geo, v.disk, p1)[n1] == Target(e.ino, e.ftype)
    modifies v`disk, v`sup, v.bufBlock, v.bufBitmap, v.bufSector, v.bufInode
    ensures v.Ready() && (r == Good || r == NoSpace)
    ensures r == Good ==> Moved(v.geo, old(v.disk), v.disk, v.sup, files, p1, n1, p2, e.name)
    ensures r == Good ==> MovedRecs(v.geo, old(v.disk), v.disk, p1, p2, !AnyRoom(v.geo, old(v.disk), p2, |e.name|))
    ensures r == NoSpace ==> v.disk == old(v.disk) && v.sup == old(v.sup)
    ensures r == Good <==> CanAdd(v.geo, old(v.disk), p2, |e.name|)
  {
    hide Accounts, FilesOk, Layout, Shape, IsDir, DirOk, DirMap, Kept, Pointer, CanAdd, AnyRoom, OthersSame, GrownRec,
      Rec, SameMarks, OneTaken, Added;
    ghost var d, sup := v.disk, v.sup;
    var ok, inode2 := AddEntry(v, p2, inode, e, files);
    if !ok {
      return NoSpace;
    }
    ghost var d1 := v.disk;
    AddedFacts(v.geo, d, d1, v.sup, files, p2, e);
    HeadGrown(Rec(v.geo, d, p2), Rec(v.geo, d1, p2), v.geo.bs, !AnyRoom(v.geo, d, p2, |e.name|));
    if p1 != p2 { OtherRec(v.geo, d, d1, files, p2, p1); }
    if p1 != p2 { StillState(v.geo, d, sup, d1, v.sup, files, p2, p1); }
    MovedName(v.geo, d, d1, v.sup, files, p1, n1, p2, e);
    ok := RemoveEntry(v, p1, n1, files);
    if p1 != p2 { OtherRec(v.geo, d1, v.disk, files, p1, p2); }
    MoveOk(v.geo, d, sup, d1, v.sup, v.disk, files, p1, n1, p2, e.name, e);
    return Good;
  }

  lemma MovedName(geo: Geo, d: seq<byte>, d1: seq<byte>, sup1: seq<byte>, files: set<nat>, p1: nat, n1: seq<byte>,
                  p2: nat, e: Binding)
    requires Added(geo, d, d1, sup1, files, p2, e) && Inode(geo, p1) && n1 in DirMap(geo, d, p1)
    requires (p1 != p2 ==> DirMap(geo, d1, p1) == DirMap(geo, d, p1))
    ensures n1 in DirMap(geo, d1, p1)
  {
    hide Accounts, FilesOk, IsDir, DirOk, DirMap;
  }

  /** The record that binds `n1` is long enough for the new name. */
  ghost predicate FitsRecord(geo: Geo, d: seq<byte>, i: nat, n1: seq<byte>, n2: seq<byte>) {
    && Volume(geo, d) && Inode(geo, i) && 0 < |n2| < 255
    && exists f :: HitAt(geo, d, i, n1, f) && Size(|n2|) <= HitLen(geo, d, i, f)
  }

  lemma FitsRecordIs(geo: Geo, d: seq<byte>, i: nat, n1: seq<byte>, n2: seq<byte>, r: Lookup)
    requires DirOk(geo, d, i) && HitAt(geo, d, i, n1, r) && 0 < |n2| < 255
    ensures FitsRecord(geo, d, i, n1, n2) <==> Size(|n2|) <= HitLen(geo, d, i, r)
  {
    hide Volume, HitAt, HitLen, Size, SlotWhole, Unique;
    if FitsRecord(geo, d, i, n1, n2) {
      var f :| HitAt(geo, d, i, n1, f) && Size(|n2|) <= HitLen(geo, d, i, f);
      HitUnique(geo, d, i, n1, r, f);
    }
  }

  lemma IllegalFits(geo: Geo, d: seq<byte>, i: nat, n1: seq<byte>, n2: seq<byte>)
    requires !(0 < |n2| < 255)
    ensures !FitsRecord(geo, d, i, n1, n2)
  {
  }

  lemma RenamedMoved(geo: Geo, d: seq<byte>, d2: seq<byte>, sup: seq<byte>, files: set<nat>, p: nat, n1: seq<byte>,
                     n2: seq<byte>)
    requires DirState(geo, d2, sup, files, p) && OthersSame(geo, d, d2, files, p) && n1 in DirMap(geo, d, p)
    requires n2 !in DirMap(geo, d, p)
    requires DirMap(geo, d2, p) == (DirMap(geo, d, p) - {n1})[n2 := DirMap(geo, d, p)[n1]]
    ensures Moved(geo, d, d2, sup, files, p, n1, p, n2)
  {
    hide Accounts, FilesOk, IsDir, DirOk, DirMap, Kept;
  }
}
