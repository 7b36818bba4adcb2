/**
 ext2_write_file and ext2_read_file (src/fs/ext2/ext2_file.c): a successful write replaces
 exactly the bytes it names, a read returns the bytes that are there, and what was written
 is what is read.
 */
module Ext2File {
  import opened Bits
  import opened Words
  import opened Ext2Layout
  import opened Ext2Space
  import opened Ext2Tree
  import opened Ext2Files
  import opened Ext2Spend
  import opened Ext2Write
  import Io = Ext2Io

  lemma WroteFrom(geo: Geo, d: seq<byte>, v0: seq<byte>, v: seq<byte>, files: set<nat>, i: nat, offset: nat,
                  t: seq<byte>)
    requires SameBytes(geo, d, v0, files) && Wrote(geo, v0, v, files, i, offset, t)
    ensures Wrote(geo, d, v, files, i, offset, t)
  {
    hide Volume, ByteAt;
    forall j, pos: nat | j in files && pos < LIMIT32 ensures ByteGoal(geo, d, v, i, offset, t, j, pos) {
      assert ByteGoal(geo, v0, v, i, offset, t, j, pos) && SameByte(geo, d, v0, j, pos);
    }
  }

  /** The outcome of a write that went through. */
  ghost predicate Written(geo: Geo, d0: seq<byte>, d: seq<byte>, files: set<nat>, i: nat, offset: nat,
                          data: seq<byte>) {
    && FilesOk(geo, d, files) && Wrote(geo, d0, d, files, i, offset, data) && Inode(geo, i)
    && Get32(Rec(geo, d, i), SIZE)
         == (if offset + |data| > Get32(Rec(geo, d0, i), SIZE) then offset + |data| else Get32(Rec(geo, d0, i), SIZE))
    && IsRegular(Rec(geo, d, i)) && (forall j :: Inode(geo, j) && j != i ==> SameRec(geo, d0, d, j))
    && AgreeBut(Rec(geo, d0, i), Rec(geo, d, i), Extent())
    && Get32(Rec(geo, d, i), SECTORS) ==
       (Get32(Rec(geo, d0, i), SECTORS) + Needed(Rec(geo, d0, i), geo.bs, offset, |data|) * (geo.bs / 512)) % LIMIT32
  }

  /** The inode written back completes the write. */
  lemma FinishOk(geo: Geo, d0: seq<byte>, sup0: seq<byte>, d: seq<byte>, sup: seq<byte>, files: set<nat>, i: nat,
                 inode0: seq<byte>, inode: seq<byte>, offset: nat, data: seq<byte>)
    requires Accounts(geo, d0, sup0) && FilesOk(geo, d0, files) && i in files && Inode(geo, i)
    requires |inode0| == INODE_SIZE && inode0 == Rec(geo, d0, i)[..INODE_SIZE] && IsRegular(inode0)
    requires offset + |data| < LIMIT32
    requires Progress(geo, d0, Virtual(geo, d0, i, inode0), inode0, d, sup, files, i, inode, offset, data)
    requires Sectors(inode0, inode, Needed(inode0, geo.bs, offset, |data|), geo.bs)
    ensures Accounts(geo, Virtual(geo, d, i, Grown(inode, offset + |data|)), sup)
    ensures Written(geo, d0, Virtual(geo, d, i, Grown(inode, offset + |data|)), files, i, offset, data)
  {
    hide Accounts, FilesOk, Layout, Extends, Virtual, Get32, Get16, Shape, SameBytes, Wrote, Pointer, PointersBut,
      Grown, SameRecs, Sectors, AgreeBut, Needed;
    FilesVolume(geo, d0, files);
    ProgressAccounts(geo, d0, Virtual(geo, d0, i, inode0), inode0, d, sup, files, i, inode, offset, data);
    var inode2 := Grown(inode, offset + |data|);
    var v0, v, v2 := Virtual(geo, d0, i, inode0), Virtual(geo, d, i, inode), Virtual(geo, d, i, inode2);
    GrownIs(inode, offset + |data|);
    StartOk(geo, d0, sup0, files, i, inode0);
    RewriteOk(geo, d, files, i, inode, inode2);
    WroteSame(geo, v0, v, v2, files, i, offset, data);
    WroteFrom(geo, d0, v0, v2, files, i, offset, data);
    VirtualAccounts(geo, d, sup, i, inode2);
    HeadFields(Rec(geo, d0, i), inode0);
    PaddedFields(geo, d, i, inode2);
    RecFields(geo, d0, d, i, inode0, inode, offset, |data|);
    forall j | Inode(geo, j) && j != i ensures SameRec(geo, d0, v2, j) {
      RecKept(geo, d0, d, i, inode2, j);
    }
  }

  /** The record written back: size, sector count and direct pointers apart, it is the one that was read. */
  lemma RecFields(geo: Geo, d0: seq<byte>, d: seq<byte>, i: nat, inode0: seq<byte>, inode: seq<byte>, offset: nat,
                  n: nat)
    requires Volume(geo, d0) && Volume(geo, d) && Inode(geo, i) && |inode0| == |inode| == INODE_SIZE
    requires inode0 == Rec(geo, d0, i)[..INODE_SIZE] && offset + n < LIMIT32
    requires Sectors(inode0, inode, Needed(inode0, geo.bs, offset, n), geo.bs)
    ensures var rec0, rec := Rec(geo, d0, i), Rec(geo, Virtual(geo, d, i, Grown(inode, offset + n)), i);
            && AgreeBut(rec0, rec, Extent())
            && Get32(rec, SECTORS) ==
               (Get32(rec0, SECTORS) + Needed(rec0, geo.bs, offset, n) * (geo.bs / 512)) % LIMIT32
  {
    hide Layout, Shape, Sized, Virtual, Get32, Needed, Rec;
    var inode2 := Grown(inode, offset + n);
    var rec0, rec := Rec(geo, d0, i), Rec(geo, Virtual(geo, d, i, inode2), i);
    PositiveBlock(geo);
    NeededSame(rec0, inode0, geo.bs, offset, n);
    VirtualRec(geo, d, i, inode2, i);
    assert rec[..INODE_SIZE] == inode2;
    AgreeGrown(inode, offset + n);
    AgreeMore(inode0, inode, inode2, Field(SECTORS, 4) + Field(BLOCK, 4 * NDIR), Field(SIZE, 4));
    AgreeGet(inode, inode2, Field(SIZE, 4), SECTORS);
    SectorsHead(rec0, inode0);
    SectorsHead(rec, inode2);
  }

  lemma AgreeGrown(inode: seq<byte>, end: nat)
    requires |inode| == INODE_SIZE && end < LIMIT32
    ensures AgreeBut(inode, Grown(inode, end), Field(SIZE, 4))
  {
    hide Get32, Put32;
    AgreePut32(inode, SIZE, end);
  }

  lemma SectorsHead(rec: seq<byte>, inode: seq<byte>)
    requires |rec| >= INODE_SIZE && inode == rec[..INODE_SIZE]
    ensures Get32(inode, SECTORS) == Get32(rec, SECTORS)
  {
  }

  lemma RecKept(geo: Geo, d0: seq<byte>, d: seq<byte>, i: nat, inode: seq<byte>, j: nat)
    requires SameRecs(geo, d0, d) && Inode(geo, i) && |inode| == INODE_SIZE && Inode(geo, j) && j != i
    ensures Volume(geo, d0) && Volume(geo, d) && SameRec(geo, d0, Virtual(geo, d, i, inode), j)
  {
    assert SameRec(geo, d0, d, j);
    VirtualRec(geo, d, i, inode, j);
  }

  lemma VirtualAccounts(geo: Geo, d: seq<byte>, sup: seq<byte>, i: nat, inode: seq<byte>)
    requires Accounts(geo, d, sup) && Inode(geo, i) && |inode| == INODE_SIZE
    ensures Volume(geo, d) && Accounts(geo, Virtual(geo, d, i, inode), sup)
  {
    PutAccounts(geo, d, sup, Record(i), Padded(geo, inode));
  }

  lemma PaddedFields(geo: Geo, d: seq<byte>, i: nat, inode: seq<byte>)
    requires Volume(geo, d) && Inode(geo, i) && |inode| == INODE_SIZE
    ensures var r := Rec(geo, Virtual(geo, d, i, inode), i);
            Get32(r, SIZE) == Get32(inode, SIZE) && Get16(r, MODE) == Get16(inode, MODE)
  {
    VirtualRec(geo, d, i, inode, i);
    var r := Padded(geo, inode);
    assert r[..INODE_SIZE] == inode;
    HeadFields(r, inode);
  }

  // ---------------------------------------------------------------- blocks taken and blocks lost

  /** No file refers to block `b`. */
  ghost predicate Unreferred(geo: Geo, d: seq<byte>, files: set<nat>, b: nat) {
    && Volume(geo, d) && (forall j :: j in files ==> Inode(geo, j))
    && forall j, p :: j in files && Within(geo, p) ==> At(geo, d, j, p) != b
  }

  /** The blocks, free before, that are marked now. */
  ghost function Gone(geo: Geo, d0: seq<byte>, d: seq<byte>): set<nat>
    requires Volume(geo, d0) && Volume(geo, d)
  {
    FreeBlocks(geo, d0) - FreeBlocks(geo, d)
  }

  /** The blocks taken that no file refers to. */
  ghost function Lost(geo: Geo, d0: seq<byte>, d: seq<byte>, files: set<nat>): set<nat>
    requires Volume(geo, d0) && Volume(geo, d)
  {
    set n | n in Gone(geo, d0, d) && Unreferred(geo, d, files, geo.firstData + n)
  }

  /** The number of free blocks that a write of `n` bytes takes: one for each empty slot, while there are any. */
  ghost function Cost(geo: Geo, d: seq<byte>, i: nat, offset: nat, n: nat): nat
    requires Volume(geo, d) && Inode(geo, i)
  {
    Least(Needed(Rec(geo, d, i), geo.bs, offset, n), |FreeBlocks(geo, d)|)
  }

  /** The file cannot be that long with direct blocks only, or there are more empty slots than free blocks. */
  ghost predicate WontFit(geo: Geo, d: seq<byte>, i: nat, offset: nat, n: nat)
    requires Volume(geo, d) && Inode(geo, i)
  {
    offset + n > NDIR * geo.bs || Needed(Rec(geo, d, i), geo.bs, offset, n) > |FreeBlocks(geo, d)|
  }

  lemma NeededSame(rec: seq<byte>, inode: seq<byte>, bs: nat, offset: nat, n: nat)
    requires |rec| >= INODE_SIZE && inode == rec[..INODE_SIZE] && bs > 0
    ensures Needed(inode, bs, offset, n) == Needed(rec, bs, offset, n)
  {
    HeadFields(rec, inode);
    HolesSame(inode, rec, FirstSlot(bs, offset), EndSlot(bs, offset, n));
  }

  /** Seen through the inode on disk, a block entered in memory only is in no file. */
  lemma NewUnreferred(geo: Geo, d0: seq<byte>, d: seq<byte>, sup: seq<byte>, files: set<nat>, i: nat, inode0: seq<byte>,
                      inode: seq<byte>, n: nat)
    requires Writing(geo, d, sup, files, i, inode) && SameRecs(geo, d0, d) && |inode0| == INODE_SIZE && Inode(geo, i)
    requires Volume(geo, d0) && inode0 == Rec(geo, d0, i)[..INODE_SIZE] && Newly(geo, inode0, inode, n)
    ensures Unreferred(geo, d, files, geo.firstData + n)
  {
    var s: nat :| s < NDIR && Pointer(inode0, s) == 0 && 0 != Pointer(inode, s) == geo.firstData + n;
    FilesInodes(geo, Virtual(geo, d, i, inode), files);
    HeadFields(Rec(geo, d0, i), inode0);
    assert SameRec(geo, d0, d, i);
    hide Accounts, FilesOk, Layout, Shape, Sized, Pointer, Newly, SameRecs, At;
    forall j, p | j in files && Within(geo, p) ensures At(geo, d, j, p) != geo.firstData + n {
      OnlyHolder(geo, d, sup, files, i, inode, s, j, p);
    }
  }

  lemma OnlyHolder(geo: Geo, d: seq<byte>, sup: seq<byte>, files: set<nat>, i: nat, inode: seq<byte>, s: nat, j: nat,
                   p: Path)
    requires Writing(geo, d, sup, files, i, inode) && s < NDIR && Pointer(inode, s) != 0
    requires Pointer(Rec(geo, d, i), s) == 0
    requires j in files && Inode(geo, j) && Within(geo, p)
    ensures At(geo, d, j, p) != Pointer(inode, s)
  {
    hide Accounts, FilesOk, Layout, Shape, Sized, Extends, Virtual, Pointer, Node;
    WritingStays(geo, d, sup, files, i, inode);
    var v, q := Virtual(geo, d, i, inode), Path(s, []);
    ExtendsAt(geo, d, files, i, inode, j, p);
    VirtualRec(geo, d, i, inode, i);
    NodeRoot(geo, v, Rec(geo, v, i), s);
    NodeRoot(geo, d, Rec(geo, d, i), s);
    Owner(geo, v, files, i, s, j, p);
  }

  lemma Owner(geo: Geo, v: seq<byte>, files: set<nat>, i: nat, s: nat, j: nat, p: Path)
    requires FilesOk(geo, v, files) && i in files && j in files && Inode(geo, i) && Inode(geo, j) && s < NDIR
    requires Within(geo, p)
    ensures OneOwner(geo, v, i, Path(s, []), j, p)
  {
    hide NodeOk, FreeOk, Volume;
    assert Within(geo, Path(s, []));
  }

  /** The new block of a slot, once the inode is written, is in the file. */
  lemma NewReferred(geo: Geo, d: seq<byte>, files: set<nat>, i: nat, inode0: seq<byte>, n: nat)
    requires Volume(geo, d) && Inode(geo, i) && i in files && |inode0| >= INODE_SIZE
    requires Newly(geo, inode0, Rec(geo, d, i), n)
    ensures !Unreferred(geo, d, files, geo.firstData + n)
  {
    var rec := Rec(geo, d, i);
    var s: nat :| s < NDIR && Pointer(inode0, s) == 0 && 0 != Pointer(rec, s) == geo.firstData + n;
    hide Layout, Shape, Sized, Pointer, Newly, Rec;
    NodeRoot(geo, d, rec, s);
    assert Within(geo, Path(s, [])) && At(geo, d, i, Path(s, [])) == geo.firstData + n;
  }

  /** What a write does to the free space: `Cost` blocks are taken, and all of them or none are lost. */
  ghost predicate Charged(geo: Geo, d0: seq<byte>, sup0: seq<byte>, d: seq<byte>, sup: seq<byte>, files: set<nat>,
                          i: nat, offset: nat, n: nat, good: bool) {
    && Volume(geo, d0) && Volume(geo, d) && Inode(geo, i) && |sup| == |sup0| == SUPER_SIZE
    && FreeBlocks(geo, d) <= FreeBlocks(geo, d0)
    && |Gone(geo, d0, d)| == Cost(geo, d0, i, offset, n)
    && Get32(sup, TotalAt(Blocks)) + Cost(geo, d0, i, offset, n) == Get32(sup0, TotalAt(Blocks))
    && (good <==> !WontFit(geo, d0, i, offset, n))
    && Lost(geo, d0, d, files) == if good then {} else Gone(geo, d0, d)
  }

  lemma GoneCount(geo: Geo, d0: seq<byte>, d: seq<byte>)
    requires Volume(geo, d0) && Volume(geo, d) && FreeBlocks(geo, d) <= FreeBlocks(geo, d0)
    ensures |Gone(geo, d0, d)| == |FreeBlocks(geo, d0)| - |FreeBlocks(geo, d)|
  {
    hide Volume, FreeBlocks;
  }

  /** The write stopped: what it took is lost. */
  lemma ChargedLost(geo: Geo, d0: seq<byte>, sup0: seq<byte>, d: seq<byte>, sup: seq<byte>, files: set<nat>, i: nat,
                    inode0: seq<byte>, inode: seq<byte>, offset: nat, n: nat)
    requires Accounts(geo, d0, sup0) && Writing(geo, d, sup, files, i, inode) && SameRecs(geo, d0, d)
    requires |inode0| == INODE_SIZE && Volume(geo, d0) && inode0 == Rec(geo, d0, i)[..INODE_SIZE]
    requires Spent(geo, d0, d, inode0, inode, offset, n, false)
    ensures Charged(geo, d0, sup0, d, sup, files, i, offset, n, false)
  {
    hide FilesOk, Layout, Shape, Sized, Extends, Newly, Unreferred, FreeBlocks, Needed, SameRecs, GroupOk, Total,
      Virtual;
    NeededSame(Rec(geo, d0, i), inode0, geo.bs, offset, n);
    FreeIsTotal(geo, d0, sup0);
    FreeIsTotal(geo, d, sup);
    GoneCount(geo, d0, d);
    forall m | m in Gone(geo, d0, d) ensures Unreferred(geo, d, files, geo.firstData + m) {
      NewUnreferred(geo, d0, d, sup, files, i, inode0, inode, m);
    }
  }

  /** The write went through: what it took is in the file. */
  lemma ChargedKept(geo: Geo, d0: seq<byte>, sup0: seq<byte>, d: seq<byte>, d2: seq<byte>, sup: seq<byte>,
                    files: set<nat>, i: nat, inode0: seq<byte>, inode: seq<byte>, inode2: seq<byte>, offset: nat,
                    n: nat)
    requires Accounts(geo, d0, sup0) && Accounts(geo, d, sup) && Inode(geo, i) && i in files
    requires |inode0| == INODE_SIZE && Volume(geo, d0) && inode0 == Rec(geo, d0, i)[..INODE_SIZE]
    requires |inode| == |inode2| == INODE_SIZE && PointersBut(inode, inode2, SLOTS) && Volume(geo, d)
    requires d2 == Virtual(geo, d, i, inode2)
    requires Spent(geo, d0, d, inode0, inode, offset, n, true)
    ensures Charged(geo, d0, sup0, d2, sup, files, i, offset, n, true)
  {
    hide FilesOk, Layout, Shape, Sized, Extends, Unreferred, FreeBlocks, Needed, SameRecs, GroupOk, Total, Pointer;
    NeededSame(Rec(geo, d0, i), inode0, geo.bs, offset, n);
    FreeIsTotal(geo, d0, sup0);
    FreeIsTotal(geo, d, sup);
    PutFree(geo, d, Record(i), Padded(geo, inode2));
    VirtualRec(geo, d, i, inode2, i);
    hide Virtual, Put, Padded;
    GoneCount(geo, d0, d2);
    forall m | m in Gone(geo, d0, d2) ensures !Unreferred(geo, d2, files, geo.firstData + m) {
      NewlySame(geo, inode0, inode, Rec(geo, d2, i), m);
      NewReferred(geo, d2, files, i, inode0, m);
    }
  }

  lemma NewlySame(geo: Geo, inode0: seq<byte>, inode: seq<byte>, rec: seq<byte>, n: nat)
    requires |inode0| >= INODE_SIZE && |inode| >= INODE_SIZE && |rec| >= INODE_SIZE && Newly(geo, inode0, inode, n)
    requires forall s :: 0 <= s < SLOTS ==> Pointer(rec, s) == Pointer(inode, s)
    ensures Newly(geo, inode0, rec, n)
  {
  }

  /** A write loses blocks if and only if it fails with an empty slot before it and a free block to put there. */
  lemma LosesWhen(geo: Geo, d0: seq<byte>, sup0: seq<byte>, d: seq<byte>, sup: seq<byte>, files: set<nat>, i: nat,
                  offset: nat, n: nat, good: bool)
    requires Charged(geo, d0, sup0, d, sup, files, i, offset, n, good)
    ensures Lost(geo, d0, d, files) != {} <==>
            WontFit(geo, d0, i, offset, n) && Needed(Rec(geo, d0, i), geo.bs, offset, n) > 0 &&
            FreeBlocks(geo, d0) != {}
    ensures |Lost(geo, d0, d, files)| == if WontFit(geo, d0, i, offset, n) then Cost(geo, d0, i, offset, n) else 0
  {
    hide Volume, FreeBlocks, Needed, Unreferred;
    assert FreeBlocks(geo, d0) != {} <==> |FreeBlocks(geo, d0)| > 0;
    assert Gone(geo, d0, d) != {} <==> |Gone(geo, d0, d)| > 0;
  }

  // ---------------------------------------------------------------- the call

  /** ext2_write_file. */
  method WriteFile(v: Io.Volume, i: nat, offset: nat, data: seq<byte>, ghost files: set<nat>) returns (r: Kerr)
    requires v.Ready() && Accounts(v.geo, v.disk, v.sup) && FilesOk(v.geo, v.disk, files)
    requires InodeInRange(v.geo, i) && (Inode(v.geo, i) ==> i in files) && offset < LIMIT32 && |data| < LIMIT32
    modifies v`disk, v`sup, v.bufBlock, v.bufBitmap, v.bufSector, v.bufInode
    ensures v.Ready() && Accounts(v.geo, v.disk, v.sup) && FilesOk(v.geo, v.disk, files)
    ensures r == Good || r == IoError || r == NoSpace
    ensures r == Good && data != [] ==> Written(v.geo, old(v.disk), v.disk, files, i, offset, data)
    ensures data == [] ==> r == Good && v.disk == old(v.disk)
    ensures r == IoError <==> data != [] && !(Inode(v.geo, i) && IsRegular(Rec(v.geo, old(v.disk), i)))
    ensures r == IoError ==> v.disk == old(v.disk)
    ensures r == NoSpace ==>
              SameRecs(v.geo, old(v.disk), v.disk) && PartWrote(v.geo, old(v.disk), v.disk, files, i, offset, data)
    ensures data != [] && r != IoError ==>
              Charged(v.geo, old(v.disk), old(v.sup), v.disk, v.sup, files, i, offset, |data|, r == Good)
  {
    hide Charged, Spent, Accounts, FilesOk, Layout, Virtual, Get32, Get16, SameRecs, PartWrote, DiskFull, Progress,
      Written, Grown, Writing, SameBytes, Rec, GroupOf;
    if data == [] {
      return Good;
    }
    ghost var d0, sup0 := v.disk, v.sup;
    var ok, inode0 := ReadInode(v, i);
    if ok { HeadFields(Rec(v.geo, d0, i), inode0); }
    if !ok || !IsRegular(inode0) {
      return IoError;
    }
    StartOk(v.geo, d0, sup0, files, i, inode0);
    var done, inode, t := WriteBlocks(v, inode0, offset, data, files, i);
    ProgressAccounts(v.geo, d0, Virtual(v.geo, d0, i, inode0), inode0, v.disk, v.sup, files, i, inode, offset, t);
    SpentSectors(v.geo, d0, v.disk, inode0, inode, offset, |data|, done);
    if !done {
      ProgressWriting(v.geo, d0, Virtual(v.geo, d0, i, inode0), inode0, v.disk, v.sup, files, i, inode, offset, t);
      ChargedLost(v.geo, d0, sup0, v.disk, v.sup, files, i, inode0, inode, offset, |data|);
      StopOk(v.geo, d0, sup0, v.disk, v.sup, files, i, inode0, inode, offset, t, data);
      return NoSpace;
    }
    EndFits(v.geo, offset + |data|);
    FinishOk(v.geo, d0, sup0, v.disk, v.sup, files, i, inode0, inode, offset, data);
    WrittenFiles(v.geo, d0, Virtual(v.geo, v.disk, i, Grown(inode, offset + |data|)), files, i, offset, data);
    GrownIs(inode, offset + |data|);
    ChargedKept(v.geo, d0, sup0, v.disk, Virtual(v.geo, v.disk, i, Grown(inode, offset + |data|)), v.sup, files, i,
                inode0, inode, Grown(inode, offset + |data|), offset, |data|);
    var _ := WriteInode(v, i, Grown(inode, offset + |data|));
    return Good;
  }

  lemma SpentSectors(geo: Geo, d0: seq<byte>, d: seq<byte>, inode0: seq<byte>, inode: seq<byte>, offset: nat, n: nat,
                     ok: bool)
    requires Spent(geo, d0, d, inode0, inode, offset, n, ok)
    ensures geo.bs > 0 && |inode0| >= INODE_SIZE
    ensures ok ==> Sectors(inode0, inode, Needed(inode0, geo.bs, offset, n), geo.bs)
  {
  }

  lemma WrittenFiles(geo: Geo, d0: seq<byte>, d: seq<byte>, files: set<nat>, i: nat, offset: nat, data: seq<byte>)
    requires Written(geo, d0, d, files, i, offset, data)
    ensures FilesOk(geo, d, files)
  {
  }

  lemma EndFits(geo: Geo, end: nat)
    requires Shape(geo) && end <= NDIR * geo.bs
    ensures end < LIMIT32
  {
  }

  lemma ProgressAccounts(geo: Geo, d0: seq<byte>, v0: seq<byte>, inode0: seq<byte>, d: seq<byte>, sup: seq<byte>,
                         files: set<nat>, i: nat, inode: seq<byte>, offset: nat, t: seq<byte>)
    requires Progress(geo, d0, v0, inode0, d, sup, files, i, inode, offset, t)
    ensures Accounts(geo, d, sup) && |inode| == INODE_SIZE && Volume(geo, d)
  {
  }

  lemma ProgressWriting(geo: Geo, d0: seq<byte>, v0: seq<byte>, inode0: seq<byte>, d: seq<byte>, sup: seq<byte>,
                        files: set<nat>, i: nat, inode: seq<byte>, offset: nat, t: seq<byte>)
    requires Progress(geo, d0, v0, inode0, d, sup, files, i, inode, offset, t)
    ensures Writing(geo, d, sup, files, i, inode) && SameRecs(geo, d0, d)
  {
  }

  lemma StopOk(geo: Geo, d0: seq<byte>, sup0: seq<byte>, d: seq<byte>, sup: seq<byte>, files: set<nat>, i: nat,
               inode0: seq<byte>, inode: seq<byte>, offset: nat, t: seq<byte>, data: seq<byte>)
    requires Accounts(geo, d0, sup0) && FilesOk(geo, d0, files) && i in files && Inode(geo, i)
    requires |inode0| == INODE_SIZE && inode0 == Rec(geo, d0, i)[..INODE_SIZE] && t <= data
    requires Progress(geo, d0, Virtual(geo, d0, i, inode0), inode0, d, sup, files, i, inode, offset, t)
    requires EndsAt(geo.bs, offset, |t|, StopSlot(inode0, FirstSlot(geo.bs, offset), |FreeBlocks(geo, d0)|))
    ensures FilesOk(geo, d, files) && PartWrote(geo, d0, d, files, i, offset, data) && SameRecs(geo, d0, d)
  {
    hide Accounts, FilesOk, Layout, Extends, Virtual, Get32, Get16, Shape, SameBytes, Wrote, PartWrote, SameRecs;
    FilesVolume(geo, d0, files);
    ProgressAccounts(geo, d0, Virtual(geo, d0, i, inode0), inode0, d, sup, files, i, inode, offset, t);
    StartOk(geo, d0, sup0, files, i, inode0);
    WroteFrom(geo, d0, Virtual(geo, d0, i, inode0), Virtual(geo, d, i, inode), files, i, offset, t);
    HeadFields(Rec(geo, d0, i), inode0);
    StopSlotSame(inode0, Rec(geo, d0, i), FirstSlot(geo.bs, offset), |FreeBlocks(geo, d0)|);
    PartOk(geo, d, sup, files, i, inode, d0, offset, t, data);
  }

  lemma FilesVolume(geo: Geo, d: seq<byte>, files: set<nat>)
    requires FilesOk(geo, d, files)
    ensures Volume(geo, d)
  {
  }

  // ---------------------------------------------------------------- reading

  /** Through an inode just read one sees the file. */
  lemma ReadNode(geo: Geo, d: seq<byte>, i: nat, inode: seq<byte>, p: Path)
    requires Volume(geo, d) && Inode(geo, i) && |inode| == INODE_SIZE && inode == Rec(geo, d, i)[..INODE_SIZE]
    requires p.slot < SLOTS
    ensures Node(geo, d, inode, p.slot, p.idx) == At(geo, d, i, p)
  {
    HeadFields(Rec(geo, d, i), inode);
    NodeRec(geo, d, Rec(geo, d, i), inode, p.slot, p.idx);
  }

  lemma ReadInner(geo: Geo, d: seq<byte>, files: set<nat>, i: nat, inode: seq<byte>)
    requires FilesOk(geo, d, files) && i in files && Inode(geo, i) && |inode| == INODE_SIZE
    requires inode == Rec(geo, d, i)[..INODE_SIZE]
    ensures Volume(geo, d) && InnerOk(geo, d, inode)
  {
    hide Layout, Shape, Sized, Node, Marked;
    forall p | Legal(geo.PointersPerBlock(), p) && !Leaf(p) ensures InnerAt(geo, d, inode, p) {
      assert Within(geo, p);
      assert NodeOk(geo, d, i, p);
      ReadNode(geo, d, i, inode, p);
    }
  }

  /** One block of the file, for one round of the read loop: into the block buffer, or absent. */
  method FetchBlock(v: Io.Volume, i: nat, inode: seq<byte>, pos: nat, ghost files: set<nat>) returns (b: nat)
    requires v.Ready() && FilesOk(v.geo, v.disk, files) && i in files && Inode(v.geo, i) && pos < LIMIT32
    requires |inode| == INODE_SIZE && inode == Rec(v.geo, v.disk, i)[..INODE_SIZE]
    modifies v.bufBlock, v.bufBlock2, v.bufBlock3, v.bufBlock4
    ensures PathAt(v.geo, pos).slot < SLOTS && b == At(v.geo, v.disk, i, PathAt(v.geo, pos))
    ensures b != 0 ==> b < v.geo.blockCount && v.bufBlock[..] == Reg(v.geo, v.disk, Data(b))
  {
    ReadInner(v.geo, v.disk, files, i, inode);
    PathAtLegal(v.geo, pos);
    BlockIndex(v.geo, pos);
    ghost var p := PathAt(v.geo, pos);
    ReadNode(v.geo, v.disk, i, inode, p);
    assert NodeOk(v.geo, v.disk, i, p);
    hide FilesOk, Layout, InnerOk, Node, At, Reg, PathOf, IsData, Marked;
    b := ResolveDataBlock(v, inode, pos / v.geo.bs);
    if b != 0 {
      Io.ReadBlock(v, b, v.bufBlock);
    }
  }

  lemma BlockIndex(geo: Geo, pos: nat)
    requires Shape(geo) && pos < LIMIT32
    ensures pos / geo.bs < LIMIT32 / geo.bs
  {
  }

  lemma SameStretch(pos: nat, k: nat, bs: nat)
    requires bs > 0 && pos % bs + k < bs
    ensures (pos + k) / bs == pos / bs && (pos + k) % bs == pos % bs + k
  {
    PosSplit(pos, bs);
    DivMod(pos / bs, pos % bs + k, bs);
  }

  /** The bytes of one block's stretch of the file. */
  lemma StretchByte(geo: Geo, d: seq<byte>, i: nat, pos: nat, k: nat)
    requires Volume(geo, d) && Inode(geo, i) && pos + k < LIMIT32 && geo.bs > 0 && pos % geo.bs + k < geo.bs
    ensures PathAt(geo, pos).slot < SLOTS
    ensures ByteAt(geo, d, i, pos + k) == BlockByte(geo, d, At(geo, d, i, PathAt(geo, pos)), pos % geo.bs + k)
  {
    hide Layout, Sized, At, BlockByte, PathOf, Shape;
    SameStretch(pos, k, geo.bs);
    PathAtLegal(geo, pos);
    PathAtLegal(geo, pos + k);
  }

  ghost predicate ReadByte(geo: Geo, d: seq<byte>, i: nat, pos: nat, s: seq<byte>, k: nat)
    requires Volume(geo, d) && Inode(geo, i) && k < |s|
  {
    pos + k < LIMIT32 && s[k] == ByteAt(geo, d, i, pos + k)
  }

  /** `s` is what stands in the file from `pos` on. */
  ghost predicate Reads(geo: Geo, d: seq<byte>, i: nat, pos: nat, s: seq<byte>) {
    Volume(geo, d) && Inode(geo, i) && forall k: nat :: k < |s| ==> ReadByte(geo, d, i, pos, s, k)
  }

  lemma ReadsNone(geo: Geo, d: seq<byte>, i: nat, pos: nat, files: set<nat>)
    requires FilesOk(geo, d, files) && Inode(geo, i)
    ensures Reads(geo, d, i, pos, [])
  {
    FilesVolume(geo, d, files);
    hide FilesOk, Volume;
  }

  lemma ReadsMore(geo: Geo, d: seq<byte>, i: nat, pos: nat, s: seq<byte>, t: seq<byte>)
    requires Reads(geo, d, i, pos, s) && Reads(geo, d, i, pos + |s|, t)
    ensures Reads(geo, d, i, pos, s + t)
  {
    hide Volume, ByteAt;
    forall k: nat | k < |s + t| ensures ReadByte(geo, d, i, pos, s + t, k) {
      if k < |s| {
        assert ReadByte(geo, d, i, pos, s, k);
      } else {
        assert ReadByte(geo, d, i, pos + |s|, t, k - |s|);
      }
    }
  }

  /** A stretch of a block, or of zeroes, is what stands in the file there. */
  lemma StretchReads(geo: Geo, d: seq<byte>, i: nat, pos: nat, t: seq<byte>)
    requires Volume(geo, d) && Inode(geo, i) && pos + |t| <= LIMIT32 && geo.bs > 0 && pos % geo.bs + |t| <= geo.bs
    requires PathAt(geo, pos).slot < SLOTS
    requires var b := At(geo, d, i, PathAt(geo, pos));
             forall k :: 0 <= k < |t| ==> t[k] == BlockByte(geo, d, b, pos % geo.bs + k)
    ensures Reads(geo, d, i, pos, t)
  {
    hide Volume, ByteAt, At, BlockByte, PathAt;
    forall k: nat | k < |t| ensures ReadByte(geo, d, i, pos, t, k) {
      StretchByte(geo, d, i, pos, k);
    }
  }

  /** Copy `n` bytes of the file at `pos`, all in one block, to `out`. */
  method ReadStretch(v: Io.Volume, i: nat, inode: seq<byte>, pos: nat, n: nat, out: array<byte>, at: nat,
                     ghost files: set<nat>)
    requires v.Ready() && FilesOk(v.geo, v.disk, files) && i in files && Inode(v.geo, i)
    requires |inode| == INODE_SIZE && inode == Rec(v.geo, v.disk, i)[..INODE_SIZE]
    requires 0 < n && pos % v.geo.bs + n <= v.geo.bs && pos + n <= LIMIT32 && at + n <= out.Length
    requires out != v.bufBlock && out != v.bufBlock2 && out != v.bufBlock3 && out != v.bufBlock4
    modifies out, v.bufBlock, v.bufBlock2, v.bufBlock3, v.bufBlock4
    ensures Reads(v.geo, v.disk, i, pos, out[at..at + n])
    ensures forall x :: 0 <= x < out.Length && !(at <= x < at + n) ==> out[x] == old(out[x])
  {
    var b := FetchBlock(v, i, inode, pos, files);
    var o := pos % v.geo.bs;
    hide FilesOk, Layout, At, ByteAt, PathAt, Reads, Shape, Rec, Reg;
    if b == 0 {
      forall x | at <= x < at + n {
        out[x] := 0;
      }
    } else {
      forall x | at <= x < at + n {
        out[x] := v.bufBlock[o + x - at];
      }
    }
    ghost var t := out[at..at + n];
    forall k | 0 <= k < n ensures t[k] == BlockByte(v.geo, v.disk, b, o + k) {
      if b != 0 { assert v.bufBlock[..][o + k] == v.bufBlock[o + (at + k) - at]; }
    }
    StretchReads(v.geo, v.disk, i, pos, t);
  }

  /** ext2_read_file: the bytes of the file, as far as its size goes. */
  method ReadFile(v: Io.Volume, i: nat, offset: nat, length: nat, out: array<byte>, ghost files: set<nat>)
    returns (r: Kerr, n: nat)
    requires v.Ready() && Accounts(v.geo, v.disk, v.sup) && FilesOk(v.geo, v.disk, files)
    requires InodeInRange(v.geo, i) && (Inode(v.geo, i) ==> i in files) && offset < LIMIT32 && length < LIMIT32
    requires length <= out.Length
    requires out != v.bufBlock && out != v.bufBlock2 && out != v.bufBlock3 && out != v.bufBlock4 && out != v.bufInode
    requires out != v.bufSector
    modifies out, v.bufBlock, v.bufBlock2, v.bufBlock3, v.bufBlock4, v.bufInode, v.bufSector
    ensures r == IoError <==> !(Inode(v.geo, i) && IsRegular(Rec(v.geo, v.disk, i)))
    ensures r == BadRange <==> r != IoError && length > 0 && offset >= Get32(Rec(v.geo, v.disk, i), SIZE)
    ensures r == Invalid <==>
              r != IoError && length > 0 && offset < Get32(Rec(v.geo, v.disk, i), SIZE) && offset + length >= LIMIT32
    ensures r == Good || r == IoError || r == BadRange || r == Invalid
    ensures r == Good && length > 0 ==>
              && n == (if offset + length > Get32(Rec(v.geo, v.disk, i), SIZE)
                       then Get32(Rec(v.geo, v.disk, i), SIZE) - offset else length)
              && Reads(v.geo, v.disk, i, offset, out[..n])
    ensures forall x :: 0 <= x < out.Length && !(r == Good && length > 0 && x < n) ==> out[x] == old(out[x])
  {
    hide Accounts, FilesOk, Layout, Get32, Get16, Shape, Reads, GroupOf, Sized;
    n := 0;
    var ok, inode := ReadInode(v, i);
    if ok { HeadFields(Rec(v.geo, v.disk, i), inode); }
    if !ok || !IsRegular(inode) {
      return IoError, 0;
    }
    if length == 0 {
      return Good, 0;
    }
    var size := Get32(inode, SIZE);
    if offset >= size {
      return BadRange, 0;
    }
    if offset + length >= LIMIT32 {
      return Invalid, 0;
    }
    n := if offset + length > size then size - offset else length;
    FilesVolume(v.geo, v.disk, files);
    ReadLoop(v, i, inode, offset, n, out, files);
    return Good, n;
  }

  /** The loop of ext2_read_file. */
  method ReadLoop(v: Io.Volume, i: nat, inode: seq<byte>, offset: nat, n: nat, out: array<byte>, ghost files: set<nat>)
    requires v.Ready() && FilesOk(v.geo, v.disk, files) && i in files && Inode(v.geo, i)
    requires |inode| == INODE_SIZE && inode == Rec(v.geo, v.disk, i)[..INODE_SIZE] && offset + n <= LIMIT32
    requires n <= out.Length
    requires out != v.bufBlock && out != v.bufBlock2 && out != v.bufBlock3 && out != v.bufBlock4
    modifies out, v.bufBlock, v.bufBlock2, v.bufBlock3, v.bufBlock4
    ensures Reads(v.geo, v.disk, i, offset, out[..n])
    ensures forall x :: n <= x < out.Length ==> out[x] == old(out[x])
  {
    hide FilesOk, Layout, Shape, Reads, Sized, Rec;
    PositiveBlock(v.geo);
    var copied := 0;
    ReadsNone(v.geo, v.disk, i, offset, files);
    while copied < n
      invariant copied <= n && Reads(v.geo, v.disk, i, offset, out[..copied])
      invariant forall x :: n <= x < out.Length ==> out[x] == old(out[x])
    {
      var pos := offset + copied;
      var o := pos % v.geo.bs;
      var take := if n - copied < v.geo.bs - o then n - copied else v.geo.bs - o;
      ghost var done := out[..copied];
      ReadStretch(v, i, inode, pos, take, out, copied, files);
      ReadsMore(v.geo, v.disk, i, offset, done, out[copied..copied + take]);
      assert out[..copied + take] == done + out[copied..copied + take];
      copied := copied + take;
    }
  }

  /** A successful write, then a read of the same place: the bytes come back. */
  method WriteThenRead(v: Io.Volume, i: nat, offset: nat, data: seq<byte>, out: array<byte>, ghost files: set<nat>)
    returns (w: Kerr, r: Kerr, n: nat)
    requires v.Ready() && Accounts(v.geo, v.disk, v.sup) && FilesOk(v.geo, v.disk, files)
    requires InodeInRange(v.geo, i) && (Inode(v.geo, i) ==> i in files) && offset < LIMIT32 && 0 < |data| < LIMIT32
    requires |data| <= out.Length
    requires out != v.bufBlock && out != v.bufBlock2 && out != v.bufBlock3 && out != v.bufBlock4 && out != v.bufInode
    requires out != v.bufSector
    requires out != v.bufBitmap
    modifies v`disk, v`sup, out, v.bufBlock, v.bufBlock2, v.bufBlock3, v.bufBlock4, v.bufBitmap, v.bufSector, v.bufInode
    ensures w == Good ==> r == Good && n == |data| && out[..n] == data
  {
    hide Accounts, FilesOk, Layout, Get32, Get16, Shape, Reads, GroupOf, Sized, Written, IsRegular, SameRecs, PartWrote,
      DiskFull, Rec;
    ghost var d0 := v.disk;
    w := WriteFile(v, i, offset, data, files);
    if w != Good {
      return w, w, 0;
    }
    WrittenEnd(v.geo, d0, v.disk, files, i, offset, data);
    r, n := ReadFile(v, i, offset, |data|, out, files);
    ReadBack(v.geo, d0, v.disk, files, i, offset, data, out[..n]);
  }

  lemma WrittenEnd(geo: Geo, d0: seq<byte>, d: seq<byte>, files: set<nat>, i: nat, offset: nat, data: seq<byte>)
    requires Written(geo, d0, d, files, i, offset, data)
    ensures Volume(geo, d) && Inode(geo, i) && offset + |data| <= Get32(Rec(geo, d, i), SIZE)
    ensures IsRegular(Rec(geo, d, i))
    ensures offset + |data| < LIMIT32
  {
  }

  lemma ReadBack(geo: Geo, d0: seq<byte>, d: seq<byte>, files: set<nat>, i: nat, offset: nat, data: seq<byte>,
                 s: seq<byte>)
    requires Written(geo, d0, d, files, i, offset, data) && i in files && Reads(geo, d, i, offset, s) && |s| == |data|
    ensures s == data
  {
    hide Volume, ByteAt, FilesOk, Rec, Get32, IsRegular;
    forall k: nat | k < |s| ensures s[k] == data[k] {
      assert ReadByte(geo, d, i, offset, s, k);
      assert ByteGoal(geo, d0, d, i, offset, data, i, offset + k);
    }
  }
}
