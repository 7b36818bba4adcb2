/**
 A file's life (src/fs/ext2/ext2_file.c, ext2_dir.c): ext2_create_file, ext2_remove_file, and what
 the two together do to the free space.
 */
module Ext2Life {
  import opened Bits
  import opened Words
  import opened Ext2Layout
  import opened Ext2Space
  import opened Ext2Tree
  import opened Ext2Files
  import opened Ext2Spend
  import opened Ext2Write
  import opened Ext2Chain
  import opened Ext2DirBlock
  import opened Ext2DirScan
  import opened Ext2Names
  import opened Ext2Dir
  import opened Ext2DirAdd
  import opened Ext2Move
  import Alloc = Ext2Alloc
  import Io = Ext2Io

  // ---------------------------------------------------------------- free inodes, and blocks of a file

  /** The free inodes, numbered from zero. */
  ghost function FreeInodes(geo: Geo, d: seq<byte>): set<nat>
    requires Volume(geo, d)
  {
    FreeItems(geo, d, Inodes, Items(geo, Inodes))
  }

  /** All blocks of file `i`, data and pointers, numbered from the first data block. */
  ghost function BlocksOf(geo: Geo, d: seq<byte>, i: nat): set<nat>
    requires Volume(geo, d) && Inode(geo, i)
  {
    set n: nat | n < Items(geo, Blocks) && InSlots(geo, d, i, SLOTS, n)
  }

  /** The inode of every file is marked. */
  ghost predicate Live(geo: Geo, d: seq<byte>, files: set<nat>) {
    Volume(geo, d) && forall j :: j in files ==> Inode(geo, j) && Marked(geo, d, Inodes, j - 1)
  }

  ghost predicate KeptFiles(geo: Geo, d: seq<byte>, d2: seq<byte>, files: set<nat>) {
    && Volume(geo, d) && Volume(geo, d2) && (forall j :: j in files ==> Inode(geo, j))
    && forall j :: j in files ==> Kept(geo, d, d2, j)
  }

  /** The superblock counts them. */
  lemma FreeTotals(geo: Geo, d: seq<byte>, sup: seq<byte>)
    requires Accounts(geo, d, sup)
    ensures Volume(geo, d) && |sup| == SUPER_SIZE
    ensures Get32(sup, TotalAt(Blocks)) == |FreeBlocks(geo, d)| && Get32(sup, TotalAt(Inodes)) == |FreeInodes(geo, d)|
  {
    assert Grouped(geo, Blocks) && Grouped(geo, Inodes);
    hide Layout, Total, FreeItems, GroupOk, Get32;
    TotalIsFree(geo, d, Blocks, geo.groups);
    TotalIsFree(geo, d, Inodes, geo.groups);
    assert UpTo(geo, Blocks, geo.groups) == Items(geo, Blocks) && UpTo(geo, Inodes, geo.groups) == Items(geo, Inodes);
  }

  lemma MarksFree(geo: Geo, d: seq<byte>, d2: seq<byte>)
    requires SameMarks(geo, d, d2)
    ensures FreeBlocks(geo, d2) == FreeBlocks(geo, d) && FreeInodes(geo, d2) == FreeInodes(geo, d)
  {
    hide Volume, Marked, Items;
    forall n: nat ensures n in FreeBlocks(geo, d2) <==> n in FreeBlocks(geo, d) {
      if n < Items(geo, Blocks) { assert SameMark(geo, d, d2, Blocks, n); }
    }
    forall n: nat ensures n in FreeInodes(geo, d2) <==> n in FreeInodes(geo, d) {
      if n < Items(geo, Inodes) { assert SameMark(geo, d, d2, Inodes, n); }
    }
  }

  lemma MarksLive(geo: Geo, d: seq<byte>, d2: seq<byte>, files: set<nat>)
    requires SameMarks(geo, d, d2) && Live(geo, d, files)
    ensures Live(geo, d2, files)
  {
    hide Volume, Marked;
    forall j | j in files ensures Marked(geo, d2, Inodes, j - 1) {
      assert SameMark(geo, d, d2, Inodes, j - 1);
    }
  }

  /** An inode marked or freed. */
  lemma TurnedFree(geo: Geo, d: seq<byte>, d2: seq<byte>, n: nat, v: bool)
    requires Turned(geo, d, d2, Inodes, n, v) && n < Items(geo, Inodes)
    ensures Volume(geo, d) && Volume(geo, d2) && FreeBlocks(geo, d2) == FreeBlocks(geo, d)
    ensures FreeInodes(geo, d2) == if v then FreeInodes(geo, d) - {n} else FreeInodes(geo, d) + {n}
  {
    TurnedVolumes(geo, d, d2, Inodes, n, v);
    hide Volume, Marked, Items, SameContents;
    forall m: nat ensures m in FreeBlocks(geo, d2) <==> m in FreeBlocks(geo, d) {
      if m < Items(geo, Blocks) { assert MarkedLike(geo, d, d2, Inodes, n, v, Blocks, m); }
    }
    forall m: nat ensures m in FreeInodes(geo, d2) <==> if m == n then !v else m in FreeInodes(geo, d) {
      if m < Items(geo, Inodes) { assert MarkedLike(geo, d, d2, Inodes, n, v, Inodes, m); }
    }
  }

  lemma TurnedLive(geo: Geo, d: seq<byte>, d2: seq<byte>, files: set<nat>, n: nat, v: bool)
    requires Turned(geo, d, d2, Inodes, n, v) && n < Items(geo, Inodes) && Live(geo, d, files)
    ensures Live(geo, d2, if v then files + {n + 1} else files - {n + 1})
  {
    TurnedVolumes(geo, d, d2, Inodes, n, v);
    hide Volume, Marked, SameContents;
    var files2 := if v then files + {n + 1} else files - {n + 1};
    forall j | j in files2 ensures Inode(geo, j) && Marked(geo, d2, Inodes, j - 1) {
      assert MarkedLike(geo, d, d2, Inodes, n, v, Inodes, j - 1);
    }
  }

  lemma TurnedContents(geo: Geo, d: seq<byte>, d2: seq<byte>, kind: Kind, n: nat, v: bool)
    requires Turned(geo, d, d2, kind, n, v)
    ensures Volume(geo, d) && Volume(geo, d2) && SameContents(geo, d, d2) && SameRest(geo, d, d2)
  {
  }

  /** A change of bitmaps and counts leaves every file. */
  lemma ContentsKept(geo: Geo, d: seq<byte>, d2: seq<byte>, files: set<nat>)
    requires FilesOk(geo, d, files) && SameContents(geo, d, d2)
    ensures KeptFiles(geo, d, d2, files)
  {
    hide Shape, Layout, Sized, Marked, IsData, Reg, At, Items, OneOwner, FreeOk;
    forall j | j in files ensures Kept(geo, d, d2, j) {
      assert SameReg(geo, d, d2, Record(j));
      forall q | Within(geo, q) ensures SameBlock(geo, d, d2, At(geo, d, j, q)) {
        assert NodeOk(geo, d, j, q);
        SameContentsBlock(geo, d, d2, At(geo, d, j, q));
      }
      forall q | Within(geo, q) ensures KeptAt(geo, d, d2, j, q) {
        AtSame(geo, d, d2, j, q);
      }
    }
  }

  lemma InodeTurned(geo: Geo, d: seq<byte>, d2: seq<byte>, files: set<nat>, n: nat, v: bool)
    requires FilesOk(geo, d, files) && Turned(geo, d, d2, Inodes, n, v)
    ensures FilesOk(geo, d2, files)
  {
    ContentsKept(geo, d, d2, files);
    hide Shape, Layout, Sized, Marked, At, Items, NodeOk, OneOwner, FreeOk, SameBlock, Rec, SameContents;
    forall j, p | j in files && Within(geo, p) ensures SameAt(geo, d, d2, j, p) {
      assert Kept(geo, d, d2, j);
      assert KeptAt(geo, d, d2, j, p);
    }
    forall m: nat | m < Items(geo, Blocks) ensures StillMarked(geo, d, d2, m) {
      assert MarkedLike(geo, d, d2, Inodes, n, v, Blocks, m);
    }
    SteadyOk(geo, d, d2, files);
  }

  /** A file left alone has the blocks it had. */
  lemma KeptBlocks(geo: Geo, d: seq<byte>, d2: seq<byte>, i: nat)
    requires Volume(geo, d) && Volume(geo, d2) && Inode(geo, i) && Kept(geo, d, d2, i)
    ensures BlocksOf(geo, d2, i) == BlocksOf(geo, d, i)
  {
    hide Volume, At, SameBlock, Rec, Items;
    forall n: nat ensures InSlots(geo, d2, i, SLOTS, n) <==> InSlots(geo, d, i, SLOTS, n) {
      forall q | Within(geo, q) ensures At(geo, d2, i, q) == At(geo, d, i, q) {
        assert KeptAt(geo, d, d2, i, q);
      }
    }
  }

  lemma KeptDir(geo: Geo, d: seq<byte>, sup: seq<byte>, d2: seq<byte>, sup2: seq<byte>, files: set<nat>,
                files2: set<nat>, p: nat)
    requires DirState(geo, d, sup, files, p) && Accounts(geo, d2, sup2) && FilesOk(geo, d2, files2) && p in files2
    requires Volume(geo, d2) && Kept(geo, d, d2, p)
    ensures DirState(geo, d2, sup2, files2, p) && DirMap(geo, d2, p) == DirMap(geo, d, p)
  {
    hide Accounts, FilesOk, Layout, Shape, Sized, IsDir, DirOk, DirMap, Kept;
    KeptMeans(geo, d, d2, p, 0);
  }

  lemma {:induction false} KeptMore(geo: Geo, d: seq<byte>, d1: seq<byte>, d2: seq<byte>, files: set<nat>)
    requires KeptFiles(geo, d, d1, files) && KeptFiles(geo, d1, d2, files)
    ensures KeptFiles(geo, d, d2, files)
  {
    hide Volume, Kept;
    forall j | j in files ensures Kept(geo, d, d2, j) {
      KeptTrans(geo, d, d1, d2, j);
    }
  }

  // ---------------------------------------------------------------- removal

  /** Blocks and inode of file `i` are free, and nothing else differs. */
  ghost predicate Released(geo: Geo, d: seq<byte>, d2: seq<byte>, sup2: seq<byte>, files: set<nat>, i: nat) {
    && Volume(geo, d) && Inode(geo, i) && Accounts(geo, d2, sup2) && FilesOk(geo, d2, files - {i})
    && KeptFiles(geo, d, d2, files) && Live(geo, d2, files - {i})
    && FreeBlocks(geo, d) !! BlocksOf(geo, d, i) && i - 1 !in FreeInodes(geo, d)
    && FreeBlocks(geo, d2) == FreeBlocks(geo, d) + BlocksOf(geo, d, i)
    && FreeInodes(geo, d2) == FreeInodes(geo, d) + {i - 1}
  }

  lemma ClearedFree(geo: Geo, d: seq<byte>, d2: seq<byte>, i: nat, freed: set<nat>)
    requires Cleared(geo, d, d2, freed) && Inode(geo, i) && Volume(geo, d) && FreedSlots(geo, d, i, SLOTS, freed)
    ensures freed == BlocksOf(geo, d, i) && FreeBlocks(geo, d) !! freed
    ensures Volume(geo, d2) && FreeBlocks(geo, d2) == FreeBlocks(geo, d) + freed
    ensures FreeInodes(geo, d2) == FreeInodes(geo, d)
  {
    hide Layout, Shape, Sized, Marked, Items, SameReg, InSlots, Sound;
    forall n: nat | n < Items(geo, Blocks)
      ensures n in FreeBlocks(geo, d2) <==> n in FreeBlocks(geo, d) || n in freed
    {
      assert ClearedAt(geo, d, d2, freed, n);
    }
    forall n: nat | n < Items(geo, Inodes) ensures n in FreeInodes(geo, d2) <==> n in FreeInodes(geo, d) {
      assert SameInodeMark(geo, d, d2, n);
    }
  }

  lemma ClearedLive(geo: Geo, d: seq<byte>, d2: seq<byte>, files: set<nat>, freed: set<nat>)
    requires Cleared(geo, d, d2, freed) && Live(geo, d, files)
    ensures Live(geo, d2, files)
  {
    assert Volume(geo, d2);
    hide Volume, Marked, SameContents;
    forall j | j in files ensures Marked(geo, d2, Inodes, j - 1) {
      assert SameInodeMark(geo, d, d2, j - 1);
    }
  }

  lemma ReleasedIs(geo: Geo, d: seq<byte>, d1: seq<byte>, d2: seq<byte>, sup2: seq<byte>, files: set<nat>, i: nat,
                   freed: set<nat>)
    requires Owner(geo, d, files, i) && Live(geo, d, files) && Cleared(geo, d, d1, freed)
    requires FreedSlots(geo, d, i, SLOTS, freed) && FilesOk(geo, d1, files - {i})
    requires Turned(geo, d1, d2, Inodes, i - 1, false) && Accounts(geo, d2, sup2)
    ensures Released(geo, d, d2, sup2, files, i)
  {
    hide Accounts, FilesOk, Layout, Shape, Sized, Turned, Cleared, KeptFiles, FreeBlocks, FreeInodes, BlocksOf, Items,
      SameContents, Live, FreedSlots;
    LiveUsed(geo, d, files, i);
    ClearedContents(geo, d, d1, freed);
    TurnedContents(geo, d1, d2, Inodes, i - 1, false);
    ClearedFree(geo, d, d1, i, freed);
    TurnedFree(geo, d1, d2, i - 1, false);
    ClearedLive(geo, d, d1, files, freed);
    TurnedLive(geo, d1, d2, files, i - 1, false);
    InodeTurned(geo, d1, d2, files - {i}, i - 1, false);
    ContentsTrans(geo, d, d1, d2);
    ContentsKept(geo, d, d2, files);
  }

  lemma ClearedContents(geo: Geo, d: seq<byte>, d2: seq<byte>, freed: set<nat>)
    requires Cleared(geo, d, d2, freed)
    ensures SameContents(geo, d, d2) && SameRest(geo, d, d2)
  {
  }

  lemma LiveUsed(geo: Geo, d: seq<byte>, files: set<nat>, i: nat)
    requires Live(geo, d, files) && i in files
    ensures i - 1 !in FreeInodes(geo, d) && i - 1 < Items(geo, Inodes)
  {
    hide Volume, Marked;
  }

  lemma ContentsTrans(geo: Geo, d: seq<byte>, d1: seq<byte>, d2: seq<byte>)
    requires SameContents(geo, d, d1) && SameContents(geo, d1, d2)
    ensures SameContents(geo, d, d2)
  {
    hide Layout, Shape, Sized, Sound, Reg;
    forall r | Sound(geo, r) && (r.Record? || r.Data?) ensures SameReg(geo, d, d2, r) {
      assert SameReg(geo, d, d1, r) && SameReg(geo, d1, d2, r);
    }
  }

  /** free_inode_and_blocks. */
  method FreeInodeAndBlocks(v: Io.Volume, i: nat, ghost files: set<nat>) returns (ok: bool)
    requires v.Ready() && Accounts(v.geo, v.disk, v.sup) && Owner(v.geo, v.disk, files, i)
    requires Live(v.geo, v.disk, files)
    modifies v`disk, v`sup, v.bufBitmap, v.bufSector, v.bufBlock, v.bufBlock3, v.bufBlock4, v.bufInode
    ensures v.Ready() && ok && Released(v.geo, old(v.disk), v.disk, v.sup, files, i)
    ensures SameRest(v.geo, old(v.disk), v.disk)
  {
    hide Accounts, FilesOk, Layout, GroupOf, Live, Turned, Cleared, FreedSlots, Released, Get32, Marked, Pointer,
      SameRest;
    InRange(v.geo, i);
    ghost var d := v.disk;
    var _, inode := ReadInode(v, i);
    var inode2, freed := FreeInodeBlockChain(v, inode, files, i);
    ghost var d1 := v.disk;
    StillTaken(v.geo, d, d1, files, i, freed);
    ok := Alloc.FreeInode(v, i);
    ReleasedIs(v.geo, d, d1, v.disk, v.sup, files, i, freed);
    ClearedContents(v.geo, d, d1, freed);
    TurnedContents(v.geo, d1, v.disk, Inodes, i - 1, false);
    RestMore(v.geo, d, d1, v.disk);
  }

  lemma StillTaken(geo: Geo, d: seq<byte>, d1: seq<byte>, files: set<nat>, i: nat, freed: set<nat>)
    requires Cleared(geo, d, d1, freed) && Live(geo, d, files) && i in files
    ensures Volume(geo, d1) && Alloc.Taken(geo, d1, Inodes, i - 1) && GroupOf(geo, Inodes, i - 1) < geo.groups
  {
    hide Marked;
    assert SameInodeMark(geo, d, d1, i - 1);
    ItemPlace(geo, Inodes, i - 1);
  }

  /** The name in directory `p` is that of a regular file, by its entry. */
  ghost predicate NamesFile(geo: Geo, d: seq<byte>, p: nat, name: seq<byte>)
    requires Volume(geo, d) && Inode(geo, p)
  {
    name in DirMap(geo, d, p) && DirMap(geo, d, p)[name].ftype == FT_REG
  }

  /** The file is gone from its directory; its inode and its blocks, and no others, are free. */
  ghost predicate FileRemoved(geo: Geo, d: seq<byte>, d2: seq<byte>, sup2: seq<byte>, files: set<nat>, p: nat,
                              name: seq<byte>, c: nat) {
    && Volume(geo, d) && Inode(geo, p) && Inode(geo, c) && DirState(geo, d2, sup2, files - {c}, p)
    && DirMap(geo, d2, p) == DirMap(geo, d, p) - {name}
    && KeptFiles(geo, d, d2, files - {p, c}) && Live(geo, d2, files - {c})
    && FreeBlocks(geo, d) !! BlocksOf(geo, d, c) && c - 1 !in FreeInodes(geo, d)
    && FreeBlocks(geo, d2) == FreeBlocks(geo, d) + BlocksOf(geo, d, c)
    && FreeInodes(geo, d2) == FreeInodes(geo, d) + {c - 1}
  }

  lemma FileRemovedIs(geo: Geo, d: seq<byte>, sup: seq<byte>, d1: seq<byte>, d2: seq<byte>, sup2: seq<byte>,
                      files: set<nat>, p: nat, name: seq<byte>, c: nat)
    requires Volume(geo, d) && DirState(geo, d1, sup, files, p) && DirMap(geo, d1, p) == DirMap(geo, d, p) - {name}
    requires OthersSame(geo, d, d1, files, p) && SameMarks(geo, d, d1) && c in files && c != p
    requires Released(geo, d1, d2, sup2, files, c)
    ensures FileRemoved(geo, d, d2, sup2, files, p, name, c)
  {
    MarksFree(geo, d, d1);
    hide Accounts, FilesOk, Layout, Shape, Sized, IsDir, DirOk, DirMap, Kept, BlocksOf, FreeBlocks, FreeInodes, Live,
      SameMarks;
    KeptBlocks(geo, d, d1, c);
    KeptDir(geo, d1, sup, d2, sup2, files, files - {c}, p);
    assert KeptFiles(geo, d, d1, files - {p, c}) && KeptFiles(geo, d1, d2, files - {p, c});
    KeptMore(geo, d, d1, d2, files - {p, c});
  }

  lemma ReleasedRec(geo: Geo, d: seq<byte>, d2: seq<byte>, sup2: seq<byte>, files: set<nat>, c: nat, p: nat)
    requires Released(geo, d, d2, sup2, files, c) && p in files && Inode(geo, p)
    ensures Volume(geo, d) && Volume(geo, d2) && Rec(geo, d2, p) == Rec(geo, d, p)
  {
    hide Accounts, FilesOk, Layout, Shape, Sized, FreeBlocks, FreeInodes, Live, BlocksOf, KeptAt;
    assert Kept(geo, d, d2, p);
  }

  /** ext2_remove_file once the parent is found. */
  method RemoveFile(v: Io.Volume, p: nat, name: seq<byte>, ghost files: set<nat>) returns (r: Kerr)
    requires v.Ready() && DirState(v.geo, v.disk, v.sup, files, p) && Live(v.geo, v.disk, files)
    requires NamesFile(v.geo, v.disk, p, name) ==>
               DirMap(v.geo, v.disk, p)[name].ino in files && DirMap(v.geo, v.disk, p)[name].ino != p
    modifies v`disk, v`sup, v.bufBitmap, v.bufSector, v.bufBlock, v.bufBlock3, v.bufBlock4, v.bufInode
    ensures v.Ready() && (r == Good <==> NamesFile(v.geo, old(v.disk), p, name)) && (r == Good || r == NotFound)
    ensures r == NotFound ==> v.disk == old(v.disk) && v.sup == old(v.sup)
    ensures r == Good ==>
              FileRemoved(v.geo, old(v.disk), v.disk, v.sup, files, p, name, DirMap(v.geo, old(v.disk), p)[name].ino)
    ensures r == Good ==>
              && SameRest(v.geo, old(v.disk), v.disk) && Rec(v.geo, v.disk, p) == Rec(v.geo, old(v.disk), p)
              && |v.sup| == |old(v.sup)| == SUPER_SIZE
              && Get32(v.sup, TotalAt(Inodes)) == Get32(old(v.sup), TotalAt(Inodes)) + 1
              && Get32(v.sup, TotalAt(Blocks)) ==
                 Get32(old(v.sup), TotalAt(Blocks)) +
                 |BlocksOf(v.geo, old(v.disk), DirMap(v.geo, old(v.disk), p)[name].ino)|
  {
    hide Accounts, FilesOk, Layout, Shape, IsDir, DirOk, DirMap, Kept, HitAt, Sized, GroupOf, Rec, Released,
      FileRemoved, SameMarks, OthersSame, Live, BlocksOf, Get32, SameRest;
    InRange(v.geo, p);
    ghost var d, sup := v.disk, v.sup;
    var f := FindEntry(v, p, name, files);
    if !f.Hit? || f.ftype != FT_REG {
      return NotFound;
    }
    var _ := RemoveEntry(v, p, name, files);
    ghost var d1 := v.disk;
    MarksLive(v.geo, d, d1, files);
    FilesInodes(v.geo, d1, files);
    var _ := FreeInodeAndBlocks(v, f.ino, files);
    FileRemovedIs(v.geo, d, sup, d1, v.disk, v.sup, files, p, name, f.ino);
    RemovedTotals(v.geo, d, sup, v.disk, v.sup, files, p, name, f.ino);
    ReleasedRec(v.geo, d1, v.disk, v.sup, files, f.ino, p);
    RestMore(v.geo, d, d1, v.disk);
    return Good;
  }

  // ---------------------------------------------------------------- creation

  const CTIME := 12
  const MTIME := 16

  /** An inode of zeros but for its mode and link count. */
  function Blank(mode: nat, links: nat): (r: seq<byte>)
    requires mode < LIMIT16 && links < LIMIT16
    ensures |r| == INODE_SIZE
  {
    Put16(Put16(seq(INODE_SIZE, _ => 0), MODE, mode), LINKS, links)
  }

  /** An inode that is zero outside some fields. */
  predicate ZeroBut(rec: seq<byte>, fields: set<nat>) {
    |rec| >= INODE_SIZE && forall x :: 0 <= x < INODE_SIZE && x !in fields ==> rec[x] == 0
  }

  lemma BlankIs(mode: nat, links: nat)
    requires mode < LIMIT16 && links < LIMIT16
    ensures ZeroBut(Blank(mode, links), Field(MODE, 2) + Field(LINKS, 2))
    ensures var r := Blank(mode, links);
            && Get16(r, MODE) == mode && Get16(r, LINKS) == links && Get32(r, SIZE) == 0
            && forall s :: 0 <= s < SLOTS ==> Pointer(r, s) == 0
  {
    var zero: seq<byte> := seq(INODE_SIZE, _ => 0);
    var r := Put16(zero, MODE, mode);
    assert Get32(zero, SIZE) == 0 && forall s :: 0 <= s < SLOTS ==> Pointer(zero, s) == 0;
    hide Put16, Get16, Get32;
    AgreePut16(zero, MODE, mode);
    AgreePut16(r, LINKS, links);
    AgreeMore(zero, r, Blank(mode, links), Field(MODE, 2), Field(LINKS, 2));
    Put16Get(zero, MODE, mode);
    Put16Get(r, LINKS, links);
    Put16Elsewhere(zero, MODE, mode, SIZE);
    Put16Elsewhere(r, LINKS, links, SIZE);
    Put16Elsewhere(r, LINKS, links, MODE);
    forall s | 0 <= s < SLOTS ensures Pointer(Blank(mode, links), s) == 0 {
      Put16Elsewhere(zero, MODE, mode, BLOCK + 4 * s);
      Put16Elsewhere(r, LINKS, links, BLOCK + 4 * s);
    }
  }

  /** setup_new_file_inode: a regular file with one link, mode 0644 and nothing in it. */
  function NewFile(): (r: seq<byte>)
    ensures |r| == INODE_SIZE
  {
    Blank(0x8000 + 0x1A4, 1)
  }

  /** An inode with its times set to zero. */
  function Untimed(inode: seq<byte>): (r: seq<byte>)
    requires |inode| == INODE_SIZE
    ensures |r| == INODE_SIZE
  {
    Put32(Put32(inode, MTIME, 0), CTIME, 0)
  }

  lemma UntimedIs(inode: seq<byte>)
    requires |inode| == INODE_SIZE
    ensures PointersBut(inode, Untimed(inode), SLOTS) && Get16(Untimed(inode), MODE) == Get16(inode, MODE)
    ensures Get16(Untimed(inode), LINKS) == Get16(inode, LINKS)
  {
    hide Put32, Get16, Get32;
    var r := Put32(inode, MTIME, 0);
    Put32Elsewhere(inode, MTIME, 0, MODE);
    Put32Elsewhere(r, CTIME, 0, MODE);
    Put32Elsewhere(inode, MTIME, 0, LINKS);
    Put32Elsewhere(r, CTIME, 0, LINKS);
    forall s | 0 <= s < SLOTS ensures Pointer(Untimed(inode), s) == Pointer(inode, s) {
      Put32Elsewhere(inode, MTIME, 0, BLOCK + 4 * s);
      Put32Elsewhere(r, CTIME, 0, BLOCK + 4 * s);
    }
  }

  function Times(): set<nat> {
    Field(CTIME, 4) + Field(MTIME, 4)
  }

  /**
   The inode of a parent after an entry was added: its times are zero, it may have got a block, and
   nothing else differs but the fields `more`.
   */
  predicate ParentRec(a: seq<byte>, b: seq<byte>, bs: nat, grown: bool, more: set<nat>) {
    && AgreeBut(a, b, Times() + more + if grown then Extent() else {})
    && Get32(b, CTIME) == 0 && Get32(b, MTIME) == 0
    && (Get32(b, SIZE) == if grown then (Get32(a, SIZE) + bs) % LIMIT32 else Get32(a, SIZE))
    && (Get32(b, SECTORS) == if grown then (Get32(a, SECTORS) + bs / 512) % LIMIT32 else Get32(a, SECTORS))
  }

  lemma UntimedFields(inode: seq<byte>)
    requires |inode| == INODE_SIZE
    ensures AgreeBut(inode, Untimed(inode), Times())
    ensures Get32(Untimed(inode), CTIME) == 0 && Get32(Untimed(inode), MTIME) == 0
    ensures Get32(Untimed(inode), SIZE) == Get32(inode, SIZE) && Get32(Untimed(inode), SECTORS) == Get32(inode, SECTORS)
  {
    hide Put32, Get32;
    var r := Put32(inode, MTIME, 0);
    AgreePut32(inode, MTIME, 0);
    AgreePut32(r, CTIME, 0);
    AgreeMore(inode, r, Untimed(inode), Field(MTIME, 4), Field(CTIME, 4));
    Put32Get(inode, MTIME, 0);
    Put32Get(r, CTIME, 0);
    Put32Elsewhere(r, CTIME, 0, MTIME);
    AgreeGet(inode, Untimed(inode), Field(MTIME, 4) + Field(CTIME, 4), SIZE);
    AgreeGet(inode, Untimed(inode), Field(MTIME, 4) + Field(CTIME, 4), SECTORS);
  }

  /** An entry added, then perhaps some field written, then the times. */
  lemma UntimedRec(inode: seq<byte>, inode2: seq<byte>, inode3: seq<byte>, bs: nat, grown: bool, more: set<nat>)
    requires |inode| == |inode2| == INODE_SIZE && GrownRec(inode, inode2, bs, grown) && inode3 == Untimed(inode2)
    ensures ParentRec(inode, inode3, bs, grown, more)
  {
    hide Untimed, Get32;
    UntimedFields(inode2);
    AgreeMore(inode, inode2, inode3, if grown then Extent() else {}, Times());
  }

  lemma HeadParent(a: seq<byte>, b: seq<byte>, bs: nat, grown: bool, more: set<nat>)
    requires |a| >= INODE_SIZE && |b| >= INODE_SIZE
    requires ParentRec(a[..INODE_SIZE], b[..INODE_SIZE], bs, grown, more)
    ensures ParentRec(a, b, bs, grown, more)
  {
    var c, e := a[..INODE_SIZE], b[..INODE_SIZE];
    assert forall x :: 0 <= x < INODE_SIZE ==> c[x] == a[x] && e[x] == b[x];
  }

  /** An inode without pointers has no blocks. */
  lemma NoBlocks(geo: Geo, d: seq<byte>, c: nat, p: Path)
    requires Volume(geo, d) && Inode(geo, c) && Within(geo, p) && Pointer(Rec(geo, d, c), p.slot) == 0
    ensures At(geo, d, c, p) == 0
  {
    hide Layout, Shape, Sized, Pointer, Rec;
    NodeRoot(geo, d, Rec(geo, d, c), p.slot);
    NothingBelow(geo, d, Rec(geo, d, c), p.slot, [], p.idx);
  }

  lemma NoneOf(geo: Geo, d: seq<byte>, c: nat)
    requires Volume(geo, d) && Inode(geo, c)
    requires forall s :: 0 <= s < SLOTS ==> Pointer(Rec(geo, d, c), s) == 0
    ensures BlocksOf(geo, d, c) == {}
  {
    hide Volume, Pointer, Rec, At, Items;
    forall p | Within(geo, p) ensures At(geo, d, c, p) == 0 {
      NoBlocks(geo, d, c, p);
    }
  }

  /** The record of an inode that is no file touches none. */
  lemma OtherRecord(geo: Geo, d: seq<byte>, files: set<nat>, c: nat, inode: seq<byte>)
    requires FilesOk(geo, d, files) && Inode(geo, c) && c !in files && |inode| == INODE_SIZE
    ensures Volume(geo, d) && KeptFiles(geo, d, Virtual(geo, d, c, inode), files)
  {
    hide Shape, Layout, Sized, Marked, Reg, At, Items, OneOwner, FreeOk, IsData, Put;
    var v := Virtual(geo, d, c, inode);
    forall j | j in files ensures Kept(geo, d, v, j) {
      VirtualRec(geo, d, c, inode, j);
      forall q | Within(geo, q) ensures SameBlock(geo, d, v, At(geo, d, j, q)) {
        assert NodeOk(geo, d, j, q);
        RecordPutBlock(geo, d, c, Padded(geo, inode), At(geo, d, j, q));
      }
      forall q | Within(geo, q) ensures KeptAt(geo, d, v, j, q) {
        AtSame(geo, d, v, j, q);
      }
    }
  }

  lemma KeptSteady(geo: Geo, d: seq<byte>, d2: seq<byte>, files: set<nat>)
    requires FilesOk(geo, d, files) && KeptFiles(geo, d, d2, files) && SameMarks(geo, d, d2)
    ensures FilesOk(geo, d2, files)
  {
    hide Shape, Layout, Sized, Marked, At, Items, NodeOk, OneOwner, FreeOk, SameBlock, Rec;
    forall j, p | j in files && Within(geo, p) ensures SameAt(geo, d, d2, j, p) {
      assert Kept(geo, d, d2, j);
      assert KeptAt(geo, d, d2, j, p);
    }
    forall m: nat | m < Items(geo, Blocks) ensures StillMarked(geo, d, d2, m) {
      assert SameMark(geo, d, d2, Blocks, m);
    }
    SteadyOk(geo, d, d2, files);
  }

  /** A file without blocks is no trouble to the others. */
  lemma OneMore(geo: Geo, d: seq<byte>, files: set<nat>, c: nat)
    requires FilesOk(geo, d, files) && Inode(geo, c) && Volume(geo, d)
    requires forall s :: 0 <= s < SLOTS ==> Pointer(Rec(geo, d, c), s) == 0
    ensures FilesOk(geo, d, files + {c})
  {
    hide Shape, Layout, Sized, Marked, At, Items, FreeOk, Rec, Pointer, IsData;
    forall p | Within(geo, p) ensures At(geo, d, c, p) == 0 {
      NoBlocks(geo, d, c, p);
    }
    forall i, p, j, q | i in files + {c} && j in files + {c} && Within(geo, p) && Within(geo, q)
      ensures OneOwner(geo, d, i, p, j, q)
    {
      if i in files && j in files { assert OneOwner(geo, d, i, p, j, q); }
    }
  }

  lemma FewerFiles(geo: Geo, d: seq<byte>, files: set<nat>, c: nat)
    requires FilesOk(geo, d, files)
    ensures FilesOk(geo, d, files - {c})
  {
    hide Volume, NodeOk, OneOwner, FreeOk;
  }

  /** The new inode written. */
  lemma NewFileOk(geo: Geo, d: seq<byte>, sup: seq<byte>, files: set<nat>, c: nat)
    requires Accounts(geo, d, sup) && FilesOk(geo, d, files) && Inode(geo, c) && c !in files && Volume(geo, d)
    ensures var v := Virtual(geo, d, c, NewFile());
            && Accounts(geo, v, sup) && FilesOk(geo, v, files + {c}) && KeptFiles(geo, d, v, files)
            && SameMarks(geo, d, v) && EmptyFile(geo, v, c)
  {
    hide Accounts, FilesOk, Layout, Shape, Sized, Put, Get16, Get32, KeptFiles, SameMarks, Pointer, Blank, Marked,
      BlocksOf;
    BlankIs(0x8000 + 0x1A4, 1);
    assert IsRegular(NewFile());
    var v := Virtual(geo, d, c, NewFile());
    PutAccounts(geo, d, sup, Record(c), Padded(geo, NewFile()));
    PutSameMarks(geo, d, Record(c), Padded(geo, NewFile()));
    OtherRecord(geo, d, files, c, NewFile());
    KeptSteady(geo, d, v, files);
    VirtualRec(geo, d, c, NewFile(), c);
    assert Padded(geo, NewFile())[..INODE_SIZE] == NewFile();
    HeadFields(Padded(geo, NewFile()), NewFile());
    HeadLinks(Padded(geo, NewFile()), NewFile());
    assert forall x :: 0 <= x < INODE_SIZE ==> Padded(geo, NewFile())[x] == NewFile()[x];
    NoneOf(geo, v, c);
    OneMore(geo, v, files, c);
  }

  /** A regular file with one link, permissions 0644, no bytes and no blocks, and nothing else in its inode. */
  ghost predicate EmptyFile(geo: Geo, d: seq<byte>, c: nat) {
    && Volume(geo, d) && Inode(geo, c) && IsRegular(Rec(geo, d, c)) && Get32(Rec(geo, d, c), SIZE) == 0
    && Links(geo, d, c) == 1 && BlocksOf(geo, d, c) == {} && Get16(Rec(geo, d, c), MODE) == 0x81A4
    && ZeroBut(Rec(geo, d, c), Field(MODE, 2) + Field(LINKS, 2))
  }

  /** Some inode can be had. */
  ghost predicate AnyInode(geo: Geo, d: seq<byte>) {
    Volume(geo, d) && exists n: nat :: n < Items(geo, Inodes) && Eligible(geo, Inodes, n) && !Marked(geo, d, Inodes, n)
  }

  /** Room for an entry depends on the directory. */
  lemma RoomSame(geo: Geo, d: seq<byte>, d2: seq<byte>, p: nat, n: nat)
    requires Volume(geo, d) && Volume(geo, d2) && Inode(geo, p) && Kept(geo, d, d2, p)
    ensures AnyRoom(geo, d2, p, n) <==> AnyRoom(geo, d, p, n)
    ensures AnySlot(geo, d2, p) <==> AnySlot(geo, d, p)
  {
    hide Layout, Sized, At, HasRoom, Reg;
    forall s: nat | s < NDIR
      ensures SlotBlock(geo, d2, p, s) == SlotBlock(geo, d, p, s)
      ensures SlotRoom(geo, d2, p, s, n) <==> SlotRoom(geo, d, p, s, n)
    {
      DirectPathIs(geo, s);
      assert KeptAt(geo, d, d2, p, Path(s, []));
    }
    hide Shape, SlotRoom, SlotBlock;
  }

  /** With the free blocks as they are, so does whether an entry can be added. */
  lemma CanAddSame(geo: Geo, d: seq<byte>, d2: seq<byte>, p: nat, n: nat)
    requires Volume(geo, d) && Volume(geo, d2) && Inode(geo, p) && Kept(geo, d, d2, p)
    requires FreeBlocks(geo, d2) == FreeBlocks(geo, d)
    ensures AnyRoom(geo, d2, p, n) <==> AnyRoom(geo, d, p, n)
    ensures CanAdd(geo, d2, p, n) <==> CanAdd(geo, d, p, n)
  {
    RoomSame(geo, d, d2, p, n);
    FullIsNone(geo, d);
    FullIsNone(geo, d2);
    hide Layout, Shape, Sized, Marked, FreeBlocks, Items, AnyRoom, AnySlot, Kept;
  }

  /** Nothing was created: names, files and free space are what they were. */
  ghost predicate Uncreated(geo: Geo, d: seq<byte>, d2: seq<byte>, sup2: seq<byte>, files: set<nat>, p: nat) {
    && Volume(geo, d) && Inode(geo, p) && DirState(geo, d2, sup2, files, p) && DirMap(geo, d2, p) == DirMap(geo, d, p)
    && KeptFiles(geo, d, d2, files) && Live(geo, d2, files)
    && FreeBlocks(geo, d2) == FreeBlocks(geo, d) && FreeInodes(geo, d2) == FreeInodes(geo, d)
  }

  /** The free blocks after an entry of `n` bytes is added: as before, or one fewer if no block had room. */
  ghost predicate RoomTaken(geo: Geo, d: seq<byte>, d2: seq<byte>, p: nat, n: nat)
    requires Volume(geo, d) && Volume(geo, d2) && Inode(geo, p)
  {
    if AnyRoom(geo, d, p, n) then FreeBlocks(geo, d2) == FreeBlocks(geo, d)
    else exists b :: b in FreeBlocks(geo, d) && FreeBlocks(geo, d2) == FreeBlocks(geo, d) - {b}
  }

  /** File `c` is new and empty, its inode the lowest that could be had, and its name is in the directory. */
  ghost predicate FileCreated(geo: Geo, d: seq<byte>, d2: seq<byte>, sup2: seq<byte>, files: set<nat>, p: nat,
                              name: seq<byte>, c: nat) {
    && Volume(geo, d) && Inode(geo, p) && Inode(geo, c) && c !in files && DirState(geo, d2, sup2, files + {c}, p)
    && DirMap(geo, d2, p) == DirMap(geo, d, p)[name := Target(c, FT_REG)]
    && KeptFiles(geo, d, d2, files - {p}) && Live(geo, d2, files + {c}) && EmptyFile(geo, d2, c)
    && c - 1 in FreeInodes(geo, d) && FreeInodes(geo, d2) == FreeInodes(geo, d) - {c - 1}
    && (forall n: nat :: n < c - 1 && Eligible(geo, Inodes, n) ==> Marked(geo, d, Inodes, n))
    && RoomTaken(geo, d, d2, p, |name|)
  }

  /** The volume with the new inode in it, and no name for it yet. */
  ghost predicate Nameless(geo: Geo, d: seq<byte>, d2: seq<byte>, sup2: seq<byte>, files: set<nat>, p: nat, c: nat) {
    && Volume(geo, d) && Inode(geo, p) && Inode(geo, c) && c !in files && p in files
    && DirState(geo, d2, sup2, files + {c}, p) && DirMap(geo, d2, p) == DirMap(geo, d, p)
    && KeptFiles(geo, d, d2, files) && Live(geo, d2, files + {c}) && EmptyFile(geo, d2, c)
    && c - 1 in FreeInodes(geo, d) && FreeInodes(geo, d2) == FreeInodes(geo, d) - {c - 1}
    && FreeBlocks(geo, d2) == FreeBlocks(geo, d)
  }

  lemma UnmarkedFree(geo: Geo, d: seq<byte>, files: set<nat>, c: nat)
    requires Live(geo, d, files) && Inode(geo, c) && !Marked(geo, d, Inodes, c - 1)
    ensures c !in files && c - 1 in FreeInodes(geo, d)
  {
    hide Volume, Marked;
  }

  lemma FreshInode(geo: Geo, d: seq<byte>, sup: seq<byte>, d1: seq<byte>, sup1: seq<byte>, files: set<nat>, p: nat,
                   c: nat)
    requires DirState(geo, d, sup, files, p) && Live(geo, d, files) && Accounts(geo, d1, sup1) && Inode(geo, c)
    requires !Marked(geo, d, Inodes, c - 1) && Turned(geo, d, d1, Inodes, c - 1, true)
    ensures Volume(geo, d1) && Nameless(geo, d, Virtual(geo, d1, c, NewFile()), sup1, files, p, c)
  {
    hide Accounts, FilesOk, Layout, Shape, Sized, IsDir, DirOk, DirMap, Kept, FreeBlocks, FreeInodes, Live, SameMarks,
      Virtual, NewFile, EmptyFile, Turned, Marked, SameContents;
    TurnedContents(geo, d, d1, Inodes, c - 1, true);
    UnmarkedFree(geo, d, files, c);
    ContentsKept(geo, d, d1, files);
    InodeTurned(geo, d, d1, files, c - 1, true);
    TurnedFree(geo, d, d1, c - 1, true);
    TurnedLive(geo, d, d1, files, c - 1, true);
    NewFileOk(geo, d1, sup1, files, c);
    var d2 := Virtual(geo, d1, c, NewFile());
    MarksFree(geo, d1, d2);
    MarksLive(geo, d1, d2, files + {c});
    KeptMore(geo, d, d1, d2, files);
    assert Kept(geo, d, d2, p);
    KeptDir(geo, d, sup, d2, sup1, files, files + {c}, p);
  }

  /** What was marked is cleared again. */
  lemma TurnedBack(geo: Geo, d: seq<byte>, d1: seq<byte>, d2: seq<byte>, d3: seq<byte>, kind: Kind, n: nat)
    requires Volume(geo, d) && !Marked(geo, d, kind, n) && Turned(geo, d, d1, kind, n, true) && SameMarks(geo, d1, d2)
    requires Turned(geo, d2, d3, kind, n, false)
    ensures SameMarks(geo, d, d3)
  {
    hide Volume, Marked, SameContents, Items;
    TurnedVolumes(geo, d2, d3, kind, n, false);
    forall k, m: nat | m < Items(geo, k) ensures SameMark(geo, d, d3, k, m) {
      assert MarkedLike(geo, d, d1, kind, n, true, k, m) && SameMark(geo, d1, d2, k, m);
      assert MarkedLike(geo, d2, d3, kind, n, false, k, m);
    }
  }

  lemma UncreatedIs(geo: Geo, d: seq<byte>, sup: seq<byte>, d2: seq<byte>, sup2: seq<byte>, files: set<nat>, p: nat)
    requires DirState(geo, d, sup, files, p) && Live(geo, d, files) && Accounts(geo, d2, sup2)
    requires SameMarks(geo, d, d2) && KeptFiles(geo, d, d2, files)
    ensures Uncreated(geo, d, d2, sup2, files, p)
  {
    hide Accounts, FilesOk, Layout, Shape, Sized, IsDir, DirOk, DirMap, Kept, FreeBlocks, FreeInodes, Live, SameMarks,
      Marked;
    KeptSteady(geo, d, d2, files);
    MarksFree(geo, d, d2);
    MarksLive(geo, d, d2, files);
    assert Kept(geo, d, d2, p);
    KeptDir(geo, d, sup, d2, sup2, files, files, p);
  }

  /** No room for the name: the inode is freed again. */
  lemma Refunded(geo: Geo, d: seq<byte>, sup: seq<byte>, d1: seq<byte>, d2: seq<byte>, sup2: seq<byte>, d3: seq<byte>,
                 sup3: seq<byte>, files: set<nat>, p: nat, c: nat)
    requires DirState(geo, d, sup, files, p) && Live(geo, d, files) && Nameless(geo, d, d2, sup2, files, p, c)
    requires !Marked(geo, d, Inodes, c - 1) && Turned(geo, d, d1, Inodes, c - 1, true) && SameMarks(geo, d1, d2)
    requires Turned(geo, d2, d3, Inodes, c - 1, false) && Accounts(geo, d3, sup3)
    ensures Uncreated(geo, d, d3, sup3, files, p)
  {
    hide Accounts, FilesOk, Layout, Shape, Sized, IsDir, DirOk, DirMap, Kept, FreeBlocks, FreeInodes, Live, SameMarks,
      EmptyFile, Turned, Marked, SameContents, Uncreated;
    TurnedContents(geo, d2, d3, Inodes, c - 1, false);
    FewerFiles(geo, d2, files + {c}, c);
    assert files + {c} - {c} == files;
    ContentsKept(geo, d2, d3, files);
    KeptMore(geo, d, d2, d3, files);
    TurnedBack(geo, d, d1, d2, d3, Inodes, c - 1);
    UncreatedIs(geo, d, sup, d3, sup3, files, p);
  }

  /** The marks after the name is added. */
  ghost predicate AddedMarks(geo: Geo, d: seq<byte>, d2: seq<byte>, p: nat, n: nat)
    requires Volume(geo, d) && Inode(geo, p)
  {
    if AnyRoom(geo, d, p, n) then SameMarks(geo, d, d2) else OneTaken(geo, d, d2)
  }

  lemma AddedFree(geo: Geo, d: seq<byte>, d2: seq<byte>, p: nat, n: nat)
    requires Volume(geo, d) && Inode(geo, p) && AddedMarks(geo, d, d2, p, n)
    ensures Volume(geo, d2) && FreeInodes(geo, d2) == FreeInodes(geo, d) && RoomTaken(geo, d, d2, p, n)
  {
    hide Layout, Shape, Sized, Marked, Items, AnyRoom;
    if AnyRoom(geo, d, p, n) {
      MarksFree(geo, d, d2);
    } else {
      var b: nat :| b < Items(geo, Blocks) && !Marked(geo, d, Blocks, b) && TakesOnly(geo, d, d2, b);
      forall m: nat ensures m in FreeBlocks(geo, d2) <==> m in FreeBlocks(geo, d) - {b} {
        if m < Items(geo, Blocks) { assert MarkedLike(geo, d, d2, Blocks, b, true, Blocks, m); }
      }
      forall m: nat ensures m in FreeInodes(geo, d2) <==> m in FreeInodes(geo, d) {
        if m < Items(geo, Inodes) { assert MarkedLike(geo, d, d2, Blocks, b, true, Inodes, m); }
      }
      assert b in FreeBlocks(geo, d) && FreeBlocks(geo, d2) == FreeBlocks(geo, d) - {b};
    }
  }

  lemma AddedLive(geo: Geo, d: seq<byte>, d2: seq<byte>, p: nat, n: nat, files: set<nat>)
    requires Volume(geo, d) && Inode(geo, p) && AddedMarks(geo, d, d2, p, n) && Live(geo, d, files)
    ensures Live(geo, d2, files)
  {
    hide Layout, Shape, Sized, Marked, AnyRoom;
    if AnyRoom(geo, d, p, n) {
      MarksLive(geo, d, d2, files);
    } else {
      var b: nat :| b < Items(geo, Blocks) && !Marked(geo, d, Blocks, b) && TakesOnly(geo, d, d2, b);
      forall j | j in files ensures Marked(geo, d2, Inodes, j - 1) {
        assert MarkedLike(geo, d, d2, Blocks, b, true, Inodes, j - 1);
      }
    }
  }

  lemma KeptEmpty(geo: Geo, d: seq<byte>, d2: seq<byte>, c: nat)
    requires EmptyFile(geo, d, c) && Volume(geo, d2) && Kept(geo, d, d2, c)
    ensures EmptyFile(geo, d2, c)
  {
    KeptBlocks(geo, d, d2, c);
    hide Volume, BlocksOf;
  }

  /** The name is added: what the files and the free space are then. */
  ghost predicate Listed(geo: Geo, d: seq<byte>, d2: seq<byte>, files: set<nat>, p: nat, c: nat, n: nat) {
    && Volume(geo, d) && Volume(geo, d2) && Inode(geo, p) && Inode(geo, c) && KeptFiles(geo, d, d2, files + {c} - {p})
    && FreeInodes(geo, d2) == FreeInodes(geo, d) && RoomTaken(geo, d, d2, p, n) && Live(geo, d2, files + {c})
  }

  lemma ListedIs(geo: Geo, d: seq<byte>, d3: seq<byte>, sup3: seq<byte>, d4: seq<byte>, files: set<nat>, p: nat,
                  c: nat, e: Binding)
    requires Volume(geo, d) && Inode(geo, c) && Live(geo, d, files + {c})
    requires Added(geo, d, d3, sup3, files + {c}, p, e) && AddedMarks(geo, d, d3, p, |e.name|)
    requires Stepped(geo, d3, d4, sup3, files + {c}, p) && SameMarks(geo, d3, d4)
    ensures Listed(geo, d, d4, files, p, c, |e.name|)
  {
    hide Accounts, FilesOk, Layout, Shape, Sized, IsDir, DirOk, DirMap, Kept, FreeBlocks, FreeInodes, Live, SameMarks,
      AddedMarks, FirstStays, AnyRoom;
    var others := files + {c} - {p};
    assert KeptFiles(geo, d, d3, others) && KeptFiles(geo, d3, d4, others);
    KeptMore(geo, d, d3, d4, others);
    AddedFree(geo, d, d3, p, |e.name|);
    AddedLive(geo, d, d3, p, |e.name|, files + {c});
    MarksFree(geo, d3, d4);
    MarksLive(geo, d3, d4, files + {c});
  }

  lemma FileCreatedIs(geo: Geo, d: seq<byte>, sup: seq<byte>, d2: seq<byte>, sup2: seq<byte>, d4: seq<byte>,
                      sup4: seq<byte>, files: set<nat>, p: nat, name: seq<byte>, c: nat)
    requires DirState(geo, d, sup, files, p) && Nameless(geo, d, d2, sup2, files, p, c)
    requires forall n: nat :: n < c - 1 && Eligible(geo, Inodes, n) ==> Marked(geo, d, Inodes, n)
    requires Listed(geo, d2, d4, files, p, c, |name|)
    requires DirState(geo, d4, sup4, files + {c}, p)
    requires DirMap(geo, d4, p) == DirMap(geo, d2, p)[name := Target(c, FT_REG)]
    ensures FileCreated(geo, d, d4, sup4, files, p, name, c)
  {
    hide Accounts, FilesOk, Layout, Shape, Sized, IsDir, DirOk, DirMap, Kept, FreeBlocks, FreeInodes, Live, Marked,
      Eligible, AnyRoom, EmptyFile;
    assert KeptFiles(geo, d, d2, files - {p}) && KeptFiles(geo, d2, d4, files - {p});
    KeptMore(geo, d, d2, d4, files - {p});
    assert c in files + {c} - {p};
    KeptEmpty(geo, d2, d4, c);
    CanAddSame(geo, d, d2, p, |name|);
  }

  /** The name of the new file, and the parent written back. */
  method EnterFile(v: Io.Volume, p: nat, name: seq<byte>, c: nat, inode: seq<byte>, ghost d: seq<byte>,
                   ghost sup: seq<byte>, ghost files: set<nat>)
    returns (ok: bool)
    requires v.Ready() && DirState(v.geo, d, sup, files, p) && Nameless(v.geo, d, v.disk, v.sup, files, p, c)
    requires forall n: nat :: n < c - 1 && Eligible(v.geo, Inodes, n) ==> Marked(v.geo, d, Inodes, n)
    requires name !in DirMap(v.geo, d, p) && |inode| == INODE_SIZE && inode == Rec(v.geo, d, p)[..INODE_SIZE]
    modifies v`disk, v`sup, v.bufBlock, v.bufBitmap, v.bufSector
    ensures v.Ready() && (ok <==> CanAdd(v.geo, d, p, |name|))
    ensures !ok ==> v.disk == old(v.disk) && v.sup == old(v.sup)
    ensures ok ==> FileCreated(v.geo, d, v.disk, v.sup, files, p, name, c) && SameRest(v.geo, old(v.disk), v.disk)
    ensures ok ==> ParentRec(Rec(v.geo, d, p), Rec(v.geo, v.disk, p), v.geo.bs, !AnyRoom(v.geo, d, p, |name|), {})
  {
    hide Accounts, FilesOk, Layout, Shape, IsDir, DirOk, DirMap, Kept, Sized, GroupOf, Rec, FileCreated, SameMarks,
      OthersSame, Live, CanAdd, AnyRoom, Marked, Eligible, Untimed, Virtual, Listed, Added, OneTaken, EmptyFile,
      KeptFiles, FreeBlocks, FreeInodes, Pointer, PointersBut, GrownRec, Get16, Get32, SameRest, ParentRec;
    ghost var d2, sup2 := v.disk, v.sup;
    NamelessSame(v.geo, d, d2, sup2, files, p, c, |name|);
    InRange(v.geo, p);
    InodeFits(v.geo, c);
    var inode2;
    ok, inode2 := AddEntry(v, p, inode, Binding(name, c, FT_REG), files + {c});
    if !ok {
      return;
    }
    ghost var d3 := v.disk;
    AddedFacts(v.geo, d2, d3, v.sup, files + {c}, p, Binding(name, c, FT_REG));
    UntimedIs(inode2);
    UntimedRec(inode, inode2, Untimed(inode2), v.geo.bs, !AnyRoom(v.geo, d, p, |name|), {});
    InodePut(v.geo, d3, v.sup, files + {c}, p, inode2, Untimed(inode2));
    PutInodeMarks(v.geo, d3, p, Untimed(inode2));
    var _ := WriteInode(v, p, Untimed(inode2));
    HeadParent(Rec(v.geo, d, p), Rec(v.geo, v.disk, p), v.geo.bs, !AnyRoom(v.geo, d, p, |name|), {});
    RestMore(v.geo, d2, d3, v.disk);
    ListedIs(v.geo, d2, d3, v.sup, v.disk, files, p, c, Binding(name, c, FT_REG));
    FileCreatedIs(v.geo, d, sup, d2, sup2, v.disk, v.sup, files, p, name, c);
  }

  /** ext2_create_file once the parent is found. */
  method CreateFile(v: Io.Volume, p: nat, name: seq<byte>, ghost files: set<nat>) returns (r: Kerr, c: nat)
    requires v.Ready() && DirState(v.geo, v.disk, v.sup, files, p) && Live(v.geo, v.disk, files)
    modifies v`disk, v`sup, v.bufBlock, v.bufBitmap, v.bufSector, v.bufInode
    ensures v.Ready() && (r == Good || r == Exists || r == NoSpace)
    ensures r == Exists <==> name in DirMap(v.geo, old(v.disk), p)
    ensures r == Exists ==> v.disk == old(v.disk) && v.sup == old(v.sup)
    ensures r == NoSpace <==>
              name !in DirMap(v.geo, old(v.disk), p) &&
              !(AnyInode(v.geo, old(v.disk)) && CanAdd(v.geo, old(v.disk), p, |name|))
    ensures r == NoSpace ==> Uncreated(v.geo, old(v.disk), v.disk, v.sup, files, p)
    ensures r == Good ==> FileCreated(v.geo, old(v.disk), v.disk, v.sup, files, p, name, c)
    ensures r == Good ==>
              ParentRec(Rec(v.geo, old(v.disk), p), Rec(v.geo, v.disk, p), v.geo.bs,
                        !AnyRoom(v.geo, old(v.disk), p, |name|), {})
    ensures SameRest(v.geo, old(v.disk), v.disk)
  {
    hide Accounts, FilesOk, Layout, Shape, IsDir, DirOk, DirMap, Kept, HitAt, Sized, GroupOf, Rec, FileCreated,
      SameMarks, OthersSame, Live, CanAdd, AnyRoom, AnyInode, Uncreated, Turned, Marked, Eligible, NewFile, Virtual,
      Nameless, ParentRec, SameRest;
    c := 0;
    RestSelf(v.geo, v.disk);
    InRange(v.geo, p);
    ghost var d, sup := v.disk, v.sup;
    var f := FindEntry(v, p, name, files);
    if f.Hit? {
      return Exists, 0;
    }
    var _, inode := ReadInode(v, p);
    var ok;
    ok, c := Alloc.AllocInode(v);
    AnyInodeIs(v.geo, d, ok, c);
    if !ok {
      UncreatedSame(v.geo, d, sup, files, p);
      return NoSpace, 0;
    }
    ghost var d1 := v.disk;
    FreshInode(v.geo, d, sup, d1, v.sup, files, p, c);
    InRange(v.geo, c);
    PutInodeMarks(v.geo, d1, c, NewFile());
    TurnedContents(v.geo, d, d1, Inodes, c - 1, true);
    var _ := WriteInode(v, c, NewFile());
    ghost var d2, sup2 := v.disk, v.sup;
    RestMore(v.geo, d, d1, d2);
    ok := EnterFile(v, p, name, c, inode, d, sup, files);
    if !ok {
      NamelessSame(v.geo, d, d2, sup2, files, p, c, |name|);
      StillUsed(v.geo, d2, files + {c}, c);
      var _ := Alloc.FreeInode(v, c);
      Refunded(v.geo, d, sup, d1, d2, sup2, v.disk, v.sup, files, p, c);
      TurnedContents(v.geo, d2, v.disk, Inodes, c - 1, false);
      RestMore(v.geo, d, d2, v.disk);
      return NoSpace, 0;
    }
    RestMore(v.geo, d, d2, v.disk);
    return Good, c;
  }

  lemma AnyInodeIs(geo: Geo, d: seq<byte>, ok: bool, c: nat)
    requires Volume(geo, d)
    requires ok ==> Inode(geo, c) && Eligible(geo, Inodes, c - 1) && !Marked(geo, d, Inodes, c - 1)
    requires !ok ==> forall n: nat :: n < Items(geo, Inodes) && Eligible(geo, Inodes, n) ==> Marked(geo, d, Inodes, n)
    ensures ok <==> AnyInode(geo, d)
  {
    hide Volume, Marked, Eligible;
  }

  lemma UncreatedSame(geo: Geo, d: seq<byte>, sup: seq<byte>, files: set<nat>, p: nat)
    requires DirState(geo, d, sup, files, p) && Live(geo, d, files)
    ensures Uncreated(geo, d, d, sup, files, p)
  {
    hide Accounts, FilesOk, Layout, Shape, Sized, IsDir, DirOk, DirMap, KeptFiles, Live, Marked;
    KeptSelf(geo, d, files);
    UncreatedIs(geo, d, sup, d, sup, files, p);
  }

  lemma KeptSelf(geo: Geo, d: seq<byte>, files: set<nat>)
    requires FilesOk(geo, d, files)
    ensures KeptFiles(geo, d, d, files)
  {
    FilesInodes(geo, d, files);
    hide FilesOk, Layout, Shape, Sized, At, Reg, Rec;
  }

  /** With the inode in place, there is room for the name exactly if there was. */
  lemma NamelessSame(geo: Geo, d: seq<byte>, d2: seq<byte>, sup2: seq<byte>, files: set<nat>, p: nat, c: nat, n: nat)
    requires Nameless(geo, d, d2, sup2, files, p, c)
    ensures CanAdd(geo, d2, p, n) <==> CanAdd(geo, d, p, n)
    ensures AnyRoom(geo, d2, p, n) <==> AnyRoom(geo, d, p, n)
    ensures DirState(geo, d2, sup2, files + {c}, p) && DirMap(geo, d2, p) == DirMap(geo, d, p)
    ensures Rec(geo, d2, p) == Rec(geo, d, p) && Live(geo, d2, files + {c})
  {
    hide Accounts, FilesOk, Layout, Shape, Sized, IsDir, DirOk, DirMap, FreeBlocks, FreeInodes, Live, Rec, CanAdd,
      AnyRoom, EmptyFile, KeptAt;
    assert Kept(geo, d, d2, p);
    CanAddSame(geo, d, d2, p, n);
  }

  lemma StillUsed(geo: Geo, d: seq<byte>, files: set<nat>, c: nat)
    requires Live(geo, d, files) && c in files
    ensures Volume(geo, d) && Inode(geo, c) && Alloc.Taken(geo, d, Inodes, c - 1)
    ensures GroupOf(geo, Inodes, c - 1) < geo.groups
  {
    hide Marked;
    ItemPlace(geo, Inodes, c - 1);
  }

  lemma PutInodeMarks(geo: Geo, d: seq<byte>, i: nat, inode: seq<byte>)
    requires Volume(geo, d) && Inode(geo, i) && |inode| == INODE_SIZE
    ensures SameMarks(geo, d, Virtual(geo, d, i, inode)) && SameRest(geo, d, Virtual(geo, d, i, inode))
  {
    PutSameMarks(geo, d, Record(i), Padded(geo, inode));
  }

  // ---------------------------------------------------------------- the free totals

  lemma RemovedTotals(geo: Geo, d: seq<byte>, sup: seq<byte>, d2: seq<byte>, sup2: seq<byte>, files: set<nat>, p: nat,
                      name: seq<byte>, c: nat)
    requires Accounts(geo, d, sup) && FileRemoved(geo, d, d2, sup2, files, p, name, c)
    ensures |sup| == |sup2| == SUPER_SIZE
    ensures Get32(sup2, TotalAt(Blocks)) == Get32(sup, TotalAt(Blocks)) + |BlocksOf(geo, d, c)|
    ensures Get32(sup2, TotalAt(Inodes)) == Get32(sup, TotalAt(Inodes)) + 1
  {
    hide Accounts, FilesOk, Layout, Shape, Sized, IsDir, DirOk, DirMap, KeptFiles, Live, FreeBlocks, FreeInodes,
      BlocksOf, Get32;
    FreeTotals(geo, d, sup);
    FreeTotals(geo, d2, sup2);
  }

  /** The volume after a file was created and removed again. */
  ghost predicate Restored(geo: Geo, d: seq<byte>, d2: seq<byte>, sup2: seq<byte>, files: set<nat>, p: nat,
                           name: seq<byte>) {
    && Volume(geo, d) && Inode(geo, p) && DirState(geo, d2, sup2, files, p) && DirMap(geo, d2, p) == DirMap(geo, d, p)
    && KeptFiles(geo, d, d2, files - {p}) && Live(geo, d2, files)
    && FreeInodes(geo, d2) == FreeInodes(geo, d) && RoomTaken(geo, d, d2, p, |name|)
  }

  lemma RestoredIs(geo: Geo, d: seq<byte>, d1: seq<byte>, sup1: seq<byte>, d2: seq<byte>, sup2: seq<byte>,
                   files: set<nat>, p: nat, name: seq<byte>, c: nat)
    requires FileCreated(geo, d, d1, sup1, files, p, name, c) && name !in DirMap(geo, d, p)
    requires FileRemoved(geo, d1, d2, sup2, files + {c}, p, name, c)
    ensures Restored(geo, d, d2, sup2, files, p, name)
  {
    hide Accounts, FilesOk, Layout, Shape, Sized, IsDir, DirOk, DirMap, Kept, Live, FreeBlocks, FreeInodes, BlocksOf,
      Marked, Eligible, AnyRoom, Rec, Links;
    assert files + {c} - {c} == files && files + {c} - {p, c} == files - {p};
    assert DirMap(geo, d, p)[name := Target(c, FT_REG)] - {name} == DirMap(geo, d, p);
    KeptMore(geo, d, d1, d2, files - {p});
    assert FreeInodes(geo, d) - {c - 1} + {c - 1} == FreeInodes(geo, d);
  }

  /** The inodes come back; the blocks do exactly if a block of the directory had room for the name. */
  lemma RestoredTotals(geo: Geo, d: seq<byte>, sup: seq<byte>, d2: seq<byte>, sup2: seq<byte>, files: set<nat>, p: nat,
                       name: seq<byte>)
    requires Accounts(geo, d, sup) && Restored(geo, d, d2, sup2, files, p, name)
    ensures |sup| == |sup2| == SUPER_SIZE && Get32(sup2, TotalAt(Inodes)) == Get32(sup, TotalAt(Inodes))
    ensures Get32(sup2, TotalAt(Blocks)) == Get32(sup, TotalAt(Blocks)) - (if AnyRoom(geo, d, p, |name|) then 0 else 1)
    ensures FreeBlocks(geo, d2) == FreeBlocks(geo, d) <==> AnyRoom(geo, d, p, |name|)
  {
    hide Accounts, FilesOk, Layout, Shape, Sized, IsDir, DirOk, DirMap, KeptFiles, Live, FreeBlocks, FreeInodes, Get32,
      AnyRoom;
    FreeTotals(geo, d, sup);
    FreeTotals(geo, d2, sup2);
    if !AnyRoom(geo, d, p, |name|) {
      var b :| b in FreeBlocks(geo, d) && FreeBlocks(geo, d2) == FreeBlocks(geo, d) - {b};
    }
  }

  /** ext2_create_file, then ext2_remove_file of the same name. */
  method CreateThenRemove(v: Io.Volume, p: nat, name: seq<byte>, ghost files: set<nat>) returns (w: Kerr, r: Kerr)
    requires v.Ready() && DirState(v.geo, v.disk, v.sup, files, p) && Live(v.geo, v.disk, files)
    modifies v`disk, v`sup, v.bufBitmap, v.bufSector, v.bufBlock, v.bufBlock3, v.bufBlock4, v.bufInode
    ensures v.Ready() && (w == Good ==> r == Good)
    ensures w == Good <==>
              && name !in DirMap(v.geo, old(v.disk), p)
              && AnyInode(v.geo, old(v.disk)) && CanAdd(v.geo, old(v.disk), p, |name|)
    ensures w == Good ==>
              && Restored(v.geo, old(v.disk), v.disk, v.sup, files, p, name)
              && |v.sup| == |old(v.sup)| == SUPER_SIZE
              && Get32(v.sup, TotalAt(Inodes)) == Get32(old(v.sup), TotalAt(Inodes))
              && Get32(v.sup, TotalAt(Blocks)) ==
                 Get32(old(v.sup), TotalAt(Blocks)) - (if AnyRoom(v.geo, old(v.disk), p, |name|) then 0 else 1)
  {
    hide Accounts, FilesOk, Layout, Shape, Sized, IsDir, DirOk, DirMap, KeptFiles, Live, FreeBlocks, FreeInodes, Get32,
      AnyRoom, CanAdd, AnyInode, Uncreated, Restored, FileRemoved, FileCreated;
    ghost var d, sup := v.disk, v.sup;
    var c;
    w, c := CreateFile(v, p, name, files);
    if w != Good {
      return w, w;
    }
    ghost var d1, sup1 := v.disk, v.sup;
    CreatedThere(v.geo, d, d1, sup1, files, p, name, c);
    r := RemoveFile(v, p, name, files + {c});
    RestoredIs(v.geo, d, d1, sup1, v.disk, v.sup, files, p, name, c);
    RestoredTotals(v.geo, d, sup, v.disk, v.sup, files, p, name);
  }

  lemma CreatedThere(geo: Geo, d: seq<byte>, d1: seq<byte>, sup1: seq<byte>, files: set<nat>, p: nat, name: seq<byte>,
                     c: nat)
    requires FileCreated(geo, d, d1, sup1, files, p, name, c) && p in files
    ensures DirState(geo, d1, sup1, files + {c}, p) && Live(geo, d1, files + {c}) && NamesFile(geo, d1, p, name)
    ensures DirMap(geo, d1, p)[name].ino == c && c != p
  {
    hide Accounts, FilesOk, Layout, Shape, Sized, IsDir, DirOk, DirMap, KeptFiles, Live, FreeBlocks, FreeInodes,
      AnyRoom, EmptyFile, Eligible, Marked;
  }
}
