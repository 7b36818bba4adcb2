/**
 Reading and writing files (src/fs/ext2/ext2_file.c): block by block, through the block
 buffer, with blocks assigned on the way and the inode written back at the end.
 */
module Ext2Write {
  import opened Bits
  import opened Words
  import opened Ext2Layout
  import opened Ext2Space
  import opened Ext2Tree
  import opened Ext2Files
  import opened Ext2Spend
  import Alloc = Ext2Alloc
  import Io = Ext2Io

  // ---------------------------------------------------------------- the inode in memory and the disk

  /** The files are in order on the disk if they are with the inode in memory. */
  lemma ExtendsOk(geo: Geo, d: seq<byte>, files: set<nat>, i: nat, inode: seq<byte>)
    requires Volume(geo, d) && Inode(geo, i) && |inode| == INODE_SIZE && FilesOk(geo, Virtual(geo, d, i, inode), files)
    requires Extends(Rec(geo, d, i), inode)
    ensures FilesOk(geo, d, files)
  {
    hide Shape, Layout, Sized, Virtual, Rec, Extends, Items, NodeOk, OneOwner, FreeOk;
    forall j, p | j in files && Within(geo, p) ensures NodeOk(geo, d, j, p) {
      ExtendsNode(geo, d, files, i, inode, j, p);
    }
    forall j, p, k, q | j in files && k in files && Within(geo, p) && Within(geo, q)
      ensures OneOwner(geo, d, j, p, k, q)
    {
      ExtendsOwner(geo, d, files, i, inode, j, p, k, q);
    }
    forall n: nat | n < Items(geo, Blocks) ensures FreeOk(geo, d, n) {
      ExtendsFree(geo, d, files, i, inode, n);
    }
  }

  lemma ExtendsNode(geo: Geo, d: seq<byte>, files: set<nat>, i: nat, inode: seq<byte>, j: nat, p: Path)
    requires Volume(geo, d) && Inode(geo, i) && |inode| == INODE_SIZE && FilesOk(geo, Virtual(geo, d, i, inode), files)
    requires Extends(Rec(geo, d, i), inode) && j in files && Within(geo, p)
    ensures NodeOk(geo, d, j, p)
  {
    hide Shape, Layout, Sized, Virtual, At, Rec, Extends, IsData, Items, Marked, OneOwner, FreeOk;
    ExtendsAt(geo, d, files, i, inode, j, p);
    assert NodeOk(geo, Virtual(geo, d, i, inode), j, p);
    var b := At(geo, d, j, p);
    if b >= geo.firstData { VirtualMarked(geo, d, i, inode, Blocks, b - geo.firstData); }
  }

  lemma ExtendsOwner(geo: Geo, d: seq<byte>, files: set<nat>, i: nat, inode: seq<byte>, j: nat, p: Path, k: nat,
                     q: Path)
    requires Volume(geo, d) && Inode(geo, i) && |inode| == INODE_SIZE && FilesOk(geo, Virtual(geo, d, i, inode), files)
    requires Extends(Rec(geo, d, i), inode) && j in files && Within(geo, p) && k in files && Within(geo, q)
    ensures OneOwner(geo, d, j, p, k, q)
  {
    hide Shape, Layout, Sized, Virtual, At, Rec, Extends, IsData, Items, Marked, NodeOk, FreeOk;
    ExtendsAt(geo, d, files, i, inode, j, p);
    ExtendsAt(geo, d, files, i, inode, k, q);
    assert OneOwner(geo, Virtual(geo, d, i, inode), j, p, k, q);
  }

  lemma ExtendsFree(geo: Geo, d: seq<byte>, files: set<nat>, i: nat, inode: seq<byte>, n: nat)
    requires Volume(geo, d) && Inode(geo, i) && |inode| == INODE_SIZE && FilesOk(geo, Virtual(geo, d, i, inode), files)
    requires n < Items(geo, Blocks)
    ensures FreeOk(geo, d, n)
  {
    hide Shape, Layout, Sized, Virtual, At, IsData, Items, Marked, NodeOk, OneOwner;
    assert FreeOk(geo, Virtual(geo, d, i, inode), n);
    VirtualMarked(geo, d, i, inode, Blocks, n);
  }

  lemma VirtualMarked(geo: Geo, d: seq<byte>, i: nat, inode: seq<byte>, kind: Kind, n: nat)
    requires Volume(geo, d) && Inode(geo, i) && |inode| == INODE_SIZE
    ensures Marked(geo, Virtual(geo, d, i, inode), kind, n) <==> Marked(geo, d, kind, n)
  {
    PutMarked(geo, d, Record(i), Padded(geo, inode), kind, n);
  }

  /**
   Seen from the disk, other files have the same bytes; the file itself the same, or zero where
   it has no block yet.
   */
  lemma ExtendsByte(geo: Geo, d: seq<byte>, files: set<nat>, i: nat, inode: seq<byte>, j: nat, pos: nat)
    requires Volume(geo, d) && Inode(geo, i) && |inode| == INODE_SIZE && FilesOk(geo, Virtual(geo, d, i, inode), files)
    requires Extends(Rec(geo, d, i), inode) && j in files && pos < LIMIT32
    ensures PathAt(geo, pos).slot < SLOTS
    ensures ByteAt(geo, d, j, pos)
              == if j == i && At(geo, d, i, PathAt(geo, pos)) == 0
                 then 0
                 else ByteAt(geo, Virtual(geo, d, i, inode), j, pos)
  {
    PathAtLegal(geo, pos);
    var v, p := Virtual(geo, d, i, inode), PathAt(geo, pos);
    hide Shape, Layout, Sized, Virtual, At, Rec, Extends, IsData, Items, Marked, Reg, PathAt, OneOwner, FreeOk;
    ExtendsAt(geo, d, files, i, inode, j, p);
    assert NodeOk(geo, v, j, p);
    if At(geo, v, j, p) != 0 { VirtualBlock(geo, d, i, inode, At(geo, v, j, p)); }
  }

  lemma VirtualReg(geo: Geo, d: seq<byte>, i: nat, inode: seq<byte>, r: Region)
    requires Volume(geo, d) && Inode(geo, i) && |inode| == INODE_SIZE && Sound(geo, r)
    ensures Reg(geo, Virtual(geo, d, i, inode), r) == if r == Record(i) then Padded(geo, inode) else Reg(geo, d, r)
  {
    PutReg(geo, d, Record(i), Padded(geo, inode), r);
  }

  lemma VirtualRest(geo: Geo, d: seq<byte>, d1: seq<byte>, i: nat, inode: seq<byte>)
    requires SameRest(geo, d, d1) && Inode(geo, i) && |inode| == INODE_SIZE
    ensures SameRest(geo, Virtual(geo, d, i, inode), Virtual(geo, d1, i, inode))
  {
    hide Shape, Layout, Sized, Virtual, Reg;
    var v, v1 := Virtual(geo, d, i, inode), Virtual(geo, d1, i, inode);
    VirtualReg(geo, d, i, inode, Super);
    VirtualReg(geo, d1, i, inode, Super);
    forall g: nat | g < geo.groups ensures SameDesc(geo, v, v1, g) {
      assert SameDesc(geo, d, d1, g);
      VirtualReg(geo, d, i, inode, Desc(g));
      VirtualReg(geo, d1, i, inode, Desc(g));
    }
  }

  lemma VirtualTurned(geo: Geo, d: seq<byte>, d1: seq<byte>, i: nat, inode: seq<byte>, n: nat)
    requires Turned(geo, d, d1, Blocks, n, true) && Inode(geo, i) && |inode| == INODE_SIZE
    ensures Turned(geo, Virtual(geo, d, i, inode), Virtual(geo, d1, i, inode), Blocks, n, true)
  {
    var v, v1 := Virtual(geo, d, i, inode), Virtual(geo, d1, i, inode);
    hide Shape, Layout, Sized, Virtual, IsData, Items, Marked, Reg, Padded, SameRest;
    VirtualRest(geo, d, d1, i, inode);
    forall r | Sound(geo, r) && (r.Record? || r.Data?) ensures SameReg(geo, v, v1, r) {
      VirtualReg(geo, d, i, inode, r);
      VirtualReg(geo, d1, i, inode, r);
      assert SameReg(geo, d, d1, r);
    }
    forall k, m: nat | m < Items(geo, k) ensures MarkedLike(geo, v, v1, Blocks, n, true, k, m) {
      VirtualMarked(geo, d, i, inode, k, m);
      VirtualMarked(geo, d1, i, inode, k, m);
      assert MarkedLike(geo, d, d1, Blocks, n, true, k, m);
    }
  }

  lemma VirtualData(geo: Geo, d: seq<byte>, i: nat, inode: seq<byte>, b: nat, t: seq<byte>)
    requires Volume(geo, d) && Inode(geo, i) && |inode| == INODE_SIZE && IsData(geo, b) && |t| == geo.bs
    ensures Volume(geo, Put(geo, d, Data(b), t))
    ensures Virtual(geo, Put(geo, d, Data(b), t), i, inode) == Put(geo, Virtual(geo, d, i, inode), Data(b), t)
    ensures Rec(geo, Put(geo, d, Data(b), t), i) == Rec(geo, d, i)
  {
    PutCommutes(geo, d, Data(b), t, Record(i), Padded(geo, inode));
    PutReg(geo, d, Data(b), t, Record(i));
  }

  lemma VirtualAgain(geo: Geo, d: seq<byte>, i: nat, inode: seq<byte>, inode2: seq<byte>)
    requires Volume(geo, d) && Inode(geo, i) && |inode| == |inode2| == INODE_SIZE
    ensures Virtual(geo, d, i, inode2) == Put(geo, Virtual(geo, d, i, inode), Record(i), Padded(geo, inode2))
  {
    PutTwice(geo, d, Record(i), Padded(geo, inode), Padded(geo, inode2));
  }

  // ---------------------------------------------------------------- bytes written so far

  /** Byte `pos` of file `j`: the one written, or the one that was there. */
  ghost predicate ByteGoal(geo: Geo, d: seq<byte>, v: seq<byte>, i: nat, offset: nat, t: seq<byte>, j: nat, pos: nat)
    requires Volume(geo, d) && Volume(geo, v) && Inode(geo, j) && pos < LIMIT32
  {
    ByteAt(geo, v, j, pos) == if j == i && offset <= pos < offset + |t| then t[pos - offset] else ByteAt(geo, d, j, pos)
  }

  /** On `v`, file `i` has `t` at `offset`, and all else is as on `d`. */
  ghost predicate Wrote(geo: Geo, d: seq<byte>, v: seq<byte>, files: set<nat>, i: nat, offset: nat, t: seq<byte>) {
    && Volume(geo, d) && Volume(geo, v) && (forall j :: j in files ==> Inode(geo, j))
    && forall j, pos: nat :: j in files && pos < LIMIT32 ==> ByteGoal(geo, d, v, i, offset, t, j, pos)
  }

  lemma PosSplit(pos: nat, bs: nat)
    requires bs > 0
    ensures pos == pos / bs * bs + pos % bs && pos % bs < bs
  {
  }

  /** The positions mapped to direct block `s` are those of the s-th stretch. */
  lemma DirectPath(geo: Geo, s: nat, pos: nat)
    requires Shape(geo) && s < NDIR && pos < LIMIT32
    ensures PathAt(geo, pos) == Path(s, []) <==> pos / geo.bs == s
  {
    PathInjective(geo.PointersPerBlock(), s, pos / geo.bs);
  }

  /** The block that file `i` has in direct slot `s`. */
  ghost predicate Direct(geo: Geo, v: seq<byte>, files: set<nat>, i: nat, s: nat, b: nat) {
    FilesOk(geo, v, files) && i in files && s < NDIR && b == At(geo, v, i, Path(s, [])) != 0
  }

  lemma DirectBlock(geo: Geo, v: seq<byte>, files: set<nat>, i: nat, s: nat, b: nat)
    requires Direct(geo, v, files, i, s, b)
    ensures b < geo.blockCount && IsData(geo, b) && NotInner(geo, v, files, b) && BlockOk(geo, v, b)
    ensures Volume(geo, v) && |Reg(geo, v, Data(b))| == geo.bs
  {
    hide Layout, At, NodeOk, OneOwner, FreeOk, Marked, NotInner;
    LeafNotInner(geo, v, files, i, Path(s, []));
    RegLen(geo, v, Data(b));
  }

  /** Writing that block changes the bytes of its stretch of file `i`. */
  lemma DirectByte(geo: Geo, v: seq<byte>, files: set<nat>, i: nat, s: nat, b: nat, t: seq<byte>, j: nat, pos: nat)
    requires Direct(geo, v, files, i, s, b) && |t| == geo.bs && j in files && pos < LIMIT32
    ensures b < geo.blockCount && Volume(geo, Put(geo, v, Data(b), t))
    ensures ByteAt(geo, Put(geo, v, Data(b), t), j, pos)
              == if j == i && pos / geo.bs == s then t[pos % geo.bs] else ByteAt(geo, v, j, pos)
    ensures j == i && pos / geo.bs == s ==>
              pos % geo.bs < |Reg(geo, v, Data(b))| && ByteAt(geo, v, j, pos) == Reg(geo, v, Data(b))[pos % geo.bs]
  {
    DirectBlock(geo, v, files, i, s, b);
    DataPutBytes(geo, v, files, b, t, j, pos);
    DirectPath(geo, s, pos);
    PathAtLegal(geo, pos);
    assert OneOwner(geo, v, i, Path(s, []), j, PathAt(geo, pos));
    hide Layout, At, NodeOk, FreeOk, Marked, NotInner, FilesOk, IsData, Put;
  }

  /** Patching the block at hand adds its bytes to those written, in one file at one place. */
  lemma WroteByte(geo: Geo, d: seq<byte>, v: seq<byte>, files: set<nat>, i: nat, offset: nat, t: seq<byte>,
                  chunk: seq<byte>, s: nat, o: nat, b: nat, j: nat, pos: nat)
    requires Direct(geo, v, files, i, s, b) && Wrote(geo, d, v, files, i, offset, t) && j in files && pos < LIMIT32
    requires offset + |t| == s * geo.bs + o && o + |chunk| <= geo.bs
    ensures b < geo.blockCount && |Reg(geo, v, Data(b))| == geo.bs
    ensures var v2 := Put(geo, v, Data(b), Splice(Reg(geo, v, Data(b)), o, chunk));
            Volume(geo, v2) && ByteGoal(geo, d, v2, i, offset, t + chunk, j, pos)
  {
    hide Direct, Wrote, Layout, Put, Reg, ByteAt, Splice, IsData, BlockOk, NotInner, Shape, Sized;
    DirectBlock(geo, v, files, i, s, b);
    var blk := Reg(geo, v, Data(b));
    DirectByte(geo, v, files, i, s, b, Splice(blk, o, chunk), j, pos);
    WroteAt(geo, d, v, files, i, offset, t, j, pos);
    PositiveBlock(geo);
    hide Volume, Inode;
    if j == i && pos / geo.bs == s {
      SpliceAt(blk, o, chunk, pos % geo.bs);
      InStretch(pos, geo.bs, s, o, |chunk|);
    } else if j == i {
      OtherStretch(pos, geo.bs, s, o, |chunk|);
    }
  }

  lemma PositiveBlock(geo: Geo)
    requires Shape(geo)
    ensures geo.bs > 0
  {
  }

  lemma WroteAt(geo: Geo, d: seq<byte>, v: seq<byte>, files: set<nat>, i: nat, offset: nat, t: seq<byte>, j: nat,
                pos: nat)
    requires Wrote(geo, d, v, files, i, offset, t) && j in files && pos < LIMIT32
    ensures Volume(geo, d) && Volume(geo, v) && Inode(geo, j) && ByteGoal(geo, d, v, i, offset, t, j, pos)
  {
  }

  lemma InStretch(pos: nat, bs: nat, s: nat, o: nat, n: nat)
    requires bs > 0 && pos / bs == s && o + n <= bs
    ensures s * bs + o <= pos < s * bs + o + n <==> o <= pos % bs < o + n
    ensures pos - (s * bs + o) == pos % bs - o
  {
    PosSplit(pos, bs);
  }

  lemma OtherStretch(pos: nat, bs: nat, s: nat, o: nat, n: nat)
    requires bs > 0 && pos / bs != s && o + n <= bs
    ensures !(s * bs + o <= pos < s * bs + o + n)
  {
    PosSplit(pos, bs);
    if pos / bs < s {
      MulMonotone(pos / bs + 1, s, bs);
    } else {
      MulMonotone(s + 1, pos / bs, bs);
    }
  }

  lemma WroteStep(geo: Geo, d: seq<byte>, v: seq<byte>, files: set<nat>, i: nat, offset: nat, t: seq<byte>,
                  chunk: seq<byte>, s: nat, o: nat, b: nat)
    requires Direct(geo, v, files, i, s, b) && Wrote(geo, d, v, files, i, offset, t)
    requires offset + |t| == s * geo.bs + o && o + |chunk| <= geo.bs
    ensures b < geo.blockCount && |Reg(geo, v, Data(b))| == geo.bs
    ensures var v2 := Put(geo, v, Data(b), Splice(Reg(geo, v, Data(b)), o, chunk));
            FilesOk(geo, v2, files) && Wrote(geo, d, v2, files, i, offset, t + chunk)
  {
    DirectBlock(geo, v, files, i, s, b);
    var v2 := Put(geo, v, Data(b), Splice(Reg(geo, v, Data(b)), o, chunk));
    DataPutSteady(geo, v, files, b, Splice(Reg(geo, v, Data(b)), o, chunk));
    SteadyOk(geo, v, v2, files);
    hide Layout, Put, Reg, Splice, IsData, BlockOk, NotInner, Shape, Sized, ByteGoal, Steady, FilesOk, At;
    forall j, pos: nat | j in files && pos < LIMIT32 ensures ByteGoal(geo, d, v2, i, offset, t + chunk, j, pos) {
      WroteByte(geo, d, v, files, i, offset, t, chunk, s, o, b, j, pos);
    }
  }

  // ---------------------------------------------------------------- a new block for a file

  function Zeros(n: nat): (z: seq<byte>)
    ensures |z| == n && forall x :: 0 <= x < n ==> z[x] == 0
  {
    seq(n, _ => 0)
  }

  /** The allocated block is no file's, also after it is marked. */
  lemma FreshUnused(geo: Geo, v: seq<byte>, v1: seq<byte>, files: set<nat>, b: nat, j: nat, p: Path)
    requires FilesOk(geo, v, files) && geo.firstData <= b < geo.blockCount && !Marked(geo, v, Blocks, b - geo.firstData)
    requires Turned(geo, v, v1, Blocks, b - geo.firstData, true) && j in files && Within(geo, p)
    ensures Volume(geo, v1) && At(geo, v1, j, p) != b
  {
    hide Layout, Shape, Sized, Marked, At, IsData, Turned, NodeOk, OneOwner, FreeOk;
    FreeNotZero(geo, v, files, b);
    FreeUnused(geo, v, files, b, j, p);
    TurnedSteady(geo, v, v1, files, b - geo.firstData);
    assert SameAt(geo, v, v1, j, p);
  }

  /** The disk with the allocated block cleared: files and bytes as before. */
  lemma ClearedOk(geo: Geo, v: seq<byte>, v1: seq<byte>, files: set<nat>, b: nat, t: seq<byte>)
    requires |t| == geo.bs
    requires FilesOk(geo, v, files) && geo.firstData <= b < geo.blockCount && !Marked(geo, v, Blocks, b - geo.firstData)
    requires Turned(geo, v, v1, Blocks, b - geo.firstData, true)
    ensures b != 0 && IsData(geo, b) && Volume(geo, v1)
    ensures FilesOk(geo, Put(geo, v1, Data(b), t), files) && Steady(geo, v1, Put(geo, v1, Data(b), t), files)
    ensures NotInner(geo, v1, files, b) && FilesOk(geo, v1, files)
  {
    FreeNotZero(geo, v, files, b);
    TurnedSteady(geo, v, v1, files, b - geo.firstData);
    SteadyOk(geo, v, v1, files);
    hide Layout, Shape, Sized, Marked, At, IsData, Turned, NodeOk, OneOwner, FreeOk, Put;
    forall j, p | j in files && Inode(geo, j) && Within(geo, p) && !Leaf(p) ensures At(geo, v1, j, p) != b {
      FreshUnused(geo, v, v1, files, b, j, p);
    }
    DataPutSteady(geo, v1, files, b, t);
    SteadyOk(geo, v1, Put(geo, v1, Data(b), t), files);
  }

  lemma ClearedByte(geo: Geo, v: seq<byte>, v1: seq<byte>, files: set<nat>, b: nat, j: nat, pos: nat)
    requires FilesOk(geo, v, files) && geo.firstData <= b < geo.blockCount && !Marked(geo, v, Blocks, b - geo.firstData)
    requires Turned(geo, v, v1, Blocks, b - geo.firstData, true) && j in files && pos < LIMIT32
    ensures Volume(geo, v1) && Volume(geo, Put(geo, v1, Data(b), Zeros(geo.bs)))
    ensures SameByte(geo, v, Put(geo, v1, Data(b), Zeros(geo.bs)), j, pos)
  {
    hide Layout, Marked, At, IsData, Turned, NodeOk, OneOwner, FreeOk, NotInner, Steady, Put, PathAt;
    ClearedOk(geo, v, v1, files, b, Zeros(geo.bs));
    TurnedBytes(geo, v, v1, files, b - geo.firstData, j, pos);
    DataPutBytes(geo, v1, files, b, Zeros(geo.bs), j, pos);
    PathAtLegal(geo, pos);
    FreshUnused(geo, v, v1, files, b, j, PathAt(geo, pos));
  }

  /** An allocated block `b` is to go into the empty direct slot `s`. */
  ghost predicate Entering(geo: Geo, d: seq<byte>, d1: seq<byte>, files: set<nat>, i: nat, inode: seq<byte>,
                           inode2: seq<byte>, s: nat, b: nat) {
    && Volume(geo, d) && Inode(geo, i) && i in files && |inode| == |inode2| == INODE_SIZE
    && FilesOk(geo, Virtual(geo, d, i, inode), files)
    && geo.firstData <= b < geo.blockCount && !Marked(geo, d, Blocks, b - geo.firstData)
    && Turned(geo, d, d1, Blocks, b - geo.firstData, true)
    && s < NDIR && Pointer(inode, s) == 0 && Pointer(inode2, s) == b && PointersBut(inode, inode2, s)
  }

  /** The virtual disks on the way: block marked, block cleared. */
  lemma EnteringSteps(geo: Geo, d: seq<byte>, d1: seq<byte>, files: set<nat>, i: nat, inode: seq<byte>,
                      inode2: seq<byte>, s: nat, b: nat, t: seq<byte>)
    requires |t| == geo.bs
    requires Entering(geo, d, d1, files, i, inode, inode2, s, b)
    ensures b != 0 && IsData(geo, b) && Volume(geo, d1) && Volume(geo, Put(geo, d1, Data(b), t))
    ensures var v, v1 := Virtual(geo, d, i, inode), Virtual(geo, d1, i, inode);
            var d2 := Put(geo, d1, Data(b), t); var v2 := Put(geo, v1, Data(b), t);
            && Turned(geo, v, v1, Blocks, b - geo.firstData, true) && !Marked(geo, v, Blocks, b - geo.firstData)
            && FilesOk(geo, v2, files) && Steady(geo, v1, v2, files) && v2 == Virtual(geo, d2, i, inode)
            && Rec(geo, d2, i) == Rec(geo, d, i)
  {
    hide Layout, Shape, Sized, Marked, At, IsData, NodeOk, OneOwner, FreeOk, NotInner, Steady, Put, Virtual, Pointer,
      PointersBut, FilesOk, Turned;
    TurnedRecord(geo, d, d1, b - geo.firstData, i);
    VirtualTurned(geo, d, d1, i, inode, b - geo.firstData);
    VirtualMarked(geo, d, i, inode, Blocks, b - geo.firstData);
    ClearedOk(geo, Virtual(geo, d, i, inode), Virtual(geo, d1, i, inode), files, b, t);
    VirtualData(geo, d1, i, inode, b, t);
  }

  lemma TurnedRecord(geo: Geo, d: seq<byte>, d1: seq<byte>, n: nat, i: nat)
    requires Turned(geo, d, d1, Blocks, n, true) && Inode(geo, i)
    ensures Volume(geo, d) && Volume(geo, d1) && Rec(geo, d1, i) == Rec(geo, d, i)
  {
    assert SameReg(geo, d, d1, Record(i));
  }

  lemma EnteringAssigns(geo: Geo, d: seq<byte>, d1: seq<byte>, files: set<nat>, i: nat, inode: seq<byte>,
                        inode2: seq<byte>, s: nat, b: nat, t: seq<byte>)
    requires |t| == geo.bs
    requires Entering(geo, d, d1, files, i, inode, inode2, s, b)
    ensures Volume(geo, d1) && b < geo.blockCount && INODE_SIZE <= geo.inodeSize
    ensures Assigns(geo, Put(geo, Virtual(geo, d1, i, inode), Data(b), t), files, i, s, b, Padded(geo, inode2))
  {
    hide Layout, Shape, Sized, Marked, At, IsData, FilesOk, NotInner, Put, Virtual, Pointer, Turned, Steady, BlockOk;
    EnteringSteps(geo, d, d1, files, i, inode, inode2, s, b, t);
    var d2 := Put(geo, d1, Data(b), t);
    var v2 := Put(geo, Virtual(geo, d1, i, inode), Data(b), t);
    VirtualRec(geo, d2, i, inode, i);
    EmptySlot(geo, v2, i, inode, s);
    EnteringBlock(geo, d, d1, files, i, inode, inode2, s, b, t);
    FilesInodes(geo, v2, files);
    forall j, p | j in files && Within(geo, p) ensures At(geo, v2, j, p) != b {
      EnteringUnused(geo, d, d1, files, i, inode, inode2, s, b, j, p, t);
    }
  }

  lemma EnteringBlock(geo: Geo, d: seq<byte>, d1: seq<byte>, files: set<nat>, i: nat, inode: seq<byte>,
                      inode2: seq<byte>, s: nat, b: nat, t: seq<byte>)
    requires |t| == geo.bs
    requires Entering(geo, d, d1, files, i, inode, inode2, s, b)
    ensures Volume(geo, d1) && b < geo.blockCount && Volume(geo, Put(geo, Virtual(geo, d1, i, inode), Data(b), t))
    ensures BlockOk(geo, Put(geo, Virtual(geo, d1, i, inode), Data(b), t), b)
  {
    hide Layout, Shape, Sized, Marked, At, IsData, FilesOk, NotInner, Put, Virtual, Pointer, Steady, PointersBut;
    EnteringSteps(geo, d, d1, files, i, inode, inode2, s, b, t);
    var v, v1 := Virtual(geo, d, i, inode), Virtual(geo, d1, i, inode);
    BlockItem(geo, b);
    assert MarkedLike(geo, v, v1, Blocks, b - geo.firstData, true, Blocks, b - geo.firstData);
    PutMarked(geo, v1, Data(b), t, Blocks, b - geo.firstData);
  }

  lemma EnteringUnused(geo: Geo, d: seq<byte>, d1: seq<byte>, files: set<nat>, i: nat, inode: seq<byte>,
                       inode2: seq<byte>, s: nat, b: nat, j: nat, p: Path, t: seq<byte>)
    requires |t| == geo.bs
    requires Entering(geo, d, d1, files, i, inode, inode2, s, b) && j in files && Within(geo, p)
    ensures Volume(geo, d1) && b < geo.blockCount && Inode(geo, j)
    ensures Volume(geo, Put(geo, Virtual(geo, d1, i, inode), Data(b), t))
    ensures At(geo, Put(geo, Virtual(geo, d1, i, inode), Data(b), t), j, p) != b
  {
    hide Layout, Shape, Sized, Marked, At, IsData, FilesOk, NotInner, Put, Virtual, Pointer, Turned, PointersBut;
    EnteringSteps(geo, d, d1, files, i, inode, inode2, s, b, t);
    var v, v1 := Virtual(geo, d, i, inode), Virtual(geo, d1, i, inode);
    FreshUnused(geo, v, v1, files, b, j, p);
    assert SameAt(geo, v1, Put(geo, v1, Data(b), t), j, p);
  }

  lemma EmptySlot(geo: Geo, v: seq<byte>, i: nat, inode: seq<byte>, s: nat)
    requires Volume(geo, v) && Inode(geo, i) && |inode| == INODE_SIZE && s < SLOTS
    requires Rec(geo, v, i) == Padded(geo, inode)
    ensures At(geo, v, i, Path(s, [])) == Pointer(inode, s)
  {
  }

  /** With the block entered the files are in order, and no byte has changed. */
  lemma EnteredOk(geo: Geo, d: seq<byte>, d1: seq<byte>, files: set<nat>, i: nat, inode: seq<byte>, inode2: seq<byte>,
                  s: nat, b: nat, t: seq<byte>)
    requires |t| == geo.bs
    requires Entering(geo, d, d1, files, i, inode, inode2, s, b)
    ensures Volume(geo, d1) && Volume(geo, Put(geo, d1, Data(b), t))
    ensures var v3 := Virtual(geo, Put(geo, d1, Data(b), t), i, inode2);
            FilesOk(geo, v3, files) && Direct(geo, v3, files, i, s, b)
  {
    EnteringSteps(geo, d, d1, files, i, inode, inode2, s, b, t);
    EnteringAssigns(geo, d, d1, files, i, inode, inode2, s, b, t);
    var d2 := Put(geo, d1, Data(b), t);
    var v2 := Virtual(geo, d2, i, inode);
    hide Layout, Shape, Sized, Marked, At, IsData, NodeOk, OneOwner, FreeOk, NotInner, Put, Virtual, Pointer,
      PointersBut, FilesOk, Turned, Assigns, Steady;
    VirtualAgain(geo, d2, i, inode, inode2);
    AssignOk(geo, v2, files, i, s, b, Padded(geo, inode2));
    AssignAt(geo, v2, files, i, s, b, Padded(geo, inode2), i, Path(s, []));
  }

  lemma EnteredByte(geo: Geo, d: seq<byte>, d1: seq<byte>, files: set<nat>, i: nat, inode: seq<byte>, inode2: seq<byte>,
                    s: nat, b: nat, j: nat, pos: nat)
    requires Entering(geo, d, d1, files, i, inode, inode2, s, b) && j in files && pos < LIMIT32
    ensures Volume(geo, d1) && Volume(geo, Put(geo, d1, Data(b), Zeros(geo.bs))) && Inode(geo, j)
    ensures SameByte(geo, Virtual(geo, d, i, inode),
                     Virtual(geo, Put(geo, d1, Data(b), Zeros(geo.bs)), i, inode2), j, pos)
  {
    EnteringSteps(geo, d, d1, files, i, inode, inode2, s, b, Zeros(geo.bs));
    EnteringAssigns(geo, d, d1, files, i, inode, inode2, s, b, Zeros(geo.bs));
    PathAtLegal(geo, pos);
    var d2 := Put(geo, d1, Data(b), Zeros(geo.bs));
    var v, v1, v2 := Virtual(geo, d, i, inode), Virtual(geo, d1, i, inode), Virtual(geo, d2, i, inode);
    hide Layout, Sized, Marked, At, NodeOk, OneOwner, FreeOk, NotInner, Put, Virtual, Pointer, PointersBut, Turned,
      Steady, PathAt;
    ClearedByte(geo, v, v1, files, b, j, pos);
    VirtualAgain(geo, d2, i, inode, inode2);
    AssignByte(geo, v2, files, i, s, b, Padded(geo, inode2), j, pos);
    DataPutBlock(geo, v1, b, Zeros(geo.bs), b);
  }

  /** Entering a block of zeroes changes no byte. */
  lemma AssignByte(geo: Geo, v: seq<byte>, files: set<nat>, i: nat, s: nat, b: nat, rec2: seq<byte>, j: nat, pos: nat)
    requires Assigns(geo, v, files, i, s, b, rec2) && j in files && pos < LIMIT32
    ensures Volume(geo, v) && Volume(geo, Put(geo, v, Record(i), rec2)) && Inode(geo, j)
    ensures Reg(geo, v, Data(b)) == Zeros(geo.bs) ==> SameByte(geo, v, Put(geo, v, Record(i), rec2), j, pos)
  {
    PathAtLegal(geo, pos);
    var p, v3 := PathAt(geo, pos), Put(geo, v, Record(i), rec2);
    hide Layout, Sized, Marked, At, OneOwner, FreeOk, Put, Pointer, PointersBut, PathAt;
    AssignAt(geo, v, files, i, s, b, rec2, j, p);
    assert NodeOk(geo, v, j, p);
    RecordPutBlock(geo, v, i, rec2, At(geo, v3, j, p));
    if j == i && p == Path(s, []) {
      RecordPutBlock(geo, v, i, rec2, b);
    }
  }

  // ---------------------------------------------------------------- inodes on disk

  /** Not a number past the last inode but inside the last group, for which the record would lie past the table. */
  predicate InodeInRange(geo: Geo, i: nat)
    requires 0 < geo.inodesPerGroup
  {
    0 < i && GroupOf(geo, Inodes, i - 1) < geo.groups ==> i <= geo.inodeCount
  }

  /** The byte where entry `x` of an inode table starts. */
  function TableByte(table: nat, bs: nat, x: nat, size: nat): nat {
    table * bs + x * size
  }

  /** Where inode_location and ext2_read_inode find the record. */
  method InodeLocation(v: Io.Volume, i: nat) returns (ok: bool, off: nat)
    requires v.Ready() && Accounts(v.geo, v.disk, v.sup)
    modifies v.bufSector
    ensures ok <==> 0 < i && GroupOf(v.geo, Inodes, i - 1) < v.geo.groups
    ensures ok ==> off == TableByte(v.geo.it[GroupOf(v.geo, Inodes, i - 1)], v.geo.bs, BitOf(v.geo, Inodes, i - 1),
                                    v.geo.inodeSize)
    ensures Inode(v.geo, i) ==> ok && off == Off(v.geo, Record(i))
  {
    hide Accounts, Layout, Reg, FreeCount, Off, GroupOf, BitOf, TableByte;
    if i == 0 {
      return false, 0;
    }
    var g, x := GroupOf(v.geo, Inodes, i - 1), BitOf(v.geo, Inodes, i - 1);
    RecordPlace(v.geo, i);
    hide Shape;
    if g >= v.geo.groups {
      return false, 0;
    }
    var desc := Alloc.ReadGroupDesc(v, g);
    Alloc.AccountsGive(v.geo, v.disk, v.sup, g, Inodes);
    return true, TableByte(Get32(desc, 8), v.geo.bs, x, v.geo.inodeSize);
  }

  lemma RecordPlace(geo: Geo, i: nat)
    requires Shape(geo) && 0 < i
    ensures 0 < geo.inodesPerGroup && geo.groups == |geo.it|
    ensures i <= geo.inodeCount ==> GroupOf(geo, Inodes, i - 1) < geo.groups
    ensures i <= geo.inodeCount ==>
              Off(geo, Record(i))
                == TableByte(geo.it[GroupOf(geo, Inodes, i - 1)], geo.bs, BitOf(geo, Inodes, i - 1), geo.inodeSize)
  {
    if i <= geo.inodeCount { ItemPlace(geo, Inodes, i - 1); }
  }

  /** ext2_read_inode. */
  method ReadInode(v: Io.Volume, i: nat) returns (ok: bool, inode: seq<byte>)
    requires v.Ready() && Accounts(v.geo, v.disk, v.sup) && InodeInRange(v.geo, i)
    modifies v.bufInode, v.bufSector
    ensures ok <==> Inode(v.geo, i)
    ensures ok ==> |inode| == INODE_SIZE && inode == Rec(v.geo, v.disk, i)[..INODE_SIZE]
  {
    hide Accounts;
    inode := [];
    var off;
    ok, off := InodeLocation(v, i);
    if ok {
      Alloc.Ready(v);
      RegLen(v.geo, v.disk, Record(i));
      hide Layout, Off;
      Io.ReadAbs(v, off, v.geo.inodeSize, v.bufInode);
      assert v.bufInode[..] == v.bufInode[..v.geo.inodeSize];
      inode := v.bufInode[..INODE_SIZE];
      assert inode == v.bufInode[..][..INODE_SIZE];
    }
  }

  /** write_inode: the record, padded with zeroes to its size on disk. */
  method WriteInode(v: Io.Volume, i: nat, inode: seq<byte>) returns (ok: bool)
    requires v.Ready() && Accounts(v.geo, v.disk, v.sup) && InodeInRange(v.geo, i) && |inode| == INODE_SIZE
    modifies v`disk, v.bufSector
    ensures v.Ready() && (ok <==> Inode(v.geo, i))
    ensures ok ==> v.disk == Virtual(v.geo, old(v.disk), i, inode)
    ensures !ok ==> v.disk == old(v.disk)
  {
    hide Accounts;
    var off;
    ok, off := InodeLocation(v, i);
    if ok {
      Alloc.Ready(v);
      RegLen(v.geo, v.disk, Record(i));
      hide Layout, Off;
      Io.WriteAbs(v, off, Padded(v.geo, inode));
    }
  }

  // ---------------------------------------------------------------- assigning a block

  ghost predicate SameRec(geo: Geo, d: seq<byte>, d2: seq<byte>, j: nat)
    requires Volume(geo, d) && Volume(geo, d2) && Inode(geo, j)
  {
    Rec(geo, d2, j) == Rec(geo, d, j)
  }

  ghost predicate SameRecs(geo: Geo, d: seq<byte>, d2: seq<byte>) {
    Volume(geo, d) && Volume(geo, d2) && forall j :: Inode(geo, j) ==> SameRec(geo, d, d2, j)
  }

  ghost predicate SameBytes(geo: Geo, d: seq<byte>, d2: seq<byte>, files: set<nat>) {
    && Volume(geo, d) && Volume(geo, d2) && (forall j :: j in files ==> Inode(geo, j))
    && forall j, pos: nat :: j in files && pos < LIMIT32 ==> SameByte(geo, d, d2, j, pos)
  }

  /** In the middle of writing file `i`, whose inode is in memory. */
  ghost predicate Writing(geo: Geo, d: seq<byte>, sup: seq<byte>, files: set<nat>, i: nat, inode: seq<byte>) {
    && Accounts(geo, d, sup) && Inode(geo, i) && i in files && |inode| == INODE_SIZE
    && FilesOk(geo, Virtual(geo, d, i, inode), files) && Extends(Rec(geo, d, i), inode)
  }

  /** The inode with block `b` in direct slot `s` and the sector count raised. */
  function WithBlock(inode: seq<byte>, s: nat, b: nat, bs: nat): (r: seq<byte>)
    requires |inode| == INODE_SIZE && s < NDIR && b < LIMIT32
    ensures |r| == INODE_SIZE
  {
    Put32(Put32(inode, BLOCK + 4 * s, b), SECTORS, (Get32(inode, SECTORS) + bs / SECTOR) % LIMIT32)
  }

  lemma WithBlockIs(inode: seq<byte>, s: nat, b: nat, bs: nat)
    requires |inode| == INODE_SIZE && s < NDIR && b < LIMIT32
    ensures var r := WithBlock(inode, s, b, bs);
            && Pointer(r, s) == b && PointersBut(inode, r, s)
            && Get32(r, SIZE) == Get32(inode, SIZE) && Get16(r, MODE) == Get16(inode, MODE)
            && (Pointer(inode, s) == 0 ==> GainsBlock(inode, r, s, b, bs))
  {
    hide Put32, Get32, Get16, AgreeBut;
    var r1 := Put32(inode, BLOCK + 4 * s, b);
    var n := (Get32(inode, SECTORS) + bs / SECTOR) % LIMIT32;
    Put32Get(inode, BLOCK + 4 * s, b);
    Put32Get(r1, SECTORS, n);
    AgreePut32(inode, BLOCK + 4 * s, b);
    AgreePut32(r1, SECTORS, n);
    AgreeMore(inode, r1, WithBlock(inode, s, b, bs), Field(BLOCK + 4 * s, 4), Field(SECTORS, 4));
    assert Field(BLOCK + 4 * s, 4) + Field(SECTORS, 4) == Field(SECTORS, 4) + Field(BLOCK + 4 * s, 4);
    Put32Elsewhere(r1, SECTORS, n, BLOCK + 4 * s);
    Put32Elsewhere(inode, BLOCK + 4 * s, b, SIZE);
    Put32Elsewhere(r1, SECTORS, n, SIZE);
    Put32Elsewhere(inode, BLOCK + 4 * s, b, MODE);
    Put32Elsewhere(r1, SECTORS, n, MODE);
    forall t | 0 <= t < SLOTS && t != s ensures Pointer(WithBlock(inode, s, b, bs), t) == Pointer(inode, t) {
      Put32Elsewhere(inode, BLOCK + 4 * s, b, BLOCK + 4 * t);
      Put32Elsewhere(r1, SECTORS, n, BLOCK + 4 * t);
    }
  }

  lemma ExtendsMore(rec: seq<byte>, inode: seq<byte>, inode2: seq<byte>, s: nat)
    requires Extends(rec, inode) && PointersBut(inode, inode2, s) && s < NDIR && Pointer(inode, s) == 0
    ensures Extends(rec, inode2)
  {
    hide Pointer;
  }

  /** What allocating and clearing a block for file `i` comes to. */
  lemma AssignedOk(geo: Geo, d: seq<byte>, d1: seq<byte>, sup1: seq<byte>, files: set<nat>, i: nat, inode: seq<byte>,
                   inode2: seq<byte>, s: nat, b: nat)
    requires Entering(geo, d, d1, files, i, inode, inode2, s, b) && Accounts(geo, d1, sup1)
    requires Extends(Rec(geo, d, i), inode)
    ensures b < geo.blockCount && Volume(geo, d1)
    ensures var d2 := Put(geo, d1, Data(b), Zeros(geo.bs));
            && Writing(geo, d2, sup1, files, i, inode2) && Direct(geo, Virtual(geo, d2, i, inode2), files, i, s, b)
            && SameBytes(geo, Virtual(geo, d, i, inode), Virtual(geo, d2, i, inode2), files) && SameRecs(geo, d, d2)
  {
    hide Accounts, FilesOk, Virtual, Put, Turned, Marked, IsData, Pointer, Steady, Layout, Extends, Direct, SameByte;
    EnteringSteps(geo, d, d1, files, i, inode, inode2, s, b, Zeros(geo.bs));
    EnteredOk(geo, d, d1, files, i, inode, inode2, s, b, Zeros(geo.bs));
    PutAccounts(geo, d1, sup1, Data(b), Zeros(geo.bs));
    ExtendsMore(Rec(geo, d, i), inode, inode2, s);
    var d2 := Put(geo, d1, Data(b), Zeros(geo.bs));
    FilesInodes(geo, Virtual(geo, d, i, inode), files);
    forall j, pos: nat | j in files && pos < LIMIT32
      ensures SameByte(geo, Virtual(geo, d, i, inode), Virtual(geo, d2, i, inode2), j, pos)
    {
      EnteredByte(geo, d, d1, files, i, inode, inode2, s, b, j, pos);
    }
    AssignedRecs(geo, d, d1, b);
  }

  /** Inode records do not notice that a block is marked and cleared. */
  lemma AssignedRecs(geo: Geo, d: seq<byte>, d1: seq<byte>, b: nat)
    requires Volume(geo, d) && Volume(geo, d1) && geo.firstData <= b < geo.blockCount && IsData(geo, b)
    requires Turned(geo, d, d1, Blocks, b - geo.firstData, true)
    ensures SameRecs(geo, d, Put(geo, d1, Data(b), Zeros(geo.bs)))
  {
    hide Turned, Put, Layout, Rec;
    forall j | Inode(geo, j) ensures SameRec(geo, d, Put(geo, d1, Data(b), Zeros(geo.bs)), j) {
      TurnedRecord(geo, d, d1, b - geo.firstData, j);
      DataPutRecord(geo, d1, b, Zeros(geo.bs), j);
    }
  }

  lemma FilesInodes(geo: Geo, v: seq<byte>, files: set<nat>)
    requires FilesOk(geo, v, files)
    ensures forall j :: j in files ==> Inode(geo, j)
  {
  }

  lemma DataPutRecord(geo: Geo, d: seq<byte>, b: nat, t: seq<byte>, j: nat)
    requires Volume(geo, d) && IsData(geo, b) && |t| == geo.bs && Inode(geo, j)
    ensures Volume(geo, Put(geo, d, Data(b), t)) && Rec(geo, Put(geo, d, Data(b), t), j) == Rec(geo, d, j)
  {
    PutReg(geo, d, Data(b), t, Record(j));
  }

  method ClearBlock(v: Io.Volume, b: nat)
    requires v.Ready() && b < v.geo.blockCount
    modifies v`disk, v.bufBlock
    ensures v.Ready() && v.disk == Put(v.geo, old(v.disk), Data(b), Zeros(v.geo.bs))
  {
    forall x | 0 <= x < v.geo.bs {
      v.bufBlock[x] := 0;
    }
    assert v.bufBlock[..] == Zeros(v.geo.bs);
    hide Layout;
    Io.WriteBlock(v, b, v.bufBlock);
  }

  /** A new block for the empty direct slot `s`, cleared on disk. */
  method EnterNewBlock(v: Io.Volume, inode: seq<byte>, s: nat, ghost files: set<nat>, ghost i: nat)
    returns (ok: bool, inode2: seq<byte>, b: nat)
    requires v.Ready() && Writing(v.geo, v.disk, v.sup, files, i, inode) && s < NDIR && Pointer(inode, s) == 0
    modifies v`disk, v`sup, v.bufBlock, v.bufBitmap, v.bufSector
    ensures v.Ready() && (!ok <==> FreeBlocks(v.geo, old(v.disk)) == {})
    ensures !ok ==> v.disk == old(v.disk) && v.sup == old(v.sup) && inode2 == inode
    ensures ok ==> b < LIMIT32 && GainsBlock(inode, inode2, s, b, v.geo.bs)
    ensures ok ==> Get32(inode2, SIZE) == Get32(inode, SIZE) && Get16(inode2, MODE) == Get16(inode, MODE)
    ensures ok ==> Entered(v.geo, old(v.disk), v.disk, v.sup, files, i, inode, inode2, s, b)
  {
    hide Accounts, FilesOk, Turned, Marked, IsData, Pointer, Layout, Extends, Get32, Get16, Shape, Put, Items,
      FreeBlocks, Virtual, Entered, WithBlock, GainsBlock;
    inode2 := inode;
    Alloc.Ready(v);
    FullIsNone(v.geo, v.disk);
    ghost var d := v.disk;
    ok, b := Alloc.AllocBlock(v);
    if !ok {
      return;
    }
    BlockFits(v.geo, b);
    inode2 := WithBlock(inode, s, b, v.geo.bs);
    WithBlockIs(inode, s, b, v.geo.bs);
    AssignedOk(v.geo, d, v.disk, v.sup, files, i, inode, inode2, s, b);
    AssignedTakes(v.geo, d, v.disk, files, i, inode, inode2, s, b);
    hide Writing, Direct, SameBytes, SameRecs, Takes;
    EnteredIs(v.geo, d, Put(v.geo, v.disk, Data(b), Zeros(v.geo.bs)), v.sup, files, i, inode, inode2, s, b);
    ClearBlock(v, b);
  }

  /** Block `b`, free before, is in slot `s`; every file reads as before. */
  ghost predicate Entered(geo: Geo, d: seq<byte>, d2: seq<byte>, sup2: seq<byte>, files: set<nat>, i: nat,
                          inode: seq<byte>, inode2: seq<byte>, s: nat, b: nat) {
    && Volume(geo, d) && Inode(geo, i) && |inode| == INODE_SIZE
    && Writing(geo, d2, sup2, files, i, inode2) && SameRecs(geo, d, d2)
    && Direct(geo, Virtual(geo, d2, i, inode2), files, i, s, b) && Takes(geo, d, d2, b)
    && SameBytes(geo, Virtual(geo, d, i, inode), Virtual(geo, d2, i, inode2), files)
  }

  lemma EnteredIs(geo: Geo, d: seq<byte>, d2: seq<byte>, sup2: seq<byte>, files: set<nat>, i: nat, inode: seq<byte>,
                  inode2: seq<byte>, s: nat, b: nat)
    requires Volume(geo, d) && Inode(geo, i) && |inode| == INODE_SIZE
    requires Writing(geo, d2, sup2, files, i, inode2) && SameRecs(geo, d, d2)
    requires Direct(geo, Virtual(geo, d2, i, inode2), files, i, s, b) && Takes(geo, d, d2, b)
    requires SameBytes(geo, Virtual(geo, d, i, inode), Virtual(geo, d2, i, inode2), files)
    ensures Entered(geo, d, d2, sup2, files, i, inode, inode2, s, b)
  {
  }

  /** assign_data_block: the block in direct slot `s`, newly allocated and cleared if there was none. */
  method AssignDataBlock(v: Io.Volume, inode: seq<byte>, s: nat, ghost files: set<nat>, ghost i: nat)
    returns (ok: bool, inode2: seq<byte>, b: nat)
    requires v.Ready() && Writing(v.geo, v.disk, v.sup, files, i, inode)
    modifies v`disk, v`sup, v.bufBlock, v.bufBitmap, v.bufSector
    ensures v.Ready() && Writing(v.geo, v.disk, v.sup, files, i, inode2) && SameRecs(v.geo, old(v.disk), v.disk)
    ensures Get32(inode2, SIZE) == Get32(inode, SIZE) && Get16(inode2, MODE) == Get16(inode, MODE)
    ensures ok ==> Direct(v.geo, Virtual(v.geo, v.disk, i, inode2), files, i, s, b)
    ensures ok ==> s < NDIR && (Pointer(inode, s) != 0 ==> b == Pointer(inode, s) && inode2 == inode)
    ensures ok && Pointer(inode, s) == 0 ==> b < LIMIT32 && GainsBlock(inode, inode2, s, b, v.geo.bs)
    ensures SameBytes(v.geo, Virtual(v.geo, old(v.disk), i, inode), Virtual(v.geo, v.disk, i, inode2), files)
    ensures !ok ==> v.disk == old(v.disk) && v.sup == old(v.sup) && inode2 == inode
    ensures !ok <==> s >= NDIR || (Pointer(inode, s) == 0 && FreeBlocks(v.geo, old(v.disk)) == {})
    ensures ok && Pointer(inode, s) != 0 ==> v.disk == old(v.disk)
    ensures ok && Pointer(inode, s) == 0 ==> Takes(v.geo, old(v.disk), v.disk, b)
  {
    hide Accounts, FilesOk, Pointer, Layout, Extends, Get32, Get16, Shape, Takes, FreeBlocks, SameBytes, SameRecs,
      Direct, Virtual, GainsBlock;
    WritingStays(v.geo, v.disk, v.sup, files, i, inode);
    if s >= NDIR {
      return false, inode, 0;
    }
    if Pointer(inode, s) != 0 {
      DirectIs(v.geo, v.disk, v.sup, files, i, inode, s);
      return true, inode, Pointer(inode, s);
    }
    ok, inode2, b := EnterNewBlock(v, inode, s, files, i);
  }

  lemma AssignedTakes(geo: Geo, d: seq<byte>, d1: seq<byte>, files: set<nat>, i: nat, inode: seq<byte>,
                      inode2: seq<byte>, s: nat, b: nat)
    requires Entering(geo, d, d1, files, i, inode, inode2, s, b)
    ensures b < geo.blockCount && Volume(geo, d1) && Takes(geo, d, Put(geo, d1, Data(b), Zeros(geo.bs)), b)
  {
    hide Accounts, FilesOk, Virtual, Put, Turned, Marked, IsData, Pointer, Layout, Extends, FreeBlocks;
    EnteringSteps(geo, d, d1, files, i, inode, inode2, s, b, Zeros(geo.bs));
    TurnedTakes(geo, d, d1, b);
    PutFree(geo, d1, Data(b), Zeros(geo.bs));
  }

  lemma BlockFits(geo: Geo, b: nat)
    requires Shape(geo) && b < geo.blockCount
    ensures b < LIMIT32
  {
    MulMonotone(1, geo.bs, geo.blockCount);
    assert geo.blockCount * geo.bs == geo.bs * geo.blockCount;
  }

  lemma WritingStays(geo: Geo, d: seq<byte>, sup: seq<byte>, files: set<nat>, i: nat, inode: seq<byte>)
    requires Writing(geo, d, sup, files, i, inode)
    ensures Volume(geo, d) && SameRecs(geo, d, d)
    ensures SameBytes(geo, Virtual(geo, d, i, inode), Virtual(geo, d, i, inode), files)
  {
  }

  lemma DirectIs(geo: Geo, d: seq<byte>, sup: seq<byte>, files: set<nat>, i: nat, inode: seq<byte>, s: nat)
    requires Writing(geo, d, sup, files, i, inode) && s < NDIR && Pointer(inode, s) != 0
    ensures Volume(geo, d) && Direct(geo, Virtual(geo, d, i, inode), files, i, s, Pointer(inode, s))
  {
    hide FilesOk, Layout, Shape, Virtual;
    VirtualRec(geo, d, i, inode, i);
    EmptySlot(geo, Virtual(geo, d, i, inode), i, inode, s);
  }

  // ---------------------------------------------------------------- writing

  lemma WroteSame(geo: Geo, d: seq<byte>, v: seq<byte>, v2: seq<byte>, files: set<nat>, i: nat, offset: nat,
                  t: seq<byte>)
    requires Wrote(geo, d, v, files, i, offset, t) && SameBytes(geo, v, v2, files)
    ensures Wrote(geo, d, v2, files, i, offset, t)
  {
    hide Volume, ByteAt;
    forall j, pos: nat | j in files && pos < LIMIT32 ensures ByteGoal(geo, d, v2, i, offset, t, j, pos) {
      assert ByteGoal(geo, d, v, i, offset, t, j, pos) && SameByte(geo, v, v2, j, pos);
    }
  }

  lemma SameRecsTransitive(geo: Geo, a: seq<byte>, b: seq<byte>, c: seq<byte>)
    requires SameRecs(geo, a, b) && SameRecs(geo, b, c)
    ensures SameRecs(geo, a, c)
  {
    hide Volume, Rec;
    forall j | Inode(geo, j) ensures SameRec(geo, a, c, j) {
      assert SameRec(geo, a, b, j) && SameRec(geo, b, c, j);
    }
  }

  /** The disk with a stretch of block `b` replaced. */
  ghost function Patched(geo: Geo, d: seq<byte>, b: nat, o: nat, chunk: seq<byte>): (d2: seq<byte>)
    requires Volume(geo, d)
    ensures Volume(geo, d2)
  {
    if b < geo.blockCount && |Reg(geo, d, Data(b))| == geo.bs && o + |chunk| <= geo.bs
    then Put(geo, d, Data(b), Splice(Reg(geo, d, Data(b)), o, chunk)) else d
  }

  /** One patched block: the next bytes of the file. */
  lemma ChunkOk(geo: Geo, d: seq<byte>, sup: seq<byte>, files: set<nat>, i: nat, inode: seq<byte>, d0: seq<byte>,
                offset: nat, t: seq<byte>, chunk: seq<byte>, s: nat, o: nat, b: nat)
    requires Writing(geo, d, sup, files, i, inode) && Direct(geo, Virtual(geo, d, i, inode), files, i, s, b)
    requires Wrote(geo, d0, Virtual(geo, d, i, inode), files, i, offset, t) && offset + |t| == s * geo.bs + o
    requires o + |chunk| <= geo.bs
    ensures b < geo.blockCount
    ensures var d2 := Patched(geo, d, b, o, chunk);
            && Writing(geo, d2, sup, files, i, inode) && SameRecs(geo, d, d2)
            && Wrote(geo, d0, Virtual(geo, d2, i, inode), files, i, offset, t + chunk)
  {
    var v := Virtual(geo, d, i, inode);
    hide Accounts, FilesOk, Virtual, Put, Marked, IsData, Layout, Extends, Direct, Splice, Wrote, BlockOk, NotInner,
      Reg;
    DirectBlock(geo, v, files, i, s, b);
    VirtualBlock(geo, d, i, inode, b);
    DirectNonzero(geo, v, files, i, s, b);
    WroteStep(geo, d0, v, files, i, offset, t, chunk, s, o, b);
    var u := Splice(Reg(geo, d, Data(b)), o, chunk);
    VirtualData(geo, d, i, inode, b, u);
    PutAccounts(geo, d, sup, Data(b), u);
    forall j | Inode(geo, j) ensures SameRec(geo, d, Put(geo, d, Data(b), u), j) {
      DataPutRecord(geo, d, b, u, j);
    }
  }

  lemma DirectNonzero(geo: Geo, v: seq<byte>, files: set<nat>, i: nat, s: nat, b: nat)
    requires Direct(geo, v, files, i, s, b)
    ensures b > 0
  {
  }

  /** Read a block, replace a stretch of it, write it back. */
  method PatchBlock(v: Io.Volume, b: nat, o: nat, chunk: seq<byte>)
    requires v.Ready() && b < v.geo.blockCount && o + |chunk| <= v.geo.bs
    modifies v`disk, v.bufBlock
    ensures v.Ready() && v.disk == Patched(v.geo, old(v.disk), b, o, chunk)
  {
    hide Layout, Shape, Reg, Put;
    Io.ReadBlock(v, b, v.bufBlock);
    ghost var blk := v.bufBlock[..];
    forall x | o <= x < o + |chunk| {
      v.bufBlock[x] := chunk[x - o];
    }
    assert v.bufBlock[..] == Splice(blk, o, chunk) by {
      forall x | 0 <= x < |blk| ensures v.bufBlock[..][x] == Splice(blk, o, chunk)[x] {
        SpliceAt(blk, o, chunk, x);
      }
    }
    Io.WriteBlock(v, b, v.bufBlock);
  }

  /** A record with the same pointers changes no byte of any file. */
  lemma RewriteOk(geo: Geo, d: seq<byte>, files: set<nat>, i: nat, inode: seq<byte>, inode2: seq<byte>)
    requires Volume(geo, d) && Inode(geo, i) && i in files && |inode| == |inode2| == INODE_SIZE
    requires PointersBut(inode, inode2, SLOTS)
    requires FilesOk(geo, Virtual(geo, d, i, inode), files)
    ensures FilesOk(geo, Virtual(geo, d, i, inode2), files)
    ensures SameBytes(geo, Virtual(geo, d, i, inode), Virtual(geo, d, i, inode2), files)
  {
    var v, v2 := Virtual(geo, d, i, inode), Virtual(geo, d, i, inode2);
    VirtualRec(geo, d, i, inode, i);
    VirtualAgain(geo, d, i, inode, inode2);
    hide Virtual, Put, Layout, Shape, Marked, At, Pointer;
    assert PointersBut(Rec(geo, v, i), Padded(geo, inode2), SLOTS);
    RecordPutSteady(geo, v, files, i, Padded(geo, inode2));
    SteadyOk(geo, v, v2, files);
    hide PointersBut, OneOwner, FreeOk;
    forall j, pos: nat | j in files && pos < LIMIT32 ensures SameByte(geo, v, v2, j, pos) {
      RecordByte(geo, v, files, i, Padded(geo, inode2), j, pos);
    }
  }

  lemma RecordByte(geo: Geo, v: seq<byte>, files: set<nat>, i: nat, rec2: seq<byte>, j: nat, pos: nat)
    requires FilesOk(geo, v, files) && i in files && |rec2| == geo.inodeSize
    requires Steady(geo, v, Put(geo, v, Record(i), rec2), files)
    requires j in files && pos < LIMIT32
    ensures Volume(geo, Put(geo, v, Record(i), rec2)) && Inode(geo, j)
    ensures SameByte(geo, v, Put(geo, v, Record(i), rec2), j, pos)
  {
    PathAtLegal(geo, pos);
    var p := PathAt(geo, pos);
    assert SameAt(geo, v, Put(geo, v, Record(i), rec2), j, p) && NodeOk(geo, v, j, p);
    RecordPutBlock(geo, v, i, rec2, At(geo, v, j, p));
    hide Layout, Put, Steady, FilesOk, At, PathAt, Marked;
  }

  /** Byte `pos` of the write lies in a block that file `i` has, before slot `s`. */
  ghost predicate Got(geo: Geo, d0: seq<byte>, i: nat, offset: nat, n: nat, s: nat, pos: nat)
    requires Volume(geo, d0) && Inode(geo, i) && pos < LIMIT32
  {
    PathAtLegal(geo, pos);
    offset <= pos < offset + n && pos / geo.bs < s && At(geo, d0, i, PathAt(geo, pos)) != 0
  }

  /** Bytes of a write that ran out of space at slot `s`: new in the blocks the file had before it, old elsewhere. */
  ghost predicate PartByte(geo: Geo, d0: seq<byte>, d: seq<byte>, i: nat, offset: nat, t: seq<byte>, s: nat, j: nat,
                           pos: nat)
    requires Volume(geo, d0) && Volume(geo, d) && Inode(geo, j) && pos < LIMIT32
  {
    ByteAt(geo, d, j, pos) ==
    if j == i && Got(geo, d0, i, offset, |t|, s, pos) then t[pos - offset] else ByteAt(geo, d0, j, pos)
  }

  /** The slot at which a write at `offset` runs out of space. */
  ghost function StopsAt(geo: Geo, d: seq<byte>, i: nat, offset: nat): nat
    requires Volume(geo, d) && Inode(geo, i)
  {
    StopSlot(Rec(geo, d, i), FirstSlot(geo.bs, offset), |FreeBlocks(geo, d)|)
  }

  ghost predicate PartWrote(geo: Geo, d0: seq<byte>, d: seq<byte>, files: set<nat>, i: nat, offset: nat, t: seq<byte>) {
    && Volume(geo, d0) && Volume(geo, d) && Inode(geo, i) && (forall j :: j in files ==> Inode(geo, j))
    && forall j, pos: nat :: j in files && pos < LIMIT32 ==>
         PartByte(geo, d0, d, i, offset, t, StopsAt(geo, d0, i, offset), j, pos)
  }

  /** The first `n` bytes from `offset` on end where slot `s` begins, or there are none. */
  predicate EndsAt(bs: nat, offset: nat, n: nat, s: nat)
    requires bs > 0
  {
    if n == 0 then s == offset / bs else s <= NDIR && offset + n == s * bs
  }

  lemma EndsBefore(bs: nat, offset: nat, n: nat, s: nat, pos: nat)
    requires bs > 0 && EndsAt(bs, offset, n, s) && offset <= pos
    ensures pos < offset + n <==> pos / bs < s
    ensures pos < offset + n ==> pos / bs < NDIR
  {
    PosSplit(pos, bs);
    PosSplit(offset, bs);
    if pos / bs < s {
      MulMonotone(pos / bs + 1, s, bs);
    } else {
      MulMonotone(s, pos / bs, bs);
    }
  }

  lemma PartOk(geo: Geo, d: seq<byte>, sup: seq<byte>, files: set<nat>, i: nat, inode: seq<byte>, d0: seq<byte>,
               offset: nat, t: seq<byte>, data: seq<byte>)
    requires Writing(geo, d, sup, files, i, inode) && SameRecs(geo, d0, d) && t <= data && Inode(geo, i)
    requires Wrote(geo, d0, Virtual(geo, d, i, inode), files, i, offset, t) && Volume(geo, d0)
    requires EndsAt(geo.bs, offset, |t|, StopsAt(geo, d0, i, offset))
    ensures FilesOk(geo, d, files) && PartWrote(geo, d0, d, files, i, offset, data)
  {
    hide Accounts, Virtual, Layout, Shape, Extends, At;
    ExtendsOk(geo, d, files, i, inode);
    hide FilesOk, Wrote, SameRecs, StopsAt, EndsAt;
    FilesInodes(geo, d, files);
    WroteVolumes(geo, d0, Virtual(geo, d, i, inode), files, i, offset, t);
    var s := StopsAt(geo, d0, i, offset);
    forall j, pos: nat | j in files && pos < LIMIT32 ensures PartByte(geo, d0, d, i, offset, data, s, j, pos) {
      PartByteOk(geo, d, sup, files, i, inode, d0, offset, t, data, s, j, pos);
    }
  }

  lemma WroteVolumes(geo: Geo, d: seq<byte>, v: seq<byte>, files: set<nat>, i: nat, offset: nat, t: seq<byte>)
    requires Wrote(geo, d, v, files, i, offset, t)
    ensures Volume(geo, d) && Volume(geo, v)
  {
  }

  /** A direct slot is on `d` what it was on `d0`. */
  lemma DirectSame(geo: Geo, d0: seq<byte>, d: seq<byte>, i: nat, pos: nat)
    requires SameRecs(geo, d0, d) && Inode(geo, i) && pos < LIMIT32 && pos / geo.bs < NDIR
    ensures PathAt(geo, pos).slot < SLOTS && Volume(geo, d0) && Volume(geo, d)
    ensures At(geo, d, i, PathAt(geo, pos)) == At(geo, d0, i, PathAt(geo, pos))
  {
    DirectPath(geo, pos / geo.bs, pos);
    assert SameRec(geo, d0, d, i);
    hide Layout, Shape, Sized, Rec;
    NodeRoot(geo, d, Rec(geo, d, i), pos / geo.bs);
    NodeRoot(geo, d0, Rec(geo, d0, i), pos / geo.bs);
  }

  lemma PartByteOk(geo: Geo, d: seq<byte>, sup: seq<byte>, files: set<nat>, i: nat, inode: seq<byte>, d0: seq<byte>,
                   offset: nat, t: seq<byte>, data: seq<byte>, s: nat, j: nat, pos: nat)
    requires Writing(geo, d, sup, files, i, inode) && SameRecs(geo, d0, d) && t <= data && Inode(geo, i)
    requires Wrote(geo, d0, Virtual(geo, d, i, inode), files, i, offset, t) && j in files && pos < LIMIT32
    requires geo.bs > 0 && EndsAt(geo.bs, offset, |t|, s)
    ensures Volume(geo, d0) && Inode(geo, j) && PartByte(geo, d0, d, i, offset, data, s, j, pos)
  {
    PathAtLegal(geo, pos);
    var p := PathAt(geo, pos);
    FilesInodes(geo, Virtual(geo, d, i, inode), files);
    WroteAt(geo, d0, Virtual(geo, d, i, inode), files, i, offset, t, j, pos);
    ExtendsByte(geo, d, files, i, inode, j, pos);
    ExtendsAt(geo, d, files, i, inode, j, p);
    if offset <= pos {
      EndsBefore(geo.bs, offset, |t|, s, pos);
      if pos < offset + |t| { DirectSame(geo, d0, d, i, pos); }
    }
    hide Accounts, Virtual, Layout, Shape, Extends, FilesOk, Wrote, PathAt, Node, Reg;
    if j == i && At(geo, d, i, p) == 0 {
      if At(geo, Virtual(geo, d, i, inode), i, p) != 0 {
        assert SameRec(geo, d0, d, i);
        assert p.idx == [];
        NodeRoot(geo, d, Rec(geo, d, i), p.slot);
        NodeRoot(geo, d0, Rec(geo, d0, i), p.slot);
      }
    }
  }

  /** inode_is_regular, inode_is_directory: the type bits of the mode. */
  predicate IsRegular(inode: seq<byte>)
    requires |inode| >= INODE_SIZE
  {
    Get16(inode, MODE) / 0x1000 == 8
  }

  predicate IsDirectory(inode: seq<byte>)
    requires |inode| >= INODE_SIZE
  {
    Get16(inode, MODE) / 0x1000 == 4
  }

  lemma HeadFields(rec: seq<byte>, inode: seq<byte>)
    requires |rec| >= INODE_SIZE && inode == rec[..INODE_SIZE]
    ensures Get16(inode, MODE) == Get16(rec, MODE) && Get32(inode, SIZE) == Get32(rec, SIZE)
    ensures forall s :: 0 <= s < SLOTS ==> Pointer(inode, s) == Pointer(rec, s)
  {
  }

  /** The inode just read is where writing starts from. */
  lemma StartOk(geo: Geo, d: seq<byte>, sup: seq<byte>, files: set<nat>, i: nat, inode: seq<byte>)
    requires Accounts(geo, d, sup) && FilesOk(geo, d, files) && i in files && Inode(geo, i) && |inode| == INODE_SIZE
    requires inode == Rec(geo, d, i)[..INODE_SIZE]
    ensures Writing(geo, d, sup, files, i, inode) && SameBytes(geo, d, Virtual(geo, d, i, inode), files)
    ensures SameRecs(geo, d, d)
  {
    HeadFields(Rec(geo, d, i), inode);
    hide Accounts, Layout, Shape, Put, At, Marked, Pointer;
    assert PointersBut(Rec(geo, d, i), Padded(geo, inode), SLOTS);
    RecordPutSteady(geo, d, files, i, Padded(geo, inode));
    SteadyOk(geo, d, Virtual(geo, d, i, inode), files);
    hide PointersBut, OneOwner, FreeOk, NodeOk;
    forall j, pos: nat | j in files && pos < LIMIT32 ensures SameByte(geo, d, Virtual(geo, d, i, inode), j, pos) {
      RecordByte(geo, d, files, i, Padded(geo, inode), j, pos);
    }
  }

  datatype Kerr = Good | IoError | NoSpace | BadRange | Invalid | NotFound | Exists | Busy

  /** The inode with its size raised to the end of what was written. */
  function Grown(inode: seq<byte>, end: nat): (r: seq<byte>)
    requires |inode| == INODE_SIZE && end < LIMIT32
    ensures |r| == INODE_SIZE
  {
    if end > Get32(inode, SIZE) then Put32(inode, SIZE, end) else inode
  }

  lemma GrownIs(inode: seq<byte>, end: nat)
    requires |inode| == INODE_SIZE && end < LIMIT32
    ensures var r := Grown(inode, end);
            && Get32(r, SIZE) == (if end > Get32(inode, SIZE) then end else Get32(inode, SIZE))
            && PointersBut(inode, r, SLOTS) && Get16(r, MODE) == Get16(inode, MODE)
  {
    Put32Get(inode, SIZE, end);
    hide Put32, Get32, Get16;
    Put32Elsewhere(inode, SIZE, end, MODE);
    forall t | 0 <= t < SLOTS ensures Pointer(Grown(inode, end), t) == Pointer(inode, t) {
      Put32Elsewhere(inode, SIZE, end, BLOCK + 4 * t);
    }
  }

  /** Every block that stands for something is in use. */
  ghost predicate DiskFull(geo: Geo, d: seq<byte>) {
    Volume(geo, d) && forall n: nat :: n < Items(geo, Blocks) ==> Marked(geo, d, Blocks, n)
  }

  /** The bytes `t` are written; `d0` and `inode0` are what it started from, `v0` the virtual disk then. */
  ghost predicate Progress(geo: Geo, d0: seq<byte>, v0: seq<byte>, inode0: seq<byte>, d: seq<byte>, sup: seq<byte>,
                           files: set<nat>, i: nat, inode: seq<byte>, offset: nat, t: seq<byte>) {
    && Writing(geo, d, sup, files, i, inode) && SameRecs(geo, d0, d) && |inode0| == INODE_SIZE
    && Wrote(geo, v0, Virtual(geo, d, i, inode), files, i, offset, t)
    && Get32(inode, SIZE) == Get32(inode0, SIZE) && Get16(inode, MODE) == Get16(inode0, MODE)
  }

  /** Patching a data block takes no space. */
  lemma PatchedFree(geo: Geo, d: seq<byte>, b: nat, o: nat, chunk: seq<byte>)
    requires Volume(geo, d) && b < geo.blockCount && IsData(geo, b)
    ensures FreeBlocks(geo, Patched(geo, d, b, o, chunk)) == FreeBlocks(geo, d)
  {
    RegLen(geo, d, Data(b));
    hide Layout, Shape, FreeBlocks, Reg, Put, IsData;
    if o + |chunk| <= geo.bs {
      PutFree(geo, d, Data(b), Splice(Reg(geo, d, Data(b)), o, chunk));
    }
  }

  /** What one round spends: nothing, or one block for an empty slot. */
  lemma RoundSpends(geo: Geo, d0: seq<byte>, d1: seq<byte>, d2: seq<byte>, inode0: seq<byte>, inode: seq<byte>,
                    inode2: seq<byte>, a: nat, s: nat, b: nat, o: nat, chunk: seq<byte>)
    requires Spends(geo, d0, d1, inode0, inode, a, s) && s < NDIR && |inode| == INODE_SIZE && 0 < b < LIMIT32
    requires Volume(geo, d2) && b < geo.blockCount && IsData(geo, b)
    requires Pointer(inode, s) != 0 ==> d2 == d1 && inode2 == inode
    requires Pointer(inode, s) == 0 ==> Takes(geo, d1, d2, b) && GainsBlock(inode, inode2, s, b, geo.bs)
    ensures Spends(geo, d0, Patched(geo, d2, b, o, chunk), inode0, inode2, a, s + 1)
  {
    hide Spends, FreeBlocks, Volume, Patched, IsData, Pointer, GainsBlock;
    PatchedFree(geo, d2, b, o, chunk);
    var d3 := Patched(geo, d2, b, o, chunk);
    if Pointer(inode, s) != 0 {
      SpendsNothing(geo, d0, d1, d3, inode0, inode, a, s);
    } else {
      SpendsOne(geo, d0, d1, d3, inode0, inode, inode2, a, s, b);
    }
  }

  lemma DirectData(geo: Geo, v: seq<byte>, files: set<nat>, i: nat, s: nat, b: nat)
    requires Direct(geo, v, files, i, s, b)
    ensures Shape(geo) && s < NDIR && 0 < b < geo.blockCount && b < LIMIT32 && IsData(geo, b)
  {
    DirectBlock(geo, v, files, i, s, b);
    BlockFits(geo, b);
  }

  /** One round: a block is assigned, read, patched and written back. */
  method WriteOne(v: Io.Volume, inode: seq<byte>, s: nat, o: nat, chunk: seq<byte>, ghost files: set<nat>, ghost i: nat,
                  ghost d0: seq<byte>, ghost v0: seq<byte>, ghost inode0: seq<byte>, ghost offset: nat,
                  ghost t: seq<byte>, ghost a: nat)
    returns (ok: bool, inode2: seq<byte>)
    requires v.Ready() && Progress(v.geo, d0, v0, inode0, v.disk, v.sup, files, i, inode, offset, t)
    requires offset + |t| == s * v.geo.bs + o && o + |chunk| <= v.geo.bs
    requires Spends(v.geo, d0, v.disk, inode0, inode, a, s)
    modifies v`disk, v`sup, v.bufBlock, v.bufBitmap, v.bufSector
    ensures v.Ready()
    ensures Progress(v.geo, d0, v0, inode0, v.disk, v.sup, files, i, inode2, offset, if ok then t + chunk else t)
    ensures !ok <==> s >= NDIR || (Pointer(inode, s) == 0 && FreeBlocks(v.geo, old(v.disk)) == {})
    ensures !ok ==> v.disk == old(v.disk) && inode2 == inode
    ensures ok ==> Spends(v.geo, d0, v.disk, inode0, inode2, a, s + 1)
  {
    hide Accounts, FilesOk, Layout, Extends, Virtual, Direct, SameBytes, SameRecs, Wrote, Get32, Get16, Shape, Marked,
      Items, Reg, Patched, Sized, Spends, FreeBlocks, Takes, Pointer, GainsBlock;
    ghost var d1 := v.disk;
    var b;
    ok, inode2, b := AssignDataBlock(v, inode, s, files, i);
    WroteSame(v.geo, v0, Virtual(v.geo, d1, i, inode), Virtual(v.geo, v.disk, i, inode2), files, i, offset, t);
    SameRecsTransitive(v.geo, d0, d1, v.disk);
    if ok {
      ghost var d2 := v.disk;
      DirectData(v.geo, Virtual(v.geo, v.disk, i, inode2), files, i, s, b);
      RoundSpends(v.geo, d0, d1, d2, inode0, inode, inode2, a, s, b, o, chunk);
      ChunkOk(v.geo, v.disk, v.sup, files, i, inode2, v0, offset, t, chunk, s, o, b);
      PatchBlock(v, b, o, chunk);
      SameRecsTransitive(v.geo, d0, d2, v.disk);
    }
  }

  /** The slots from that of position `offset` to that of the last of `n` bytes, past the end. */
  function FirstSlot(bs: nat, offset: nat): nat
    requires bs > 0
  {
    offset / bs
  }

  function EndSlot(bs: nat, offset: nat, n: nat): nat
    requires bs > 0
  {
    if n == 0 then offset / bs else (offset + n - 1) / bs + 1
  }

  /** The empty slots that a write of `n` bytes at `offset` comes to. */
  function Needed(inode: seq<byte>, bs: nat, offset: nat, n: nat): nat
    requires |inode| >= INODE_SIZE && bs > 0
  {
    Holes(inode, FirstSlot(bs, offset), EndSlot(bs, offset, n))
  }

  /** Where the next round starts, the round before having ended at a block boundary. */
  lemma NextRound(bs: nat, offset: nat, written: nat, n: nat, total: nat)
    requires bs > 0 && written + n <= total && n > 0
    requires n == (if total - written > bs - (offset + written) % bs then bs - (offset + written) % bs
                   else total - written)
    ensures EndSlot(bs, offset, written + n) == (offset + written) / bs + 1
    ensures written + n < total ==> (offset + written + n) / bs == (offset + written) / bs + 1
  {
    var pos := offset + written;
    PosSplit(pos, bs);
    SlotOf(pos, n - 1, bs);
    if written + n < total {
      NextSlot(pos, n, bs);
    }
  }

  lemma SlotOf(pos: nat, k: nat, bs: nat)
    requires bs > 0 && pos % bs + k < bs
    ensures (pos + k) / bs == pos / bs
  {
    Quotient(pos + k, pos / bs, pos % bs + k, bs);
  }

  lemma NextSlot(pos: nat, n: nat, bs: nat)
    requires bs > 0 && pos % bs + n == bs
    ensures (pos + n) / bs == pos / bs + 1
  {
    assert (pos / bs + 1) * bs == pos / bs * bs + bs;
    Quotient(pos + n, pos / bs + 1, 0, bs);
  }

  lemma Quotient(x: nat, q: nat, r: nat, n: nat)
    requires r < n && x == q * n + r
    ensures x / n == q
  {
    var p := x / n;
    PosSplit(x, n);
    if p < q {
      MulMonotone(p + 1, q, n);
      assert false;
    } else if q < p {
      MulMonotone(q + 1, p, n);
      assert false;
    }
  }

  function Least(a: nat, b: nat): nat {
    if a < b then a else b
  }

  /** The outcome of the loop in blocks: which are gone, why it stopped, and where the new ones are. */
  ghost predicate Spent(geo: Geo, d0: seq<byte>, d: seq<byte>, inode0: seq<byte>, inode: seq<byte>, offset: nat, n: nat,
                        ok: bool) {
    && Volume(geo, d0) && Volume(geo, d) && |inode0| >= INODE_SIZE && |inode| >= INODE_SIZE && geo.bs > 0
    && FreeBlocks(geo, d) <= FreeBlocks(geo, d0)
    && |FreeBlocks(geo, d)| + Least(Needed(inode0, geo.bs, offset, n), |FreeBlocks(geo, d0)|) == |FreeBlocks(geo, d0)|
    && (!ok <==> offset + n > NDIR * geo.bs || Needed(inode0, geo.bs, offset, n) > |FreeBlocks(geo, d0)|)
    && (ok ==> Sectors(inode0, inode, Needed(inode0, geo.bs, offset, n), geo.bs))
    && forall m :: m in FreeBlocks(geo, d0) && m !in FreeBlocks(geo, d) ==> Newly(geo, inode0, inode, m)
  }

  /** All slots came out. */
  lemma SpentAll(geo: Geo, d0: seq<byte>, d: seq<byte>, inode0: seq<byte>, inode: seq<byte>, offset: nat, n: nat)
    requires geo.bs > 0 && Spends(geo, d0, d, inode0, inode, FirstSlot(geo.bs, offset), EndSlot(geo.bs, offset, n))
    requires offset + n <= NDIR * geo.bs
    ensures Spent(geo, d0, d, inode0, inode, offset, n, true)
  {
    hide Volume, FreeBlocks, Holes, FirstSlot, EndSlot, Newly, Pointer;
  }

  /** The loop stopped at slot `s`: past the direct ones, or empty with no free block left. */
  lemma SpentSome(geo: Geo, d0: seq<byte>, d: seq<byte>, inode0: seq<byte>, inode: seq<byte>, offset: nat, n: nat,
                  s: nat)
    requires geo.bs > 0 && Spends(geo, d0, d, inode0, inode, FirstSlot(geo.bs, offset), s)
    requires s < EndSlot(geo.bs, offset, n)
    requires if s >= NDIR then offset + n > NDIR * geo.bs else Pointer(inode, s) == 0 && FreeBlocks(geo, d) == {}
    requires s <= NDIR || s == FirstSlot(geo.bs, offset)
    ensures Spent(geo, d0, d, inode0, inode, offset, n, false)
    ensures StopSlot(inode0, FirstSlot(geo.bs, offset), |FreeBlocks(geo, d0)|) == s
  {
    var a, c := FirstSlot(geo.bs, offset), EndSlot(geo.bs, offset, n);
    HolesGrow(inode0, a, s, c);
    StopSlotLater(inode0, a, s, |FreeBlocks(geo, d0)|);
    hide Volume, FreeBlocks, Holes, FirstSlot, EndSlot, Newly, Pointer;
    if s < NDIR {
      assert Pointer(inode0, s) == 0;
      assert |FreeBlocks(geo, d)| == 0;
    }
  }

  /** The loop of ext2_write_file: `data` goes to the file at `offset`, as far as blocks can be had. */
  method WriteBlocks(v: Io.Volume, inode0: seq<byte>, offset: nat, data: seq<byte>, ghost files: set<nat>, ghost i: nat)
    returns (ok: bool, inode: seq<byte>, ghost t: seq<byte>)
    requires v.Ready() && Writing(v.geo, v.disk, v.sup, files, i, inode0) && data != []
    modifies v`disk, v`sup, v.bufBlock, v.bufBitmap, v.bufSector
    ensures v.Ready() && t <= data
    ensures Progress(v.geo, old(v.disk), Virtual(v.geo, old(v.disk), i, inode0), inode0, v.disk, v.sup, files, i, inode,
                     offset, t)
    ensures ok ==> t == data && offset + |data| <= NDIR * v.geo.bs
    ensures !ok ==> EndsAt(v.geo.bs, offset, |t|,
                           StopSlot(inode0, FirstSlot(v.geo.bs, offset), |FreeBlocks(v.geo, old(v.disk))|))
    ensures Spent(v.geo, old(v.disk), v.disk, inode0, inode, offset, |data|, ok)
  {
    hide Accounts, FilesOk, Layout, Extends, Virtual, Direct, SameBytes, SameRecs, Wrote, Get32, Get16, Shape, Sized,
      Spends, Spent, FreeBlocks, Pointer;
    ghost var d0 := v.disk;
    ghost var v0 := StartVirtual(v.geo, d0, v.sup, files, i, inode0);
    hide Writing;
    inode, t := inode0, [];
    var written := 0;
    PositiveBlock(v.geo);
    ghost var a := FirstSlot(v.geo.bs, offset);
    SpendsStart(v.geo, d0, inode0, a);
    assert Progress(v.geo, d0, v0, inode0, v.disk, v.sup, files, i, inode, offset, t);
    hide Progress;
    while written < |data|
      invariant v.Ready() && written <= |data| && t == data[..written]
      invariant Progress(v.geo, d0, v0, inode0, v.disk, v.sup, files, i, inode, offset, t)
      invariant written > 0 ==> offset + written <= NDIR * v.geo.bs
      invariant Spends(v.geo, d0, v.disk, inode0, inode, a, EndSlot(v.geo.bs, offset, written))
      invariant written < |data| ==> EndSlot(v.geo.bs, offset, written) == (offset + written) / v.geo.bs
    {
      hide EndSlot;
      var pos := offset + written;
      var s, o := pos / v.geo.bs, pos % v.geo.bs;
      PosSplit(pos, v.geo.bs);
      var n := if |data| - written > v.geo.bs - o then v.geo.bs - o else |data| - written;
      NextRound(v.geo.bs, offset, written, n, |data|);
      LaterSlot(v.geo.bs, offset, written, |data|);
      ok, inode := WriteOne(v, inode, s, o, data[written..written + n], files, i, d0, v0, inode0, offset, t, a);
      if !ok {
        if s >= NDIR { MulMonotone(NDIR, s, v.geo.bs); }
        EndsThere(v.geo.bs, offset, written);
        SpentSome(v.geo, d0, v.disk, inode0, inode, offset, |data|, s);
        return;
      }
      MulMonotone(s + 1, NDIR, v.geo.bs);
      NextMultiple(s + 1, v.geo.bs);
      t := t + data[written..written + n];
      written := written + n;
    }
    SpentAll(v.geo, d0, v.disk, inode0, inode, offset, |data|);
    ok := true;
  }

  /** A round that ended at a block boundary. */
  lemma EndsThere(bs: nat, offset: nat, written: nat)
    requires bs > 0 && EndSlot(bs, offset, written) == (offset + written) / bs
    requires written > 0 ==> offset + written <= NDIR * bs
    ensures EndsAt(bs, offset, written, (offset + written) / bs)
  {
    if written > 0 {
      var p, q := (offset + written - 1) / bs, (offset + written) / bs;
      PosSplit(offset + written - 1, bs);
      PosSplit(offset + written, bs);
      assert q * bs == p * bs + bs;
      if q > NDIR { MulMonotone(NDIR + 1, q, bs); assert false; }
    }
  }

  lemma LaterSlot(bs: nat, offset: nat, written: nat, n: nat)
    requires bs > 0 && written < n
    ensures (offset + written) / bs < EndSlot(bs, offset, n)
  {
    PosSplit(offset + written, bs);
    PosSplit(offset + n - 1, bs);
    var p, q := (offset + written) / bs, (offset + n - 1) / bs;
    if q < p {
      MulMonotone(q + 1, p, bs);
      assert false;
    }
  }

  ghost function StartVirtual(geo: Geo, d: seq<byte>, sup: seq<byte>, files: set<nat>, i: nat,
                              inode: seq<byte>): (v: seq<byte>)
    requires Writing(geo, d, sup, files, i, inode)
    ensures v == Virtual(geo, d, i, inode) && Wrote(geo, v, v, files, i, 0, []) && SameRecs(geo, d, d)
    ensures forall offset: nat :: Wrote(geo, v, v, files, i, offset, [])
  {
    Virtual(geo, d, i, inode)
  }
}
