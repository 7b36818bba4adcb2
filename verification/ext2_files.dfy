/**
 The files of a volume as a whole: every block that an inode refers to is an allocated
 data block with one owner, and what the primitive disk writes do to files and their bytes
 (src/fs/ext2/ext2_file.c, ext2_alloc.c).
 */
module Ext2Files {
  import opened Bits
  import opened Words
  import opened Ext2Layout
  import opened Ext2Space
  import opened Ext2Tree

  ghost function Rec(geo: Geo, d: seq<byte>, i: nat): (r: seq<byte>)
    requires Volume(geo, d) && 0 < i <= geo.inodeCount
    ensures |r| == geo.inodeSize >= INODE_SIZE
  {
    RegLen(geo, d, Record(i));
    Reg(geo, d, Record(i))
  }

  predicate Within(geo: Geo, p: Path) {
    Legal(geo.PointersPerBlock(), p)
  }

  /** The block at a path of inode `i`, 0 if absent. */
  ghost function At(geo: Geo, d: seq<byte>, i: nat, p: Path): nat
    requires Volume(geo, d) && 0 < i <= geo.inodeCount && p.slot < SLOTS
  {
    Node(geo, d, Rec(geo, d, i), p.slot, p.idx)
  }

  /** A block number that may be referred to. */
  ghost predicate BlockOk(geo: Geo, d: seq<byte>, b: nat)
    requires Volume(geo, d)
  {
    geo.firstData <= b < geo.blockCount && IsData(geo, b) && Marked(geo, d, Blocks, b - geo.firstData)
  }

  ghost predicate NodeOk(geo: Geo, d: seq<byte>, i: nat, p: Path)
    requires Volume(geo, d) && 0 < i <= geo.inodeCount && p.slot < SLOTS
  {
    At(geo, d, i, p) == 0 || BlockOk(geo, d, At(geo, d, i, p))
  }

  ghost predicate OneOwner(geo: Geo, d: seq<byte>, i: nat, p: Path, j: nat, q: Path)
    requires Volume(geo, d) && 0 < i <= geo.inodeCount && p.slot < SLOTS && 0 < j <= geo.inodeCount && q.slot < SLOTS
  {
    At(geo, d, i, p) == At(geo, d, j, q) != 0 ==> i == j && p == q
  }

  /** What the bitmap calls free holds no metadata. */
  ghost predicate FreeOk(geo: Geo, d: seq<byte>, n: nat)
    requires Volume(geo, d)
  {
    !Marked(geo, d, Blocks, n) ==> IsData(geo, geo.firstData + n)
  }

  predicate Inode(geo: Geo, i: nat) {
    0 < i <= geo.inodeCount
  }

  /** Referenced blocks are allocated, hold no metadata, and have one owner each. */
  ghost predicate FilesOk(geo: Geo, d: seq<byte>, files: set<nat>) {
    && Volume(geo, d) && (forall i :: i in files ==> Inode(geo, i))
    && (forall i, p :: i in files && Within(geo, p) ==> NodeOk(geo, d, i, p))
    && (forall i, p, j, q :: i in files && j in files && Within(geo, p) && Within(geo, q) ==>
          OneOwner(geo, d, i, p, j, q))
    && (forall n: nat :: n < Items(geo, Blocks) ==> FreeOk(geo, d, n))
  }

  // ---------------------------------------------------------------- what a change leaves

  ghost predicate SameAt(geo: Geo, d: seq<byte>, d2: seq<byte>, i: nat, p: Path)
    requires Volume(geo, d) && Volume(geo, d2) && Inode(geo, i) && p.slot < SLOTS
  {
    At(geo, d2, i, p) == At(geo, d, i, p)
  }

  ghost predicate StillMarked(geo: Geo, d: seq<byte>, d2: seq<byte>, n: nat)
    requires Volume(geo, d) && Volume(geo, d2)
  {
    Marked(geo, d, Blocks, n) ==> Marked(geo, d2, Blocks, n)
  }

  /** The block maps are as before, and nothing was freed. */
  ghost predicate Steady(geo: Geo, d: seq<byte>, d2: seq<byte>, files: set<nat>) {
    && Volume(geo, d) && Volume(geo, d2) && (forall i :: i in files ==> Inode(geo, i))
    && (forall i, p :: i in files && Within(geo, p) ==> SameAt(geo, d, d2, i, p))
    && (forall n: nat :: n < Items(geo, Blocks) ==> StillMarked(geo, d, d2, n))
  }

  lemma SteadyOk(geo: Geo, d: seq<byte>, d2: seq<byte>, files: set<nat>)
    requires FilesOk(geo, d, files) && Steady(geo, d, d2, files)
    ensures FilesOk(geo, d2, files)
  {
    hide Volume, At, Marked, IsData, Items;
    forall i, p | i in files && Within(geo, p) ensures NodeOk(geo, d2, i, p) {
      assert NodeOk(geo, d, i, p) && SameAt(geo, d, d2, i, p);
      var b := At(geo, d, i, p);
      if b != 0 {
        BlockItem(geo, b);
        assert StillMarked(geo, d, d2, b - geo.firstData);
      }
    }
    forall i, p, j, q | i in files && j in files && Within(geo, p) && Within(geo, q)
      ensures OneOwner(geo, d2, i, p, j, q)
    {
      assert OneOwner(geo, d, i, p, j, q) && SameAt(geo, d, d2, i, p) && SameAt(geo, d, d2, j, q);
    }
    forall n: nat | n < Items(geo, Blocks) ensures FreeOk(geo, d2, n) {
      assert FreeOk(geo, d, n) && StillMarked(geo, d, d2, n);
    }
  }

  lemma BlockItem(geo: Geo, b: nat)
    ensures geo.firstData <= b < geo.blockCount ==> b - geo.firstData < Items(geo, Blocks)
  {
  }

  /** Block `b` reads the same. */
  predicate SameBlock(geo: Geo, d: seq<byte>, d2: seq<byte>, b: nat)
    requires Shape(geo) && Sized(geo, d) && Sized(geo, d2)
  {
    0 < b < geo.blockCount ==> Reg(geo, d2, Data(b)) == Reg(geo, d, Data(b))
  }

  /** A lookup sees the same when the pointer blocks on its way read the same. */
  lemma {:induction false} NodeSame(geo: Geo, d: seq<byte>, d2: seq<byte>, rec: seq<byte>, slot: nat, idx: seq<nat>)
    requires Shape(geo) && Sized(geo, d) && Sized(geo, d2) && |rec| >= INODE_SIZE && slot < SLOTS
    requires forall k :: 0 <= k < |idx| ==> SameBlock(geo, d, d2, Node(geo, d, rec, slot, idx[..k]))
    ensures Node(geo, d2, rec, slot, idx) == Node(geo, d, rec, slot, idx)
    decreases |idx|
  {
    hide Shape, Sized;
    if idx != [] {
      var init := idx[..|idx| - 1];
      forall k | 0 <= k < |init| ensures SameBlock(geo, d, d2, Node(geo, d, rec, slot, init[..k])) {
        assert init[..k] == idx[..k];
      }
      NodeSame(geo, d, d2, rec, slot, init);
      assert SameBlock(geo, d, d2, Node(geo, d, rec, slot, idx[..|idx| - 1]));
    }
  }

  /** Every pointer block of inode `i` reads the same. */
  ghost predicate SameInner(geo: Geo, d: seq<byte>, d2: seq<byte>, i: nat)
    requires Volume(geo, d) && Volume(geo, d2) && Inode(geo, i)
  {
    forall p :: Within(geo, p) && !Leaf(p) ==> SameBlock(geo, d, d2, At(geo, d, i, p))
  }

  lemma AtSame(geo: Geo, d: seq<byte>, d2: seq<byte>, i: nat, p: Path)
    requires Volume(geo, d) && Volume(geo, d2) && Inode(geo, i) && Within(geo, p)
    requires Rec(geo, d2, i) == Rec(geo, d, i) && SameInner(geo, d, d2, i)
    ensures SameAt(geo, d, d2, i, p)
  {
    hide Shape, Layout, Sized;
    forall k | 0 <= k < |p.idx| ensures SameBlock(geo, d, d2, Node(geo, d, Rec(geo, d, i), p.slot, p.idx[..k])) {
      var q := Path(p.slot, p.idx[..k]);
      assert Within(geo, q) && !Leaf(q);
      assert SameBlock(geo, d, d2, At(geo, d, i, q));
    }
    NodeSame(geo, d, d2, Rec(geo, d, i), p.slot, p.idx);
  }

  // ---------------------------------------------------------------- allocation

  /** Marking one more block disturbs no file. */
  lemma TurnedSteady(geo: Geo, d: seq<byte>, d2: seq<byte>, files: set<nat>, n: nat)
    requires FilesOk(geo, d, files) && Turned(geo, d, d2, Blocks, n, true)
    ensures Steady(geo, d, d2, files)
  {
    hide Shape, Layout, Sized, Marked, IsData, Reg, At, Items;
    forall i, p | i in files && Within(geo, p) ensures SameAt(geo, d, d2, i, p) {
      assert SameReg(geo, d, d2, Record(i));
      forall q | Within(geo, q) && !Leaf(q) ensures SameBlock(geo, d, d2, At(geo, d, i, q)) {
        assert NodeOk(geo, d, i, q);
        SameContentsBlock(geo, d, d2, At(geo, d, i, q));
      }
      AtSame(geo, d, d2, i, p);
    }
    forall n2: nat | n2 < Items(geo, Blocks) ensures StillMarked(geo, d, d2, n2) {
      assert MarkedLike(geo, d, d2, Blocks, n, true, Blocks, n2);
    }
  }

  lemma SameContentsBlock(geo: Geo, d: seq<byte>, d2: seq<byte>, b: nat)
    requires SameContents(geo, d, d2)
    ensures b < geo.blockCount && IsData(geo, b) ==> SameBlock(geo, d, d2, b)
  {
    if b < geo.blockCount && IsData(geo, b) {
      assert SameReg(geo, d, d2, Data(b));
    }
  }

  // ---------------------------------------------------------------- writes to blocks and records

  /** Writing a record or a data block touches no bitmap. */
  lemma PutMarked(geo: Geo, d: seq<byte>, r: Region, t: seq<byte>, kind: Kind, n: nat)
    requires Volume(geo, d) && Sound(geo, r) && (r.Record? || r.Data?) && |t| == Len(geo, r)
    ensures Volume(geo, Put(geo, d, r, t)) && (Marked(geo, Put(geo, d, r, t), kind, n) <==> Marked(geo, d, kind, n))
  {
    if GroupOf(geo, kind, n) < geo.groups {
      PutReg(geo, d, r, t, BitsOf(kind, GroupOf(geo, kind, n)));
    }
  }

  /** No item became marked or clear. */
  ghost predicate SameMarks(geo: Geo, d: seq<byte>, d2: seq<byte>) {
    && Volume(geo, d) && Volume(geo, d2)
    && forall k, m: nat :: m < Items(geo, k) ==> SameMark(geo, d, d2, k, m)
  }

  lemma PutRest(geo: Geo, d: seq<byte>, r: Region, t: seq<byte>)
    requires Volume(geo, d) && Sound(geo, r) && (r.Record? || r.Data?) && |t| == Len(geo, r)
    ensures SameRest(geo, d, Put(geo, d, r, t))
  {
    PutReg(geo, d, r, t, Super);
    hide Layout, Shape, Put, IsData, Sized, Reg;
    forall g: nat | g < geo.groups ensures SameDesc(geo, d, Put(geo, d, r, t), g) {
      PutReg(geo, d, r, t, Desc(g));
    }
  }

  lemma PutSameMarks(geo: Geo, d: seq<byte>, r: Region, t: seq<byte>)
    requires Volume(geo, d) && Sound(geo, r) && (r.Record? || r.Data?) && |t| == Len(geo, r)
    ensures SameMarks(geo, d, Put(geo, d, r, t)) && SameRest(geo, d, Put(geo, d, r, t))
  {
    PutRest(geo, d, r, t);
    PutMarked(geo, d, r, t, Blocks, 0);
    hide Volume, Marked, Put, Sound, Items, SameRest;
    forall k, m: nat | m < Items(geo, k) ensures SameMark(geo, d, Put(geo, d, r, t), k, m) {
      PutMarked(geo, d, r, t, k, m);
    }
  }

  lemma PutGroup(geo: Geo, d: seq<byte>, r: Region, t: seq<byte>, g: nat)
    requires Volume(geo, d) && Sound(geo, r) && (r.Record? || r.Data?) && |t| == Len(geo, r) && g < geo.groups
    ensures var d2 := Put(geo, d, r, t);
            && Volume(geo, d2) && DescOf(geo, d2, g) == DescOf(geo, d, g)
            && FreeCount(geo, d2, Blocks, g) == FreeCount(geo, d, Blocks, g)
            && FreeCount(geo, d2, Inodes, g) == FreeCount(geo, d, Inodes, g)
  {
    PutReg(geo, d, r, t, Desc(g));
    PutReg(geo, d, r, t, BlockBits(g));
    PutReg(geo, d, r, t, InodeBits(g));
    hide Layout, Shape, Put, IsData, Sized;
  }

  lemma {:induction false} PutTotal(geo: Geo, d: seq<byte>, r: Region, t: seq<byte>, kind: Kind, n: nat)
    requires Volume(geo, d) && Sound(geo, r) && (r.Record? || r.Data?) && |t| == Len(geo, r) && n <= geo.groups
    ensures Volume(geo, Put(geo, d, r, t)) && Total(geo, Put(geo, d, r, t), kind, n) == Total(geo, d, kind, n)
  {
    hide Shape, Layout, IsData, FreeCount, Put, Sized;
    PutMarked(geo, d, r, t, kind, 0);
    if n > 0 {
      PutGroup(geo, d, r, t, n - 1);
      PutTotal(geo, d, r, t, kind, n - 1);
    }
  }

  /** Nor do such writes change the accounts. */
  lemma PutAccounts(geo: Geo, d: seq<byte>, sup: seq<byte>, r: Region, t: seq<byte>)
    requires Accounts(geo, d, sup) && Sound(geo, r) && (r.Record? || r.Data?) && |t| == Len(geo, r)
    ensures Accounts(geo, Put(geo, d, r, t), sup)
  {
    var d2 := Put(geo, d, r, t);
    PutTotal(geo, d, r, t, Blocks, geo.groups);
    PutTotal(geo, d, r, t, Inodes, geo.groups);
    PutReg(geo, d, r, t, Super);
    hide Volume, Put, FreeCount, Total, DescOf, Get16, Get32, IsData, Sound;
    forall g: nat | g < geo.groups ensures GroupOk(geo, d2, g) {
      assert GroupOk(geo, d, g);
      PutGroup(geo, d, r, t, g);
    }
  }

  /** No file uses `b` as a pointer block. */
  ghost predicate NotInner(geo: Geo, d: seq<byte>, files: set<nat>, b: nat)
    requires Volume(geo, d)
  {
    forall i, p :: i in files && Inode(geo, i) && Within(geo, p) && !Leaf(p) ==> At(geo, d, i, p) != b
  }

  /** A block that is data to one file is a pointer block to none. */
  lemma LeafNotInner(geo: Geo, d: seq<byte>, files: set<nat>, i: nat, p: Path)
    requires FilesOk(geo, d, files) && i in files && Within(geo, p) && Leaf(p) && At(geo, d, i, p) != 0
    ensures NotInner(geo, d, files, At(geo, d, i, p)) && BlockOk(geo, d, At(geo, d, i, p))
  {
    hide Volume, At, Marked, IsData, FreeOk;
    assert NodeOk(geo, d, i, p);
    forall j, q | j in files && Within(geo, q) && !Leaf(q) ensures At(geo, d, j, q) != At(geo, d, i, p) {
      assert OneOwner(geo, d, i, p, j, q);
    }
  }

  /** A free block is referred to by no file. */
  lemma FreeUnused(geo: Geo, d: seq<byte>, files: set<nat>, b: nat, i: nat, p: Path)
    requires FilesOk(geo, d, files) && geo.firstData <= b < geo.blockCount && !Marked(geo, d, Blocks, b - geo.firstData)
    requires b != 0
    requires i in files && Within(geo, p)
    ensures At(geo, d, i, p) != b
  {
    hide Volume, At, Marked, IsData, FreeOk;
    assert NodeOk(geo, d, i, p);
  }

  /** Writing a block that is no pointer block changes no block map. */
  lemma DataPutSteady(geo: Geo, d: seq<byte>, files: set<nat>, b: nat, t: seq<byte>)
    requires FilesOk(geo, d, files) && IsData(geo, b) && |t| == geo.bs && NotInner(geo, d, files, b)
    ensures Steady(geo, d, Put(geo, d, Data(b), t), files)
  {
    var d2 := Put(geo, d, Data(b), t);
    assert Volume(geo, d2);
    hide Shape, Layout, Sized, Marked, Reg, At, Items, Put;
    forall i, p | i in files && Within(geo, p) ensures SameAt(geo, d, d2, i, p) {
      PutReg(geo, d, Data(b), t, Record(i));
      forall q | Within(geo, q) && !Leaf(q) ensures SameBlock(geo, d, d2, At(geo, d, i, q)) {
        assert NodeOk(geo, d, i, q);
        DataPutBlock(geo, d, b, t, At(geo, d, i, q));
      }
      AtSame(geo, d, d2, i, p);
    }
    forall n: nat | n < Items(geo, Blocks) ensures StillMarked(geo, d, d2, n) {
      PutMarked(geo, d, Data(b), t, Blocks, n);
    }
  }

  lemma DataPutBlock(geo: Geo, d: seq<byte>, b: nat, t: seq<byte>, c: nat)
    requires Volume(geo, d) && IsData(geo, b) && |t| == geo.bs
    ensures Volume(geo, Put(geo, d, Data(b), t))
    ensures c < geo.blockCount && IsData(geo, c) ==>
              Reg(geo, Put(geo, d, Data(b), t), Data(c)) == if c == b then t else Reg(geo, d, Data(c))
    ensures c < geo.blockCount && IsData(geo, c) && c != b ==> SameBlock(geo, d, Put(geo, d, Data(b), t), c)
  {
    if c < geo.blockCount && IsData(geo, c) {
      PutReg(geo, d, Data(b), t, Data(c));
    }
  }

  // ---------------------------------------------------------------- bytes

  /** Byte `o` of block `b`; an absent block is all zeroes. */
  ghost function BlockByte(geo: Geo, d: seq<byte>, b: nat, o: nat): byte
    requires Volume(geo, d)
  {
    if 0 < b < geo.blockCount && o < |Reg(geo, d, Data(b))| then Reg(geo, d, Data(b))[o] else 0
  }

  function PathAt(geo: Geo, pos: nat): Path
    requires Shape(geo)
  {
    PathOf(geo.PointersPerBlock(), pos / geo.bs)
  }

  lemma PathAtLegal(geo: Geo, pos: nat)
    requires Shape(geo) && pos < LIMIT32
    ensures Within(geo, PathAt(geo, pos)) && Leaf(PathAt(geo, pos)) && PathAt(geo, pos).slot < SLOTS
  {
    PathLegal(geo.PointersPerBlock(), pos / geo.bs);
  }

  /** The raw byte at `pos` of the file: the disk byte of the mapped block, or 0. */
  ghost function ByteAt(geo: Geo, d: seq<byte>, i: nat, pos: nat): byte
    requires Volume(geo, d) && Inode(geo, i) && pos < LIMIT32
  {
    PathAtLegal(geo, pos);
    BlockByte(geo, d, At(geo, d, i, PathAt(geo, pos)), pos % geo.bs)
  }

  ghost predicate SameByte(geo: Geo, d: seq<byte>, d2: seq<byte>, i: nat, pos: nat)
    requires Volume(geo, d) && Volume(geo, d2) && Inode(geo, i) && pos < LIMIT32
  {
    ByteAt(geo, d2, i, pos) == ByteAt(geo, d, i, pos)
  }

  /** Marking a block changes no file's bytes. */
  lemma TurnedBytes(geo: Geo, d: seq<byte>, d2: seq<byte>, files: set<nat>, n: nat, i: nat, pos: nat)
    requires FilesOk(geo, d, files) && Turned(geo, d, d2, Blocks, n, true) && i in files && pos < LIMIT32
    ensures Volume(geo, d2) && SameByte(geo, d, d2, i, pos)
  {
    PathAtLegal(geo, pos);
    hide Shape, Layout, Sized, Marked, Reg, At, Items, PathAt;
    TurnedSteady(geo, d, d2, files, n);
    var p := PathAt(geo, pos);
    assert SameAt(geo, d, d2, i, p) && NodeOk(geo, d, i, p);
    SameContentsBlock(geo, d, d2, At(geo, d, i, p));
  }

  /** Writing a data block changes the bytes mapped to it and no others. */
  lemma DataPutBytes(geo: Geo, d: seq<byte>, files: set<nat>, b: nat, t: seq<byte>, i: nat, pos: nat)
    requires FilesOk(geo, d, files) && IsData(geo, b) && b != 0 && |t| == geo.bs && NotInner(geo, d, files, b)
    requires i in files && pos < LIMIT32
    ensures Volume(geo, Put(geo, d, Data(b), t)) && PathAt(geo, pos).slot < SLOTS
    ensures ByteAt(geo, Put(geo, d, Data(b), t), i, pos) ==
            if At(geo, d, i, PathAt(geo, pos)) == b then t[pos % geo.bs] else ByteAt(geo, d, i, pos)
  {
    PathAtLegal(geo, pos);
    DataPutSteady(geo, d, files, b, t);
    var p := PathAt(geo, pos);
    var d2 := Put(geo, d, Data(b), t);
    DataPutBlock(geo, d, b, t, At(geo, d, i, p));
    hide Layout, Sized, Marked, At, Items, PathAt, Put;
    assert SameAt(geo, d, d2, i, p) && NodeOk(geo, d, i, p);
  }

  // ---------------------------------------------------------------- new records

  /** The records agree on every pointer but the one in slot `s`. */
  predicate PointersBut(rec: seq<byte>, rec2: seq<byte>, s: nat) {
    && |rec| >= INODE_SIZE && |rec2| >= INODE_SIZE
    && forall t :: 0 <= t < SLOTS && t != s ==> Pointer(rec2, t) == Pointer(rec, t)
  }

  lemma {:induction false} NodeRec(geo: Geo, d: seq<byte>, rec: seq<byte>, rec2: seq<byte>, slot: nat, idx: seq<nat>)
    requires Shape(geo) && Sized(geo, d) && |rec| >= INODE_SIZE && |rec2| >= INODE_SIZE && slot < SLOTS
    requires Pointer(rec2, slot) == Pointer(rec, slot)
    ensures Node(geo, d, rec2, slot, idx) == Node(geo, d, rec, slot, idx)
    decreases |idx|
  {
    hide Shape, Sized, Pointer;
    if idx != [] {
      NodeRec(geo, d, rec, rec2, slot, idx[..|idx| - 1]);
    }
  }

  /** A new record for inode `i` leaves every path but those through the changed slot. */
  lemma RecordPutAt(geo: Geo, d: seq<byte>, files: set<nat>, i: nat, s: nat, rec2: seq<byte>, j: nat, p: Path)
    requires FilesOk(geo, d, files) && i in files && j in files && |rec2| == geo.inodeSize
    requires PointersBut(Rec(geo, d, i), rec2, s)
    requires Within(geo, p) && !(j == i && p.slot == s)
    ensures Volume(geo, Put(geo, d, Record(i), rec2)) && SameAt(geo, d, Put(geo, d, Record(i), rec2), j, p)
  {
    var d2 := Put(geo, d, Record(i), rec2);
    assert Volume(geo, d2);
    hide Shape, Layout, Sized, Marked, Reg, Items, Put, Pointer, Node;
    PutReg(geo, d, Record(i), rec2, Record(j));
    forall k | 0 <= k < |p.idx| ensures SameBlock(geo, d, d2, Node(geo, d, Rec(geo, d, j), p.slot, p.idx[..k])) {
      var q := Path(p.slot, p.idx[..k]);
      assert Within(geo, q) && NodeOk(geo, d, j, q);
      RecordPutBlock(geo, d, i, rec2, At(geo, d, j, q));
    }
    NodeSame(geo, d, d2, Rec(geo, d, j), p.slot, p.idx);
    if j == i {
      NodeRec(geo, d2, Rec(geo, d, i), rec2, p.slot, p.idx);
    }
  }

  lemma RecordPutBlock(geo: Geo, d: seq<byte>, i: nat, rec2: seq<byte>, b: nat)
    requires Volume(geo, d) && Inode(geo, i) && |rec2| == geo.inodeSize
    ensures Volume(geo, Put(geo, d, Record(i), rec2))
    ensures b < geo.blockCount && IsData(geo, b) ==> SameBlock(geo, d, Put(geo, d, Record(i), rec2), b)
  {
    if b < geo.blockCount && IsData(geo, b) {
      PutReg(geo, d, Record(i), rec2, Data(b));
    }
  }

  /** A record with the same pointers changes no block map. */
  lemma RecordPutSteady(geo: Geo, d: seq<byte>, files: set<nat>, i: nat, rec2: seq<byte>)
    requires FilesOk(geo, d, files) && i in files && |rec2| == geo.inodeSize && PointersBut(Rec(geo, d, i), rec2, SLOTS)
    ensures Steady(geo, d, Put(geo, d, Record(i), rec2), files)
  {
    var d2 := Put(geo, d, Record(i), rec2);
    assert Volume(geo, d2);
    hide Shape, Layout, Sized, Marked, At, Items, Put, Rec, NodeOk, OneOwner, FreeOk, PointersBut;
    forall j, p | j in files && Within(geo, p) ensures SameAt(geo, d, d2, j, p) {
      RecordPutAt(geo, d, files, i, SLOTS, rec2, j, p);
    }
    forall n: nat | n < Items(geo, Blocks) ensures StillMarked(geo, d, d2, n) {
      PutMarked(geo, d, Record(i), rec2, Blocks, n);
    }
  }

  /** What is needed to enter block `b` into the empty direct slot `s` of inode `i`. */
  ghost predicate Assigns(geo: Geo, d: seq<byte>, files: set<nat>, i: nat, s: nat, b: nat, rec2: seq<byte>) {
    && FilesOk(geo, d, files) && i in files && s < NDIR && |rec2| == geo.inodeSize
    && PointersBut(Rec(geo, d, i), rec2, s)
    && At(geo, d, i, Path(s, [])) == 0 && Pointer(rec2, s) == b && b != 0 && BlockOk(geo, d, b)
    && forall j, p :: j in files && Within(geo, p) ==> At(geo, d, j, p) != b
  }

  /** The block maps after the assignment. */
  lemma AssignAt(geo: Geo, d: seq<byte>, files: set<nat>, i: nat, s: nat, b: nat, rec2: seq<byte>, j: nat, p: Path)
    requires Assigns(geo, d, files, i, s, b, rec2) && j in files && Within(geo, p)
    ensures Volume(geo, Put(geo, d, Record(i), rec2))
    ensures At(geo, Put(geo, d, Record(i), rec2), j, p) == if j == i && p == Path(s, []) then b else At(geo, d, j, p)
  {
    var d2 := Put(geo, d, Record(i), rec2);
    assert Volume(geo, d2);
    hide Shape, Layout, Sized, Marked, Reg, Items, Put, Pointer, NodeOk, OneOwner, FreeOk, BlockOk, IsData;
    if j == i && p.slot == s {
      assert p == Path(s, []);
      PutReg(geo, d, Record(i), rec2, Record(i));
    } else {
      RecordPutAt(geo, d, files, i, s, rec2, j, p);
    }
  }

  lemma AssignOk(geo: Geo, d: seq<byte>, files: set<nat>, i: nat, s: nat, b: nat, rec2: seq<byte>)
    requires Assigns(geo, d, files, i, s, b, rec2)
    ensures FilesOk(geo, Put(geo, d, Record(i), rec2), files)
  {
    var d2 := Put(geo, d, Record(i), rec2);
    assert Volume(geo, d2);
    hide Shape, Layout, Sized, Put, Items, NodeOk, OneOwner, FreeOk, Assigns;
    AssignsFiles(geo, d, files, i, s, b, rec2);
    forall n: nat | n < Items(geo, Blocks) ensures FreeOk(geo, d2, n) {
      AssignFree(geo, d, files, i, s, b, rec2, n);
    }
    forall j, p | j in files && Within(geo, p) ensures NodeOk(geo, d2, j, p) {
      AssignNode(geo, d, files, i, s, b, rec2, j, p);
    }
    forall j, p, k, q | j in files && k in files && Within(geo, p) && Within(geo, q)
      ensures OneOwner(geo, d2, j, p, k, q)
    {
      AssignOwner(geo, d, files, i, s, b, rec2, j, p, k, q);
    }
  }

  lemma AssignsFiles(geo: Geo, d: seq<byte>, files: set<nat>, i: nat, s: nat, b: nat, rec2: seq<byte>)
    requires Assigns(geo, d, files, i, s, b, rec2)
    ensures FilesOk(geo, d, files) && i in files && |rec2| == geo.inodeSize && Volume(geo, Put(geo, d, Record(i), rec2))
  {
  }

  lemma AssignFree(geo: Geo, d: seq<byte>, files: set<nat>, i: nat, s: nat, b: nat, rec2: seq<byte>, n: nat)
    requires Assigns(geo, d, files, i, s, b, rec2) && n < Items(geo, Blocks)
    ensures Volume(geo, Put(geo, d, Record(i), rec2)) && FreeOk(geo, Put(geo, d, Record(i), rec2), n)
  {
    hide Shape, Layout, Sized, Marked, At, Items, Put, IsData, PointersBut;
    assert FreeOk(geo, d, n);
    PutMarked(geo, d, Record(i), rec2, Blocks, n);
  }

  lemma AssignNode(geo: Geo, d: seq<byte>, files: set<nat>, i: nat, s: nat, b: nat, rec2: seq<byte>, j: nat, p: Path)
    requires Assigns(geo, d, files, i, s, b, rec2) && j in files && Within(geo, p)
    ensures Volume(geo, Put(geo, d, Record(i), rec2)) && NodeOk(geo, Put(geo, d, Record(i), rec2), j, p)
  {
    hide Shape, Layout, Sized, Marked, At, Items, Put, IsData, PointersBut, FreeOk, OneOwner;
    AssignAt(geo, d, files, i, s, b, rec2, j, p);
    assert NodeOk(geo, d, j, p);
    var c := At(geo, Put(geo, d, Record(i), rec2), j, p);
    if c >= geo.firstData { PutMarked(geo, d, Record(i), rec2, Blocks, c - geo.firstData); }
  }

  lemma AssignOwner(geo: Geo, d: seq<byte>, files: set<nat>, i: nat, s: nat, b: nat, rec2: seq<byte>, j: nat, p: Path,
                    k: nat, q: Path)
    requires Assigns(geo, d, files, i, s, b, rec2) && j in files && Within(geo, p) && k in files && Within(geo, q)
    ensures Volume(geo, Put(geo, d, Record(i), rec2)) && OneOwner(geo, Put(geo, d, Record(i), rec2), j, p, k, q)
  {
    hide Shape, Layout, Sized, Marked, At, Items, Put, IsData, PointersBut, FreeOk, NodeOk, BlockOk;
    AssignAt(geo, d, files, i, s, b, rec2, j, p);
    AssignAt(geo, d, files, i, s, b, rec2, k, q);
    assert OneOwner(geo, d, j, p, k, q);
  }

  /** Block 0 is never free: it holds the superblock, or lies before the first group. */
  lemma FreeNotZero(geo: Geo, d: seq<byte>, files: set<nat>, b: nat)
    requires FilesOk(geo, d, files) && geo.firstData <= b < geo.blockCount && !Marked(geo, d, Blocks, b - geo.firstData)
    ensures b != 0 && IsData(geo, b)
  {
    hide Marked, NodeOk, OneOwner, Layout, Items;
    BlockItem(geo, b);
    assert FreeOk(geo, d, b - geo.firstData);
    assert Apart(geo, Data(b), Super);
  }

  // ---------------------------------------------------------------- an inode in memory

  function Padded(geo: Geo, inode: seq<byte>): (r: seq<byte>)
    requires |inode| == INODE_SIZE && INODE_SIZE <= geo.inodeSize
    ensures |r| == geo.inodeSize && forall s :: 0 <= s < SLOTS ==> Pointer(r, s) == Pointer(inode, s)
  {
    inode + seq(geo.inodeSize - INODE_SIZE, _ => 0)
  }

  /** The disk as it would be with the inode in memory written back. */
  ghost function Virtual(geo: Geo, d: seq<byte>, i: nat, inode: seq<byte>): (v: seq<byte>)
    requires Volume(geo, d) && Inode(geo, i) && |inode| == INODE_SIZE
    ensures Volume(geo, v)
  {
    Put(geo, d, Record(i), Padded(geo, inode))
  }

  /** The inode in memory has the pointers of the one on disk, and more direct ones. */
  predicate Extends(rec: seq<byte>, inode: seq<byte>) {
    && |rec| >= INODE_SIZE && |inode| >= INODE_SIZE
    && forall s :: 0 <= s < SLOTS ==> Pointer(inode, s) == Pointer(rec, s) || (s < NDIR && Pointer(rec, s) == 0)
  }

  lemma VirtualRec(geo: Geo, d: seq<byte>, i: nat, inode: seq<byte>, j: nat)
    requires Volume(geo, d) && Inode(geo, i) && Inode(geo, j) && |inode| == INODE_SIZE
    ensures Rec(geo, Virtual(geo, d, i, inode), j) == if j == i then Padded(geo, inode) else Rec(geo, d, j)
  {
    PutReg(geo, d, Record(i), Padded(geo, inode), Record(j));
  }

  lemma VirtualBlock(geo: Geo, d: seq<byte>, i: nat, inode: seq<byte>, b: nat)
    requires Volume(geo, d) && Inode(geo, i) && |inode| == INODE_SIZE && IsData(geo, b)
    ensures SameBlock(geo, Virtual(geo, d, i, inode), d, b)
  {
    PutReg(geo, d, Record(i), Padded(geo, inode), Data(b));
  }

  /** Through the inode on disk one sees what one sees through the inode in memory, or nothing. */
  lemma ExtendsAt(geo: Geo, d: seq<byte>, files: set<nat>, i: nat, inode: seq<byte>, j: nat, p: Path)
    requires Volume(geo, d) && Inode(geo, i) && |inode| == INODE_SIZE && FilesOk(geo, Virtual(geo, d, i, inode), files)
    requires Extends(Rec(geo, d, i), inode) && j in files && Within(geo, p)
    ensures At(geo, d, j, p) == At(geo, Virtual(geo, d, i, inode), j, p) ||
            (At(geo, d, j, p) == 0 && j == i && p.slot < NDIR)
  {
    var v := Virtual(geo, d, i, inode);
    VirtualRec(geo, d, i, inode, j);
    hide Shape, Layout, Sized, Reg, Pointer, Padded, Virtual, Node, Marked, OneOwner, FreeOk;
    if j == i && Pointer(Rec(geo, d, i), p.slot) != Pointer(inode, p.slot) {
      assert p.idx == [];
      NodeRoot(geo, d, Rec(geo, d, i), p.slot);
    } else {
      forall k | 0 <= k < |p.idx| ensures SameBlock(geo, v, d, Node(geo, v, Rec(geo, v, j), p.slot, p.idx[..k])) {
        var q := Path(p.slot, p.idx[..k]);
        assert Within(geo, q) && NodeOk(geo, v, j, q);
        if At(geo, v, j, q) != 0 { VirtualBlock(geo, d, i, inode, At(geo, v, j, q)); }
      }
      NodeSame(geo, v, d, Rec(geo, v, j), p.slot, p.idx);
      NodeRec(geo, d, Rec(geo, v, j), Rec(geo, d, j), p.slot, p.idx);
    }
  }

  lemma NodeRoot(geo: Geo, d: seq<byte>, rec: seq<byte>, slot: nat)
    requires Shape(geo) && Sized(geo, d) && |rec| >= INODE_SIZE && slot < SLOTS
    ensures Node(geo, d, rec, slot, []) == Pointer(rec, slot)
  {
  }
}
