/**
 ext2_rename in full (src/fs/ext2/ext2_file.c, ext2_dir.c): within a directory, of a file to
 another directory, and of a directory to another parent, with its ".." entry and the link
 counts of both parents.
 */
module Ext2Move {
  import opened Bits
  import opened Words
  import opened Ext2Layout
  import opened Ext2Space
  import opened Ext2Tree
  import opened Ext2Files
  import opened Ext2Spend
  import opened Ext2Write
  import opened Ext2DirBlock
  import opened Ext2DirScan
  import opened Ext2Names
  import opened Ext2Dir
  import opened Ext2DirAdd
  import Alloc = Ext2Alloc
  import Io = Ext2Io

  // ---------------------------------------------------------------- link counts

  ghost function Links(geo: Geo, d: seq<byte>, i: nat): nat
    requires Volume(geo, d) && Inode(geo, i)
  {
    Get16(Rec(geo, d, i), LINKS)
  }

  function WithLinks(inode: seq<byte>, n: nat): (r: seq<byte>)
    requires |inode| == INODE_SIZE && n < LIMIT16
    ensures |r| == INODE_SIZE
  {
    Put16(inode, LINKS, n)
  }

  lemma WithLinksIs(inode: seq<byte>, n: nat)
    requires |inode| == INODE_SIZE && n < LIMIT16
    ensures var r := WithLinks(inode, n);
            Get16(r, LINKS) == n && PointersBut(inode, r, SLOTS) && Get16(r, MODE) == Get16(inode, MODE) &&
            Get32(r, SIZE) == Get32(inode, SIZE)
  {
    Put16Get(inode, LINKS, n);
    hide Put16, Get16, Get32;
    Put16Elsewhere(inode, LINKS, n, MODE);
    Put16Elsewhere(inode, LINKS, n, SIZE);
    forall t | 0 <= t < SLOTS ensures Pointer(WithLinks(inode, n), t) == Pointer(inode, t) {
      Put16Elsewhere(inode, LINKS, n, BLOCK + 4 * t);
    }
  }

  lemma HeadLinks(rec: seq<byte>, inode: seq<byte>)
    requires |rec| >= INODE_SIZE && inode == rec[..INODE_SIZE]
    ensures Get16(rec, LINKS) == Get16(inode, LINKS)
  {
  }

  /** What one step leaves of directory `x`: it is in order, and nothing else was touched. */
  ghost predicate Stepped(geo: Geo, d: seq<byte>, d2: seq<byte>, sup2: seq<byte>, files: set<nat>, x: nat) {
    Volume(geo, d) && Inode(geo, x) && DirState(geo, d2, sup2, files, x) && OthersSame(geo, d, d2, files, x)
  }

  /** An inode with the same pointers and mode written back: the same directory. */
  lemma InodePut(geo: Geo, d: seq<byte>, sup: seq<byte>, files: set<nat>, i: nat, inode: seq<byte>, inode2: seq<byte>)
    requires DirState(geo, d, sup, files, i) && |inode| == |inode2| == INODE_SIZE
    requires inode == Rec(geo, d, i)[..INODE_SIZE]
    requires PointersBut(inode, inode2, SLOTS) && Get16(inode2, MODE) == Get16(inode, MODE)
    ensures var d2 := Virtual(geo, d, i, inode2);
            && Stepped(geo, d, d2, sup, files, i) && DirMap(geo, d2, i) == DirMap(geo, d, i)
            && Rec(geo, d2, i)[..INODE_SIZE] == inode2
  {
    hide Accounts, FilesOk, Layout, Shape, Sized, IsDir, DirOk, DirMap, Kept, Virtual, Pointer, Get16;
    var d2 := Virtual(geo, d, i, inode2);
    StartOk(geo, d, sup, files, i, inode);
    InodePutFiles(geo, d, sup, files, i, inode, inode2);
    InodePutKept(geo, d, sup, files, i, inode, inode2);
    StillDir(geo, d, d, i, inode, inode2);
    VirtualRec(geo, d, i, inode2, i);
    assert Padded(geo, inode2)[..INODE_SIZE] == inode2;
    FilesInodes(geo, d, files);
    forall j | j in files && j != i ensures Kept(geo, d, d2, j) {
      VirtualRec(geo, d, i, inode2, j);
      KeptIs(geo, d, d2, files, j);
    }
    forall s: nat | s < NDIR ensures SameSlot(geo, d, d2, i, s) {
      DirectPathIs(geo, s);
      assert KeptAt(geo, d, d2, i, Path(s, []));
    }
    DirSame(geo, d, d2, i);
  }

  lemma KeptIs(geo: Geo, d: seq<byte>, d2: seq<byte>, files: set<nat>, j: nat)
    requires AllKept(geo, d, d2, files) && j in files && Inode(geo, j) && Rec(geo, d2, j) == Rec(geo, d, j)
    ensures Kept(geo, d, d2, j)
  {
  }

  /** Every block of every file is the same one and reads the same. */
  ghost predicate AllKept(geo: Geo, d: seq<byte>, d2: seq<byte>, files: set<nat>) {
    && Volume(geo, d) && Volume(geo, d2) && (forall j :: j in files ==> Inode(geo, j))
    && forall j, p :: j in files && Within(geo, p) ==> KeptAt(geo, d, d2, j, p)
  }

  lemma PaddedPointers(geo: Geo, rec: seq<byte>, inode: seq<byte>, inode2: seq<byte>)
    requires Shape(geo) && |rec| >= INODE_SIZE && |inode| == |inode2| == INODE_SIZE && inode == rec[..INODE_SIZE]
    requires PointersBut(inode, inode2, SLOTS)
    ensures PointersBut(rec, Padded(geo, inode2), SLOTS)
  {
    HeadFields(rec, inode);
    HeadFields(Padded(geo, inode2), inode2);
    hide Pointer, Shape;
  }

  lemma InodePutFiles(geo: Geo, d: seq<byte>, sup: seq<byte>, files: set<nat>, i: nat, inode: seq<byte>,
                      inode2: seq<byte>)
    requires Accounts(geo, d, sup) && FilesOk(geo, d, files) && i in files && Inode(geo, i) && Volume(geo, d)
    requires |inode| == |inode2| == INODE_SIZE && inode == Rec(geo, d, i)[..INODE_SIZE]
    requires PointersBut(inode, inode2, SLOTS)
    ensures FilesOk(geo, Virtual(geo, d, i, inode2), files) && Accounts(geo, Virtual(geo, d, i, inode2), sup)
    ensures PointersBut(Rec(geo, d, i), Padded(geo, inode2), SLOTS)
  {
    hide Accounts, FilesOk, Layout, Shape, Sized, PointersBut;
    PaddedPointers(geo, Rec(geo, d, i), inode, inode2);
    RecordPutSteady(geo, d, files, i, Padded(geo, inode2));
    SteadyOk(geo, d, Virtual(geo, d, i, inode2), files);
    PutAccounts(geo, d, sup, Record(i), Padded(geo, inode2));
  }

  lemma InodePutKept(geo: Geo, d: seq<byte>, sup: seq<byte>, files: set<nat>, i: nat, inode: seq<byte>,
                     inode2: seq<byte>)
    requires Accounts(geo, d, sup) && FilesOk(geo, d, files) && i in files && Inode(geo, i) && Volume(geo, d)
    requires |inode| == |inode2| == INODE_SIZE && inode == Rec(geo, d, i)[..INODE_SIZE]
    requires PointersBut(inode, inode2, SLOTS)
    ensures AllKept(geo, d, Virtual(geo, d, i, inode2), files)
  {
    InodePutFiles(geo, d, sup, files, i, inode, inode2);
    FilesInodes(geo, d, files);
    hide Accounts, FilesOk, Layout, Shape, Sized, Pointer, PointersBut, Put, At;
    forall j, p | j in files && Within(geo, p) ensures KeptAt(geo, d, Virtual(geo, d, i, inode2), j, p) {
      RecordPutAt(geo, d, files, i, SLOTS, Padded(geo, inode2), j, p);
      NodeData(geo, d, files, j, p);
      RecordPutBlock(geo, d, i, Padded(geo, inode2), At(geo, d, j, p));
    }
  }

  lemma NodeData(geo: Geo, d: seq<byte>, files: set<nat>, j: nat, p: Path)
    requires FilesOk(geo, d, files) && j in files && Within(geo, p) && Inode(geo, j)
    ensures NodeOk(geo, d, j, p)
  {
  }

  // ---------------------------------------------------------------- counts that do not change

  /** update_group_and_super_counts with nothing to add writes back what is there. */
  lemma CountsUnchanged(geo: Geo, d: seq<byte>, sup: seq<byte>, g: nat)
    requires Accounts(geo, d, sup) && g < geo.groups
    ensures |sup| == SUPER_SIZE && Alloc.AdjustedSuper(sup, 0, 0) == sup
    ensures Volume(geo, d) && CountPut(geo, d, g, Alloc.AdjustedDesc(DescOf(geo, d, g), 0, 0, 0), sup) == d
  {
    hide Layout, Shape, Sized, GroupOk, Total;
    SuperSame(sup);
    DescSame(DescOf(geo, d, g));
    PutSame(geo, d, Desc(g));
    PutSame(geo, d, Super);
  }

  lemma SuperSame(sup: seq<byte>)
    requires |sup| == SUPER_SIZE
    ensures Alloc.AdjustedSuper(sup, 0, 0) == sup
  {
    hide Put32, Get32;
    Put32Same(sup, 12);
    Put32Same(sup, 16);
  }

  lemma DescSame(desc: seq<byte>)
    requires |desc| == DESC_SIZE
    ensures Alloc.AdjustedDesc(desc, 0, 0, 0) == desc
  {
    hide Put16, Get16;
    Put16Same(desc, 12);
    Put16Same(desc, 14);
    Put16Same(desc, 16);
  }

  // ---------------------------------------------------------------- the parent entry

  ghost function FirstBlock(geo: Geo, d: seq<byte>, i: nat): seq<byte>
    requires Volume(geo, d) && Inode(geo, i)
  {
    if SlotBlock(geo, d, i, 0) < geo.blockCount then Reg(geo, d, Data(SlotBlock(geo, d, i, 0))) else []
  }

  /**
   The directory has a first block, whose second record starts where initialize_directory_block
   put it; if named "..", it is in use.
   */
  ghost predicate Linkable(geo: Geo, d: seq<byte>, i: nat)
    requires Volume(geo, d) && Inode(geo, i)
  {
    SlotBlock(geo, d, i, 0) != 0 ==>
      InPlace(FirstBlock(geo, d, i), SECOND) &&
      (Name(FirstBlock(geo, d, i), SECOND) == DOTDOT ==> Ino(FirstBlock(geo, d, i), SECOND) != 0)
  }

  /** The second record is the parent entry. */
  ghost predicate HasParent(geo: Geo, d: seq<byte>, i: nat)
    requires Volume(geo, d) && Inode(geo, i)
  {
    && SlotBlock(geo, d, i, 0) != 0 && InPlace(FirstBlock(geo, d, i), SECOND) && Ino(FirstBlock(geo, d, i), SECOND) != 0
    && Name(FirstBlock(geo, d, i), SECOND) == DOTDOT
  }

  /** The parent entry bound to `parent`; the type of the entry stays. */
  ghost predicate Relinks(geo: Geo, d: seq<byte>, d2: seq<byte>, i: nat, parent: nat)
    requires Volume(geo, d) && Volume(geo, d2) && Inode(geo, i)
  {
    && DOTDOT in DirMap(geo, d, i)
    && DirMap(geo, d2, i) == DirMap(geo, d, i)[DOTDOT := Target(parent, DirMap(geo, d, i)[DOTDOT].ftype)]
    && Rec(geo, d2, i) == Rec(geo, d, i)
  }

  /** The first block as it is loaded. */
  ghost predicate Loaded(geo: Geo, d: seq<byte>, i: nat, b: nat) {
    && Volume(geo, d) && Inode(geo, i) && b < geo.blockCount && FirstBlock(geo, d, i) == Reg(geo, d, Data(b))
    && |FirstBlock(geo, d, i)| == geo.bs && Whole(FirstBlock(geo, d, i))
    && SlotNames(geo, d, i, 0) == Names(FirstBlock(geo, d, i))
  }

  lemma FirstFacts(geo: Geo, d: seq<byte>, sup: seq<byte>, files: set<nat>, i: nat, b: nat)
    requires DirState(geo, d, sup, files, i) && Direct(geo, d, files, i, 0, b)
    ensures Loaded(geo, d, i, b)
  {
    hide Accounts, FilesOk, Layout, Shape, Sized, IsDir, DirOk, Tiled, Bindings, Reg;
    SlotIsWhole(geo, d, sup, files, i, 0, b);
    SlotIs(geo, d, files, i, 0, b);
  }

  lemma ParentTarget(geo: Geo, d: seq<byte>, i: nat)
    requires DirOk(geo, d, i) && HasParent(geo, d, i) && SlotBlock(geo, d, i, 0) < geo.blockCount
    ensures DOTDOT in DirMap(geo, d, i) && DirMap(geo, d, i)[DOTDOT].ftype == FType(FirstBlock(geo, d, i), SECOND)
  {
    hide Layout, Shape, Sized, Reg, At, Tiled, Bindings, Unique;
    var blk := FirstBlock(geo, d, i);
    assert SlotWhole(geo, d, i, 0);
    UsedAt(blk, SECOND);
    SpanAround(geo, d, i, 0);
    assert Span(geo, d, i, 0, 0) == [];
    hide Span, Volume;
    MapAt(Span(geo, d, i, 0, NDIR), |Bindings(blk, 0, SECOND)|);
  }

  ghost predicate RelinkStep(geo: Geo, d: seq<byte>, d2: seq<byte>, sup2: seq<byte>, files: set<nat>, i: nat,
                             parent: nat) {
    Stepped(geo, d, d2, sup2, files, i) && Volume(geo, d) && Relinks(geo, d, d2, i, parent)
  }

  /** One step at `i` binds `e`, whose name was bound already. */
  ghost predicate Rebinds(geo: Geo, d: seq<byte>, d2: seq<byte>, sup: seq<byte>, files: set<nat>, i: nat, e: Binding) {
    && Stepped(geo, d, d2, sup, files, i) && Volume(geo, d) && Inode(geo, i) && Rec(geo, d2, i) == Rec(geo, d, i)
    && DirMap(geo, d2, i) == DirMap(geo, d, i)[e.name := Target(e.ino, e.ftype)]
  }

  /** Block `t` in place of the first one has `e` in place of entry `k`, which has the same name. */
  ghost predicate Swaps(geo: Geo, d: seq<byte>, i: nat, t: seq<byte>, k: nat, e: Binding) {
    && Volume(geo, d) && Inode(geo, i) && |t| == geo.bs && Whole(t)
    && ExchangedAt(SlotNames(geo, d, i, 0), Names(t), k, e) && e.name == SlotNames(geo, d, i, 0)[k].name
  }

  lemma RebindPut(geo: Geo, d: seq<byte>, sup: seq<byte>, files: set<nat>, i: nat, b: nat, t: seq<byte>, d2: seq<byte>,
                  k: nat, e: Binding)
    requires Volume(geo, d) && b < geo.blockCount && d2 == Put(geo, d, Data(b), t)
    requires DirState(geo, d, sup, files, i) && Direct(geo, d, files, i, 0, b) && Swaps(geo, d, i, t, k, e)
    ensures Rebinds(geo, d, d2, sup, files, i, e)
  {
    hide Accounts, FilesOk, Layout, Shape, IsDir, DirOk, DirMap, Whole, Names, OthersSame, SlotChanged, SlotNames,
      SlotWhole, Put, Reg, Direct, ExchangedAt;
    DirBlockPut(geo, d, files, i, 0, b, t);
    DirPutRest(geo, d, sup, files, i, 0, b, t);
    DirRecord(geo, d, files, i, 0, b, t);
    SlotExchanged(geo, d, d2, i, 0, k, e);
    Rebound(DirMap(geo, d, i), e.name, Target(e.ino, e.ftype));
  }

  lemma RelinkSwaps(geo: Geo, d: seq<byte>, i: nat, b: nat, parent: nat)
    requires Loaded(geo, d, i, b) && HasParent(geo, d, i) && 0 < parent < LIMIT32
    ensures RecordOk(FirstBlock(geo, d, i), SECOND)
    ensures Swaps(geo, d, i, Relinked(FirstBlock(geo, d, i), SECOND, parent),
                  |Bindings(FirstBlock(geo, d, i), 0, SECOND)|,
                  Binding(DOTDOT, parent, FType(FirstBlock(geo, d, i), SECOND)))
  {
    hide Layout, Shape, Sized, Reg, SlotNames, Relinked, FirstBlock, Bindings, Tiled, Whole;
    var blk := FirstBlock(geo, d, i);
    RelinkedNames(blk, SECOND, parent);
    UsedAt(blk, SECOND);
  }

  ghost predicate Relinking(geo: Geo, d: seq<byte>, i: nat, b: nat, parent: nat, d2: seq<byte>)
    requires Loaded(geo, d, i, b) && parent < LIMIT32
  {
    RecordOk(FirstBlock(geo, d, i), SECOND) &&
    d2 == Put(geo, d, Data(b), Relinked(FirstBlock(geo, d, i), SECOND, parent))
  }

  lemma RelinkOk(geo: Geo, d: seq<byte>, sup: seq<byte>, files: set<nat>, i: nat, b: nat, parent: nat, d2: seq<byte>)
    requires Loaded(geo, d, i, b) && HasParent(geo, d, i) && 0 < parent < LIMIT32 && Relinking(geo, d, i, b, parent, d2)
    requires DirState(geo, d, sup, files, i) && Direct(geo, d, files, i, 0, b)
    ensures RelinkStep(geo, d, d2, sup, files, i, parent)
  {
    ParentTarget(geo, d, i);
    hide Accounts, FilesOk, Layout, Shape, Sized, IsDir, DirOk, DirMap, Whole, Names, SlotNames, Put, Reg, Direct,
      Relinked, FirstBlock, ExchangedAt, Bindings, Swaps;
    RelinkSwaps(geo, d, i, b, parent);
    var blk := FirstBlock(geo, d, i);
    RebindPut(geo, d, sup, files, i, b, Relinked(blk, SECOND, parent), d2, |Bindings(blk, 0, SECOND)|,
              Binding(DOTDOT, parent, FType(blk, SECOND)));
  }

  lemma Rebound(m: map<seq<byte>, Target>, n: seq<byte>, t: Target)
    ensures (m - {n})[n := t] == m[n := t]
  {
  }

  /** update_directory_parent_link. */
  method UpdateParentLink(v: Io.Volume, i: nat, parent: nat, ghost files: set<nat>) returns (ok: bool)
    requires v.Ready() && DirState(v.geo, v.disk, v.sup, files, i) && Linkable(v.geo, v.disk, i) && 0 < parent < LIMIT32
    modifies v`disk, v.bufBlock, v.bufInode, v.bufSector
    ensures v.Ready() && (ok <==> HasParent(v.geo, old(v.disk), i))
    ensures ok ==> RelinkStep(v.geo, old(v.disk), v.disk, v.sup, files, i, parent)
    ensures !ok ==> v.disk == old(v.disk)
  {
    hide Accounts, FilesOk, Layout, IsDir, DirOk, DirMap, GroupOf, At, SlotBlock, Reg, Stepped, Relinks, Put, Tiled,
      Get16, Get32, Splice;
    InRange(v.geo, i);
    ghost var d := v.disk;
    var ok1, inode := ReadInode(v, i);
    HeadFields(Rec(v.geo, v.disk, i), inode);
    SlotPointer(v.geo, v.disk, files, i, inode, 0);
    if Pointer(inode, 0) == 0 {
      return false;
    }
    var b := Pointer(inode, 0);
    FirstFacts(v.geo, d, v.sup, files, i, b);
    Io.ReadBlock(v, b, v.bufBlock);
    assert v.bufBlock[..] == FirstBlock(v.geo, d, i);
    if NameLen(v.bufBlock[..], SECOND) != 2 || Name(v.bufBlock[..], SECOND) != DOTDOT {
      return false;
    }
    RelinkSwaps(v.geo, d, i, b, parent);
    Poke(v.bufBlock, SECOND, Bytes32(parent));
    Io.WriteBlock(v, b, v.bufBlock);
    RelinkOk(v.geo, d, v.sup, files, i, b, parent, v.disk);
    return true;
  }

  // ---------------------------------------------------------------- names and links of all directories

  /** Size, sector count, and every other byte of an inode outside its link count and direct pointers. */
  datatype Meta = Meta(size: nat, sectors: nat, rest: seq<byte>)

  function MetaOf(rec: seq<byte>): Meta
    requires |rec| >= INODE_SIZE
  {
    Meta(Get32(rec, SIZE), Get32(rec, SECTORS), rec[..4] + rec[8..26] + rec[32..40] + rec[88..128])
  }

  /** A block more. */
  function Larger(m: Meta, bs: nat): Meta {
    m.(size := (m.size + bs) % LIMIT32, sectors := (m.sectors + bs / 512) % LIMIT32)
  }

  lemma RestSame(a: seq<byte>, b: seq<byte>, s: set<nat>)
    requires AgreeBut(a, b, s) && s <= Extent() + Field(LINKS, 2)
    ensures MetaOf(b).rest == MetaOf(a).rest
  {
    hide Get32;
    forall x | 0 <= x < INODE_SIZE && (x < 4 || 8 <= x < 26 || 32 <= x < 40 || 88 <= x) ensures b[x] == a[x] {
      assert x !in s;
    }
    assert a[..4] == b[..4] && a[8..26] == b[8..26] && a[32..40] == b[32..40] && a[88..128] == b[88..128];
  }

  /** An added entry leaves the link count of the directory alone, and all but its size. */
  lemma GrownMeta(a: seq<byte>, b: seq<byte>, bs: nat, grown: bool)
    requires GrownRec(a, b, bs, grown)
    ensures Get16(b, LINKS) == Get16(a, LINKS)
    ensures MetaOf(b) == if grown then Larger(MetaOf(a), bs) else MetaOf(a)
  {
    hide Get32, Get16;
    var s := if grown then Extent() else {};
    RestSame(a, b, s);
    AgreeGet(a, b, s, LINKS);
  }

  lemma LinksMeta(inode: seq<byte>, n: nat)
    requires |inode| == INODE_SIZE && n < LIMIT16
    ensures MetaOf(WithLinks(inode, n)) == MetaOf(inode)
  {
    hide Get32, Put16;
    AgreePut16(inode, LINKS, n);
    RestSame(inode, WithLinks(inode, n), Field(LINKS, 2));
    Put16Elsewhere(inode, LINKS, n, SIZE);
    Put16Elsewhere(inode, LINKS, n, SECTORS);
  }

  lemma HeadMeta(rec: seq<byte>, inode: seq<byte>)
    requires |rec| >= INODE_SIZE && inode == rec[..INODE_SIZE]
    ensures MetaOf(rec) == MetaOf(inode)
  {
    assert rec[88..128] == inode[88..128];
  }

  datatype Node = Node(names: map<seq<byte>, Target>, links: nat, meta: Meta)

  ghost function NodeOf(geo: Geo, d: seq<byte>, j: nat): Node
    requires Volume(geo, d) && Inode(geo, j)
  {
    Node(DirMap(geo, d, j), Links(geo, d, j), MetaOf(Rec(geo, d, j)))
  }

  /** What every directory binds, its link count, and what else is in its inode. */
  type Book = map<nat, Node>

  ghost function BookOf(geo: Geo, d: seq<byte>, files: set<nat>): Book
    requires Volume(geo, d) && forall j :: j in files ==> Inode(geo, j)
  {
    map j | j in files && IsDir(geo, d, j) :: NodeOf(geo, d, j)
  }

  lemma BookAt(geo: Geo, d: seq<byte>, sup: seq<byte>, files: set<nat>, j: nat)
    requires DirState(geo, d, sup, files, j) && forall i :: i in files ==> Inode(geo, i)
    ensures j in BookOf(geo, d, files) && BookOf(geo, d, files)[j] == NodeOf(geo, d, j)
  {
    hide Accounts, FilesOk, Layout, Shape, Sized, IsDir, DirOk, NodeOf;
  }

  lemma KeptNode(geo: Geo, d: seq<byte>, d2: seq<byte>, j: nat)
    requires Volume(geo, d) && Volume(geo, d2) && Inode(geo, j) && Kept(geo, d, d2, j)
    ensures IsDir(geo, d2, j) <==> IsDir(geo, d, j)
    ensures NodeOf(geo, d2, j) == NodeOf(geo, d, j)
  {
    hide Layout, Shape, Sized, DirMap, MetaOf;
    KeptMeans(geo, d, d2, j, 0);
  }

  /** One step at directory `x` changes its page of the book. */
  lemma BookStep(geo: Geo, d: seq<byte>, d2: seq<byte>, sup2: seq<byte>, files: set<nat>, x: nat, n: Node)
    requires Volume(geo, d) && (forall j :: j in files ==> Inode(geo, j)) && Stepped(geo, d, d2, sup2, files, x)
    requires n == NodeOf(geo, d2, x)
    ensures BookOf(geo, d2, files) == BookOf(geo, d, files)[x := n]
  {
    hide Accounts, FilesOk, Layout, Shape, Sized, DirOk, NodeOf, Kept, IsDir;
    forall j | j in files && j != x
      ensures IsDir(geo, d2, j) <==> IsDir(geo, d, j)
      ensures NodeOf(geo, d2, j) == NodeOf(geo, d, j)
    {
      assert Kept(geo, d, d2, j);
      KeptNode(geo, d, d2, j);
    }
  }

  /** Nothing but the three directories has changed. */
  ghost predicate Elsewhere(geo: Geo, d: seq<byte>, d2: seq<byte>, files: set<nat>, p1: nat, p2: nat, c: nat) {
    && Volume(geo, d) && Volume(geo, d2) && (forall j :: j in files ==> Inode(geo, j))
    && forall j :: j in files && j != p1 && j != p2 && j != c ==> Kept(geo, d, d2, j)
  }

  lemma ElsewhereStep(geo: Geo, d: seq<byte>, d1: seq<byte>, d2: seq<byte>, sup2: seq<byte>, files: set<nat>, p1: nat,
                      p2: nat, c: nat, x: nat)
    requires Elsewhere(geo, d, d1, files, p1, p2, c) && Stepped(geo, d1, d2, sup2, files, x)
    requires x == p1 || x == p2 || x == c
    ensures Elsewhere(geo, d, d2, files, p1, p2, c)
  {
    hide Kept, Volume, DirState;
    forall j | j in files && j != p1 && j != p2 && j != c ensures Kept(geo, d, d2, j) {
      KeptTrans(geo, d, d1, d2, j);
    }
  }

  lemma ElsewhereStart(geo: Geo, d: seq<byte>, files: set<nat>, p1: nat, p2: nat, c: nat)
    requires FilesOk(geo, d, files)
    ensures Elsewhere(geo, d, d, files, p1, p2, c)
  {
    NoneChanged(geo, d, files, p1);
    hide FilesOk, Kept;
    forall j | j in files && j != p1 && j != p2 && j != c ensures Kept(geo, d, d, j) {
    }
  }

  /**
   The directories `p1`, `p2` and `c`, which need not be different, are in order, every directory
   is as the book says, and no other file has changed since `d`.
   */
  ghost predicate Progresses(geo: Geo, d: seq<byte>, d1: seq<byte>, sup1: seq<byte>, files: set<nat>, p1: nat, p2: nat,
                             c: nat, book: Book) {
    && DirState(geo, d1, sup1, files, p1) && DirState(geo, d1, sup1, files, p2) && DirState(geo, d1, sup1, files, c)
    && Elsewhere(geo, d, d1, files, p1, p2, c) && BookOf(geo, d1, files) == book
  }

  lemma StaysDir(geo: Geo, d: seq<byte>, sup: seq<byte>, d2: seq<byte>, sup2: seq<byte>, files: set<nat>, x: nat,
                 i: nat)
    requires Stepped(geo, d, d2, sup2, files, x) && DirState(geo, d, sup, files, i)
    ensures DirState(geo, d2, sup2, files, i)
  {
    hide Accounts, FilesOk, Layout, Shape, Sized, IsDir, DirOk, DirMap;
    if i != x { StillState(geo, d, sup, d2, sup2, files, x, i); }
  }

  lemma Progress1(geo: Geo, d: seq<byte>, d1: seq<byte>, sup1: seq<byte>, d2: seq<byte>, sup2: seq<byte>,
                  files: set<nat>, p1: nat, p2: nat, c: nat, book: Book, x: nat, n: Node)
    requires Progresses(geo, d, d1, sup1, files, p1, p2, c, book) && Stepped(geo, d1, d2, sup2, files, x)
    requires (x == p1 || x == p2 || x == c) && n == NodeOf(geo, d2, x)
    ensures Progresses(geo, d, d2, sup2, files, p1, p2, c, book[x := n])
  {
    hide Kept, DirState, BookOf, NodeOf, OthersSame;
    StaysDir(geo, d1, sup1, d2, sup2, files, x, p1);
    StaysDir(geo, d1, sup1, d2, sup2, files, x, p2);
    StaysDir(geo, d1, sup1, d2, sup2, files, x, c);
    ElsewhereStep(geo, d, d1, d2, sup2, files, p1, p2, c, x);
    BookStep(geo, d1, d2, sup2, files, x, n);
  }

  lemma ProgressStart(geo: Geo, d: seq<byte>, sup: seq<byte>, files: set<nat>, p1: nat, p2: nat, c: nat)
    requires DirState(geo, d, sup, files, p1) && DirState(geo, d, sup, files, p2) && DirState(geo, d, sup, files, c)
    ensures (forall j :: j in files ==> Inode(geo, j))
    ensures Progresses(geo, d, d, sup, files, p1, p2, c, BookOf(geo, d, files))
  {
    FilesInodes(geo, d, files);
    hide Accounts, FilesOk, Layout, Shape, Sized, IsDir, DirOk, BookOf;
    ElsewhereStart(geo, d, files, p1, p2, c);
  }

  // ---------------------------------------------------------------- moving a directory

  lemma InodeFits(geo: Geo, i: nat)
    requires Shape(geo) && Inode(geo, i)
    ensures 0 < i < LIMIT32
  {
  }

  /** The parent entry is where it was, as long as the directory is left alone. */
  lemma ParentKept(geo: Geo, d: seq<byte>, sup: seq<byte>, d2: seq<byte>, sup2: seq<byte>, files: set<nat>, x: nat,
                   c: nat)
    requires DirState(geo, d, sup, files, c) && Stepped(geo, d, d2, sup2, files, x) && x != c
    ensures Linkable(geo, d2, c) <==> Linkable(geo, d, c)
    ensures HasParent(geo, d2, c) <==> HasParent(geo, d, c)
  {
    DirectPathIs(geo, 0);
    assert Kept(geo, d, d2, c);
    assert KeptAt(geo, d, d2, c, Path(0, []));
    hide Accounts, FilesOk, Layout, Shape, Sized, IsDir, DirMap, DirState, Tiled, Kept, At, Get16, Get32;
    assert FirstBlock(geo, d2, c) == FirstBlock(geo, d, c) || SlotBlock(geo, d, c, 0) == 0;
  }

  /** The inode of directory `i` is written back with another link count. */
  method PutLinks(v: Io.Volume, i: nat, inode: seq<byte>, n: nat, ghost files: set<nat>)
    requires v.Ready() && DirState(v.geo, v.disk, v.sup, files, i) && n < LIMIT16
    requires |inode| == INODE_SIZE && inode == Rec(v.geo, v.disk, i)[..INODE_SIZE]
    modifies v`disk, v.bufSector
    ensures v.Ready() && Stepped(v.geo, old(v.disk), v.disk, v.sup, files, i)
    ensures NodeOf(v.geo, v.disk, i) == NodeOf(v.geo, old(v.disk), i).(links := n)
  {
    hide Accounts, FilesOk, Layout, IsDir, DirOk, DirMap, GroupOf, Virtual, Get16, Get32, WithLinks, PointersBut,
      MetaOf;
    InRange(v.geo, i);
    WithLinksIs(inode, n);
    LinksMeta(inode, n);
    HeadMeta(Rec(v.geo, v.disk, i), inode);
    InodePut(v.geo, v.disk, v.sup, files, i, inode, WithLinks(inode, n));
    var _ := WriteInode(v, i, WithLinks(inode, n));
    HeadLinks(Rec(v.geo, v.disk, i), WithLinks(inode, n));
    HeadMeta(Rec(v.geo, v.disk, i), WithLinks(inode, n));
  }

  lemma SteppedRec(geo: Geo, d: seq<byte>, d2: seq<byte>, sup2: seq<byte>, files: set<nat>, x: nat, j: nat)
    requires Stepped(geo, d, d2, sup2, files, x) && j in files && j != x && Inode(geo, j)
    ensures Rec(geo, d2, j) == Rec(geo, d, j)
  {
    assert Kept(geo, d, d2, j);
  }

  /** update_group_and_super_counts for the group of inode `c`, by nothing. */
  method RewriteCounts(v: Io.Volume, c: nat)
    requires v.Ready() && Accounts(v.geo, v.disk, v.sup) && Inode(v.geo, c)
    modifies v`disk, v`sup, v.bufSector
    ensures v.Ready() && v.disk == old(v.disk) && v.sup == old(v.sup)
  {
    hide Layout;
    ItemPlace(v.geo, Inodes, c - 1);
    hide Accounts, Shape, Alloc.AdjustedDesc, Alloc.AdjustedSuper, CountPut, Get16, Get32;
    var g := GroupOf(v.geo, Inodes, c - 1);
    CountsUnchanged(v.geo, v.disk, v.sup, g);
    var _ := Alloc.UpdateCounts(v, g, 0, 0, 0);
  }

  /** An added entry leaves the parent entry where it was; it can become one only if it has that name. */
  lemma ParentStays(geo: Geo, d: seq<byte>, sup: seq<byte>, d2: seq<byte>, sup2: seq<byte>, files: set<nat>, i: nat,
                    e: Binding)
    requires DirState(geo, d, sup, files, i) && Added(geo, d, d2, sup2, files, i, e) && 0 < e.ino
    requires Linkable(geo, d, i) && SlotBlock(geo, d, i, 0) != 0
    ensures Volume(geo, d2) && Linkable(geo, d2, i)
    ensures HasParent(geo, d, i) ==> HasParent(geo, d2, i)
    ensures e.name != DOTDOT ==> (HasParent(geo, d2, i) <==> HasParent(geo, d, i))
  {
    FirstInRange(geo, d, sup, files, i);
    hide Accounts, FilesOk, Layout, Shape, Sized, IsDir, DirOk, DirMap, DirState, Tiled, OthersSame, At, Get16, Get32,
      Reg, SlotBlock;
    var b := SlotBlock(geo, d, i, 0);
    assert Stays(Reg(geo, d, Data(b)), Reg(geo, d2, Data(b)), SECOND, e);
  }

  lemma FirstInRange(geo: Geo, d: seq<byte>, sup: seq<byte>, files: set<nat>, i: nat)
    requires DirState(geo, d, sup, files, i)
    ensures SlotBlock(geo, d, i, 0) < geo.blockCount
  {
    DirectPathIs(geo, 0);
    NodeData(geo, d, files, i, Path(0, []));
  }

  /** The parent entry after the new name is added, in the same directory or another. */
  lemma ParentAfter(geo: Geo, d: seq<byte>, sup: seq<byte>, d2: seq<byte>, sup2: seq<byte>, files: set<nat>, p2: nat,
                    c: nat, e: Binding)
    requires DirState(geo, d, sup, files, c) && Added(geo, d, d2, sup2, files, p2, e) && 0 < e.ino
    requires Linkable(geo, d, c) && (c == p2 ==> SlotBlock(geo, d, c, 0) != 0)
    ensures Volume(geo, d2) && Linkable(geo, d2, c) && (HasParent(geo, d, c) ==> HasParent(geo, d2, c))
    ensures c != p2 || e.name != DOTDOT ==> (HasParent(geo, d2, c) <==> HasParent(geo, d, c))
  {
    hide Accounts, FilesOk, Layout, Shape, IsDir, DirOk, DirMap, Linkable, HasParent, FirstStays, SlotBlock;
    if c == p2 {
      ParentStays(geo, d, sup, d2, sup2, files, c, e);
    } else {
      ParentKept(geo, d, sup, d2, sup2, files, p2, c);
    }
  }

  /** The names and links of `x` after a change. */
  function Named(book: Book, x: nat, names: map<seq<byte>, Target>): Book
    requires x in book
  {
    book[x := book[x].(names := names)]
  }

  function Linked(book: Book, x: nat, n: nat): Book
    requires x in book
  {
    book[x := book[x].(links := n)]
  }

  /** Directory `x` may have got a block more. */
  function Enlarged(book: Book, x: nat, bs: nat, grown: bool): Book
    requires x in book
  {
    if grown then book[x := book[x].(meta := Larger(book[x].meta, bs))] else book
  }

  lemma BookHas(geo: Geo, d: seq<byte>, d1: seq<byte>, sup1: seq<byte>, files: set<nat>, p1: nat, p2: nat, c: nat,
                book: Book)
    requires Progresses(geo, d, d1, sup1, files, p1, p2, c, book)
    ensures p1 in book && book[p1] == NodeOf(geo, d1, p1)
    ensures p2 in book && book[p2] == NodeOf(geo, d1, p2)
    ensures c in book && book[c] == NodeOf(geo, d1, c)
  {
    hide Kept, DirState, NodeOf, BookOf;
    BookAt(geo, d1, sup1, files, p1);
    BookAt(geo, d1, sup1, files, p2);
    BookAt(geo, d1, sup1, files, c);
  }

  /** The new name is added. */
  method AddTo(v: Io.Volume, p1: nat, p2: nat, c: nat, inode: seq<byte>, e: Binding, ghost files: set<nat>,
               ghost book: Book, ghost d0: seq<byte>)
    returns (ok: bool, inode2: seq<byte>)
    requires v.Ready() && Progresses(v.geo, d0, v.disk, v.sup, files, p1, p2, c, book) && 0 < e.ino < LIMIT32
    requires p2 in book && e.name !in book[p2].names
    requires |inode| == INODE_SIZE && inode == Rec(v.geo, v.disk, p2)[..INODE_SIZE]
    modifies v`disk, v`sup, v.bufBlock, v.bufBitmap, v.bufSector
    ensures v.Ready() && |inode2| == INODE_SIZE && (ok <==> CanAdd(v.geo, old(v.disk), p2, |e.name|))
    ensures !ok ==> v.disk == old(v.disk) && v.sup == old(v.sup)
    ensures ok ==> Added(v.geo, old(v.disk), v.disk, v.sup, files, p2, e)
    ensures ok ==> inode2 == Rec(v.geo, v.disk, p2)[..INODE_SIZE] && Get16(inode2, LINKS) == Get16(inode, LINKS)
    ensures ok ==> Progresses(v.geo, d0, v.disk, v.sup, files, p1, p2, c,
                              Named(Enlarged(book, p2, v.geo.bs, !AnyRoom(v.geo, old(v.disk), p2, |e.name|)), p2,
                                    book[p2].names[e.name := Target(e.ino, e.ftype)]))
  {
    hide Accounts, FilesOk, Layout, Shape, IsDir, DirOk, DirMap, Kept, Pointer, CanAdd, AnyRoom, OthersSame, Get16,
      GrownRec, Elsewhere, BookOf, FirstStays, MetaOf, Get32;
    ghost var d, sup := v.disk, v.sup;
    BookHas(v.geo, d0, d, sup, files, p1, p2, c, book);
    HeadLinks(Rec(v.geo, d, p2), inode);
    ok, inode2 := AddEntry(v, p2, inode, e, files);
    if ok {
      GrownMeta(inode, inode2, v.geo.bs, !AnyRoom(v.geo, d, p2, |e.name|));
      HeadLinks(Rec(v.geo, v.disk, p2), inode2);
      HeadMeta(Rec(v.geo, d, p2), inode);
      HeadMeta(Rec(v.geo, v.disk, p2), inode2);
      Progress1(v.geo, d0, d, sup, v.disk, v.sup, files, p1, p2, c, book, p2,
                NodeOf(v.geo, v.disk, p2));
    }
  }

  /** A name is removed. */
  method TakeOff(v: Io.Volume, x: nat, n: seq<byte>, p1: nat, p2: nat, c: nat, ghost files: set<nat>, ghost book: Book,
                 ghost d0: seq<byte>)
    requires v.Ready() && Progresses(v.geo, d0, v.disk, v.sup, files, p1, p2, c, book) && (x == p1 || x == p2)
    modifies v`disk, v.bufBlock, v.bufInode, v.bufSector
    ensures v.Ready() && x in book
    ensures Progresses(v.geo, d0, v.disk, v.sup, files, p1, p2, c, Named(book, x, book[x].names - {n}))
  {
    hide Accounts, FilesOk, Layout, IsDir, DirOk, DirMap, Elsewhere, Kept, OthersSame, BookOf, MetaOf;
    ghost var d1 := v.disk;
    BookHas(v.geo, d0, d1, v.sup, files, p1, p2, c, book);
    var _ := RemoveEntry(v, x, n, files);
    Progress1(v.geo, d0, d1, v.sup, v.disk, v.sup, files, p1, p2, c, book, x,
              NodeOf(v.geo, v.disk, x));
  }

  /** The parent entry of the moving directory is rewritten. */
  method LinkTo(v: Io.Volume, p1: nat, p2: nat, c: nat, ghost files: set<nat>, ghost book: Book, ghost d0: seq<byte>)
    returns (ok: bool)
    requires v.Ready() && Progresses(v.geo, d0, v.disk, v.sup, files, p1, p2, c, book) && Linkable(v.geo, v.disk, c)
    modifies v`disk, v.bufBlock, v.bufInode, v.bufSector
    ensures v.Ready() && (ok <==> HasParent(v.geo, old(v.disk), c)) && c in book
    ensures !ok ==> v.disk == old(v.disk)
    ensures ok ==> Stepped(v.geo, old(v.disk), v.disk, v.sup, files, c)
    ensures ok ==> Rec(v.geo, v.disk, c) == Rec(v.geo, old(v.disk), c) && DOTDOT in book[c].names
    ensures ok ==> Progresses(v.geo, d0, v.disk, v.sup, files, p1, p2, c,
                              Named(book, c, book[c].names[DOTDOT := Target(p2, book[c].names[DOTDOT].ftype)]))
  {
    hide Accounts, FilesOk, Layout, IsDir, DirOk, DirMap, Get16, Elsewhere, Kept, OthersSame, Linkable, HasParent,
      BookOf, MetaOf;
    ghost var d1 := v.disk;
    BookHas(v.geo, d0, d1, v.sup, files, p1, p2, c, book);
    InodeFits(v.geo, p2);
    ok := UpdateParentLink(v, c, p2, files);
    if ok {
      Progress1(v.geo, d0, d1, v.sup, v.disk, v.sup, files, p1, p2, c, book, c,
                NodeOf(v.geo, v.disk, c));
    }
  }

  /** A link count is written back. */
  method CountTo(v: Io.Volume, x: nat, inode: seq<byte>, n: nat, p1: nat, p2: nat, c: nat, ghost files: set<nat>,
                 ghost book: Book, ghost d0: seq<byte>)
    requires v.Ready() && Progresses(v.geo, d0, v.disk, v.sup, files, p1, p2, c, book) && (x == p1 || x == p2)
    requires |inode| == INODE_SIZE && inode == Rec(v.geo, v.disk, x)[..INODE_SIZE] && n < LIMIT16
    modifies v`disk, v.bufSector
    ensures v.Ready() && x in book && Stepped(v.geo, old(v.disk), v.disk, v.sup, files, x)
    ensures Progresses(v.geo, d0, v.disk, v.sup, files, p1, p2, c, Linked(book, x, n))
  {
    hide Accounts, FilesOk, Layout, IsDir, DirOk, NodeOf, Elsewhere, Kept, OthersSame, BookOf;
    ghost var d1 := v.disk;
    BookHas(v.geo, d0, d1, v.sup, files, p1, p2, c, book);
    PutLinks(v, x, inode, n, files);
    Progress1(v.geo, d0, d1, v.sup, v.disk, v.sup, files, p1, p2, c, book, x,
              NodeOf(v.geo, v.disk, x));
  }

  function Fewer(l: nat): nat {
    if l > 0 then l - 1 else 0
  }

  /** What directory `j` binds after `c` has moved from `n1` in `p1` to `n2` in `p2`. */
  function NewNames(book: Book, p1: nat, n1: seq<byte>, p2: nat, n2: seq<byte>, c: nat, j: nat): map<seq<byte>, Target>
    requires p1 in book && n1 in book[p1].names && j in book
  {
    var m := if j == p2 then book[j].names[n2 := book[p1].names[n1]] else book[j].names;
    var up := if j == c && DOTDOT in m then m[DOTDOT := Target(p2, m[DOTDOT].ftype)] else m;
    if j == p1 then up - {n1} else up
  }

  function NewLinks(book: Book, p1: nat, p2: nat, j: nat): nat
    requires j in book
  {
    if j == p1 then Fewer(book[j].links) else if j == p2 then (book[j].links + 1) % LIMIT16 else book[j].links
  }

  /** All that a moved directory changes; the new parent may have got a block more for the name. */
  function Shifted(book: Book, p1: nat, n1: seq<byte>, p2: nat, n2: seq<byte>, c: nat, bs: nat, grown: bool): Book
    requires p1 in book && n1 in book[p1].names
  {
    map j | j in book ::
      Node(NewNames(book, p1, n1, p2, n2, c, j), NewLinks(book, p1, p2, j),
           if j == p2 && grown then Larger(book[j].meta, bs) else book[j].meta)
  }

  /** The counts and the old name, once the new name stands and the parent entry is rewritten. */
  function Finished(book: Book, p1: nat, n1: seq<byte>, p2: nat): Book
    requires p1 in book && p2 in book
  {
    var b1 := Linked(book, p1, Fewer(book[p1].links));
    var b2 := Linked(b1, p2, (b1[p2].links + 1) % LIMIT16);
    Named(b2, p1, b2[p1].names - {n1})
  }

  lemma ShiftedIs(book: Book, p1: nat, n1: seq<byte>, p2: nat, n2: seq<byte>, c: nat, bs: nat, grown: bool)
    requires p1 in book && n1 in book[p1].names && p2 in book && c in book && p1 != p2
    requires (c == p2 && n2 == DOTDOT) || DOTDOT in book[c].names
    ensures var b1 := Named(Enlarged(book, p2, bs, grown), p2, book[p2].names[n2 := book[p1].names[n1]]);
            && DOTDOT in b1[c].names
            && Finished(Named(b1, c, b1[c].names[DOTDOT := Target(p2, b1[c].names[DOTDOT].ftype)]), p1, n1, p2) ==
               Shifted(book, p1, n1, p2, n2, c, bs, grown)
  {
    hide Larger;
  }

  method FinishMove(v: Io.Volume, p1: nat, n1: seq<byte>, p2: nat, c: nat, inode1: seq<byte>, inode2: seq<byte>,
                    ghost files: set<nat>, ghost book: Book, ghost d0: seq<byte>)
    requires v.Ready() && Progresses(v.geo, d0, v.disk, v.sup, files, p1, p2, c, book) && p1 != p2
    requires |inode1| == INODE_SIZE && inode1 == Rec(v.geo, v.disk, p1)[..INODE_SIZE]
    requires |inode2| == INODE_SIZE && inode2 == Rec(v.geo, v.disk, p2)[..INODE_SIZE]
    modifies v`disk, v`sup, v.bufBlock, v.bufSector, v.bufInode
    ensures v.Ready() && p1 in book && p2 in book
    ensures Progresses(v.geo, d0, v.disk, v.sup, files, p1, p2, c, Finished(book, p1, n1, p2))
  {
    hide Accounts, FilesOk, Layout, IsDir, DirOk, DirMap, GroupOf, Get16, Elsewhere, Kept, OthersSame, BookOf, Stepped;
    ghost var d1 := v.disk;
    BookHas(v.geo, d0, d1, v.sup, files, p1, p2, c, book);
    HeadLinks(Rec(v.geo, v.disk, p1), inode1);
    HeadLinks(Rec(v.geo, v.disk, p2), inode2);
    var links1, links2 := Get16(inode1, LINKS), Get16(inode2, LINKS);
    CountTo(v, p1, inode1, if links1 > 0 then links1 - 1 else 0, p1, p2, c, files, book, d0);
    ghost var b1 := Linked(book, p1, Fewer(book[p1].links));
    SteppedRec(v.geo, d1, v.disk, v.sup, files, p1, p2);
    CountTo(v, p2, inode2, (links2 + 1) % LIMIT16, p1, p2, c, files, b1, d0);
    ghost var b2 := Linked(b1, p2, (b1[p2].links + 1) % LIMIT16);
    RewriteCounts(v, c);
    TakeOff(v, p1, n1, p1, p2, c, files, b2, d0);
  }

  /** A name added and removed again. */
  lemma TakenBack(book: Book, x: nat, n: seq<byte>, t: Target, bs: nat, grown: bool)
    requires x in book && n !in book[x].names
    ensures var b1 := Named(Enlarged(book, x, bs, grown), x, book[x].names[n := t]);
            Named(b1, x, b1[x].names - {n}) == Enlarged(book, x, bs, grown)
  {
    hide Larger;
    assert book[x].names[n := t] - {n} == book[x].names;
  }

  /** Reading the two stale inode copies is safe: rewriting the parent entry touches no inode. */
  lemma SameRec(geo: Geo, d: seq<byte>, d2: seq<byte>, sup2: seq<byte>, files: set<nat>, x: nat, j: nat)
    requires Stepped(geo, d, d2, sup2, files, x) && j in files && Inode(geo, j)
    requires Rec(geo, d2, x) == Rec(geo, d, x)
    ensures Rec(geo, d2, j) == Rec(geo, d, j)
  {
    hide Stepped;
    if j != x { SteppedRec(geo, d, d2, sup2, files, x, j); }
  }

  /**
   The child is a directory whose first block has an entry where ".." stands.  The directory may
   be its own new parent, if it has a first block.
   */
  ghost predicate Movable(geo: Geo, d: seq<byte>, sup: seq<byte>, files: set<nat>, p2: nat, c: nat) {
    DirState(geo, d, sup, files, c) && Linkable(geo, d, c) && (c == p2 ==> SlotBlock(geo, d, c, 0) != 0)
  }

  /** The child has its new name, parent and links; all else keeps what it had. */
  ghost predicate Reparented(geo: Geo, d: seq<byte>, d2: seq<byte>, sup2: seq<byte>, files: set<nat>, p1: nat,
                             n1: seq<byte>, p2: nat, n2: seq<byte>, c: nat) {
    && Volume(geo, d) && (forall j :: j in files ==> Inode(geo, j))
    && var book := BookOf(geo, d, files);
    && p1 in book && n1 in book[p1].names && c in book && (DOTDOT in book[c].names || (c == p2 && n2 == DOTDOT))
    && Inode(geo, p2)
    && Progresses(geo, d, d2, sup2, files, p1, p2, c,
                  Shifted(book, p1, n1, p2, n2, c, geo.bs, !AnyRoom(geo, d, p2, |n2|)))
  }

  /** A refused move: all directories have the names and links they had, but the new parent keeps a block it got. */
  ghost predicate Undone(geo: Geo, d: seq<byte>, d2: seq<byte>, sup2: seq<byte>, files: set<nat>, p1: nat, p2: nat,
                         n2: seq<byte>, c: nat) {
    && Volume(geo, d) && (forall j :: j in files ==> Inode(geo, j))
    && p2 in BookOf(geo, d, files) && Inode(geo, p2)
    && Progresses(geo, d, d2, sup2, files, p1, p2, c,
                  Enlarged(BookOf(geo, d, files), p2, geo.bs, !AnyRoom(geo, d, p2, |n2|)))
  }

  /** The branch of ext2_rename for a directory and two parents. */
  method MoveDirectory(v: Io.Volume, p1: nat, n1: seq<byte>, p2: nat, inode1: seq<byte>, inode2: seq<byte>, e: Binding,
                       ghost files: set<nat>)
    returns (r: Kerr)
    requires v.Ready() && p1 != p2
    requires DirState(v.geo, v.disk, v.sup, files, p1) && DirState(v.geo, v.disk, v.sup, files, p2)
    requires Movable(v.geo, v.disk, v.sup, files, p2, e.ino)
    requires |inode1| == INODE_SIZE && inode1 == Rec(v.geo, v.disk, p1)[..INODE_SIZE]
    requires |inode2| == INODE_SIZE && inode2 == Rec(v.geo, v.disk, p2)[..INODE_SIZE]
    requires n1 in DirMap(v.geo, v.disk, p1) && DirMap(v.geo, v.disk, p1)[n1] == Target(e.ino, e.ftype)
    requires e.name !in DirMap(v.geo, v.disk, p2)
    modifies v`disk, v`sup, v.bufBlock, v.bufBitmap, v.bufSector, v.bufInode
    ensures v.Ready() && (r == Good || r == NoSpace || r == IoError)
    ensures r == NoSpace <==> !CanAdd(v.geo, old(v.disk), p2, |e.name|)
    ensures r == NoSpace ==> v.disk == old(v.disk) && v.sup == old(v.sup)
    ensures e.ino != p2 || e.name != DOTDOT ==>
              (r == IoError <==> CanAdd(v.geo, old(v.disk), p2, |e.name|) && !HasParent(v.geo, old(v.disk), e.ino))
    ensures r == IoError ==> Undone(v.geo, old(v.disk), v.disk, v.sup, files, p1, p2, e.name, e.ino)
    ensures r == Good ==> Reparented(v.geo, old(v.disk), v.disk, v.sup, files, p1, n1, p2, e.name, e.ino)
  {
    hide Accounts, FilesOk, Layout, IsDir, DirOk, DirMap, Get16, Elsewhere, Kept, OthersSame, Linkable, HasParent,
      CanAdd, BookOf, Added, Stepped, SlotBlock, AnyRoom, MetaOf, Larger;
    ghost var d0, sup0 := v.disk, v.sup;
    var c := e.ino;
    InodeFits(v.geo, c);
    ProgressStart(v.geo, d0, sup0, files, p1, p2, c);
    ghost var book := BookOf(v.geo, d0, files);
    BookHas(v.geo, d0, d0, sup0, files, p1, p2, c, book);
    var ok, inode3 := AddTo(v, p1, p2, c, inode2, e, files, book, d0);
    if !ok {
      return NoSpace;
    }
    ghost var d1, sup1 := v.disk, v.sup;
    AddedStep(v.geo, d0, d1, sup1, files, p2, e);
    ParentAfter(v.geo, d0, sup0, d1, sup1, files, p2, c, e);
    SteppedRec(v.geo, d0, d1, sup1, files, p2, p1);
    ghost var grown := !AnyRoom(v.geo, d0, p2, |e.name|);
    ghost var b1 := Named(Enlarged(book, p2, v.geo.bs, grown), p2, book[p2].names[e.name := Target(c, e.ftype)]);
    ok := LinkTo(v, p1, p2, c, files, b1, d0);
    if !ok {
      TakenBack(book, p2, e.name, Target(c, e.ftype), v.geo.bs, grown);
      TakeOff(v, p2, e.name, p1, p2, c, files, b1, d0);
      return IoError;
    }
    SameRec(v.geo, d1, v.disk, v.sup, files, c, p1);
    SameRec(v.geo, d1, v.disk, v.sup, files, c, p2);
    FinishMove(v, p1, n1, p2, c, inode1, inode3, files,
               Named(b1, c, b1[c].names[DOTDOT := Target(p2, b1[c].names[DOTDOT].ftype)]), d0);
    ShiftedIs(book, p1, n1, p2, e.name, c, v.geo.bs, grown);
    return Good;
  }

  lemma AddedStep(geo: Geo, d: seq<byte>, d2: seq<byte>, sup2: seq<byte>, files: set<nat>, i: nat, e: Binding)
    requires Added(geo, d, d2, sup2, files, i, e)
    ensures Stepped(geo, d, d2, sup2, files, i)
  {
  }

  // ---------------------------------------------------------------- ext2_rename

  /** A directory is to get another parent. */
  ghost predicate Reparents(geo: Geo, d: seq<byte>, p1: nat, n1: seq<byte>, p2: nat)
    requires Volume(geo, d) && Inode(geo, p1)
  {
    p1 != p2 && n1 in DirMap(geo, d, p1) && DirMap(geo, d, p1)[n1].ftype == FT_DIR
  }

  /** ext2_rename once both parents are found. */
  method Rename(v: Io.Volume, p1: nat, n1: seq<byte>, p2: nat, n2: seq<byte>, ghost files: set<nat>) returns (r: Kerr)
    requires v.Ready() && DirState(v.geo, v.disk, v.sup, files, p1) && DirState(v.geo, v.disk, v.sup, files, p2)
    requires Reparents(v.geo, v.disk, p1, n1, p2) ==>
               Movable(v.geo, v.disk, v.sup, files, p2, DirMap(v.geo, v.disk, p1)[n1].ino)
    modifies v`disk, v`sup, v.bufBlock, v.bufBitmap, v.bufSector, v.bufInode
    ensures v.Ready() && (r == Good || r == NoSpace || r == NotFound || r == Exists || r == IoError)
    ensures r == NotFound <==> n1 !in DirMap(v.geo, old(v.disk), p1)
    ensures r == Exists <==> n1 in DirMap(v.geo, old(v.disk), p1) && n2 in DirMap(v.geo, old(v.disk), p2)
    ensures r == NoSpace <==>
              && n1 in DirMap(v.geo, old(v.disk), p1) && n2 !in DirMap(v.geo, old(v.disk), p2)
              && !(p1 == p2 && FitsRecord(v.geo, old(v.disk), p1, n1, n2)) && !CanAdd(v.geo, old(v.disk), p2, |n2|)
    ensures n2 != DOTDOT ==>
              (r == IoError <==>
              && Reparents(v.geo, old(v.disk), p1, n1, p2) && n2 !in DirMap(v.geo, old(v.disk), p2)
              && CanAdd(v.geo, old(v.disk), p2, |n2|)
              && !HasParent(v.geo, old(v.disk), DirMap(v.geo, old(v.disk), p1)[n1].ino))
    ensures r == Good && !Reparents(v.geo, old(v.disk), p1, n1, p2) ==>
              && Moved(v.geo, old(v.disk), v.disk, v.sup, files, p1, n1, p2, n2)
              && MovedRecs(v.geo, old(v.disk), v.disk, p1, p2,
                           !(p1 == p2 && FitsRecord(v.geo, old(v.disk), p1, n1, n2)) &&
                           !AnyRoom(v.geo, old(v.disk), p2, |n2|))
    ensures r == Good && Reparents(v.geo, old(v.disk), p1, n1, p2) ==>
              Reparented(v.geo, old(v.disk), v.disk, v.sup, files, p1, n1, p2, n2,
                         DirMap(v.geo, old(v.disk), p1)[n1].ino)
    ensures r == IoError ==> Reparents(v.geo, old(v.disk), p1, n1, p2)
    ensures r == IoError ==>
              Undone(v.geo, old(v.disk), v.disk, v.sup, files, p1, p2, n2, DirMap(v.geo, old(v.disk), p1)[n1].ino)
    ensures r == NotFound || r == Exists || r == NoSpace ==> v.disk == old(v.disk) && v.sup == old(v.sup)
  {
    hide Accounts, FilesOk, Layout, Shape, IsDir, DirOk, DirMap, Kept, HitAt, Sized, GroupOf, Rec, Moved, CanAdd,
      FitsRecord, HitLen, Size, Linkable, HasParent, Links, Elsewhere, Reparented, Undone, SlotBlock,
      GrownRec, AnyRoom;
    InRange(v.geo, p1);
    InRange(v.geo, p2);
    var f := FindEntry(v, p1, n1, files);
    if !f.Hit? {
      return NotFound;
    }
    FoundRange(v.geo, v.disk, v.sup, files, p1, n1, f);
    var _, inode1 := ReadInode(v, p1);
    var _, inode2 := ReadInode(v, p2);
    var g := FindEntry(v, p2, n2, files);
    if g.Hit? {
      return Exists;
    }
    if p1 == p2 {
      ghost var d := v.disk;
      var ok, h := RenameEntry(v, p1, n1, n2, files);
      if 0 < |n2| < 255 { FitsRecordIs(v.geo, d, p1, n1, n2, h); } else { IllegalFits(v.geo, d, p1, n1, n2); }
      if ok {
        RenamedMoved(v.geo, d, v.disk, v.sup, files, p1, n1, n2);
        SameGrown(Rec(v.geo, d, p1), v.geo.bs);
        return Good;
      }
    }
    if f.ftype == FT_DIR && p1 != p2 {
      r := MoveDirectory(v, p1, n1, p2, inode1, inode2, Binding(n2, f.ino, f.ftype), files);
    } else {
      r := MoveEntry(v, p1, n1, p2, inode2, Binding(n2, f.ino, f.ftype), files);
    }
  }
}
