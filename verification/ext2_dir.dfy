/**
 Directories on the volume (src/fs/ext2/ext2_dir.c, ext2_inode.c, ext2_file.c): the names in
 the twelve direct blocks of a directory inode form a finite map, which lookup reads and
 which adding, removing and renaming change by one binding, in this directory only.
 */
module Ext2Dir {
  import opened Bits
  import opened Words
  import opened Ext2Layout
  import opened Ext2Space
  import opened Ext2Tree
  import opened Ext2Files
  import opened Ext2Write
  import opened Ext2DirBlock
  import opened Ext2DirScan
  import opened Ext2Names
  import Alloc = Ext2Alloc
  import Io = Ext2Io

  // ---------------------------------------------------------------- the names of a directory

  ghost function SlotBlock(geo: Geo, d: seq<byte>, i: nat, s: nat): nat
    requires Volume(geo, d) && Inode(geo, i) && s < NDIR
  {
    At(geo, d, i, Path(s, []))
  }

  /** The block in slot `s`, if there is one, is tiled by its records. */
  ghost predicate SlotWhole(geo: Geo, d: seq<byte>, i: nat, s: nat)
    requires Volume(geo, d) && Inode(geo, i) && s < NDIR
  {
    var b := SlotBlock(geo, d, i, s);
    b != 0 ==> b < geo.blockCount && Whole(Reg(geo, d, Data(b)))
  }

  ghost function SlotNames(geo: Geo, d: seq<byte>, i: nat, s: nat): seq<Binding>
    requires Volume(geo, d) && Inode(geo, i) && s < NDIR
  {
    var b := SlotBlock(geo, d, i, s);
    if 0 < b < geo.blockCount && Whole(Reg(geo, d, Data(b))) then Names(Reg(geo, d, Data(b))) else []
  }

  /** The names in slots `a` to `c`, in order. */
  ghost function Span(geo: Geo, d: seq<byte>, i: nat, a: nat, c: nat): seq<Binding>
    requires Volume(geo, d) && Inode(geo, i) && c <= NDIR
  {
    if c <= a then [] else Span(geo, d, i, a, c - 1) + SlotNames(geo, d, i, c - 1)
  }

  /** Every block is tiled, and no name occurs twice. */
  ghost predicate DirOk(geo: Geo, d: seq<byte>, i: nat) {
    && Volume(geo, d) && Inode(geo, i)
    && (forall s: nat :: s < NDIR ==> SlotWhole(geo, d, i, s))
    && Unique(Span(geo, d, i, 0, NDIR))
  }

  ghost function DirMap(geo: Geo, d: seq<byte>, i: nat): map<seq<byte>, Target>
    requires Volume(geo, d) && Inode(geo, i)
  {
    MapOf(Span(geo, d, i, 0, NDIR))
  }

  lemma {:induction false} SpanSplit(geo: Geo, d: seq<byte>, i: nat, a: nat, s: nat, c: nat)
    requires Volume(geo, d) && Inode(geo, i) && a <= s <= c <= NDIR
    ensures Span(geo, d, i, a, c) == Span(geo, d, i, a, s) + Span(geo, d, i, s, c)
  {
    hide Volume, SlotNames;
    if s < c {
      SpanSplit(geo, d, i, a, s, c - 1);
    }
  }

  /** The listing around slot `s`. */
  lemma SpanAround(geo: Geo, d: seq<byte>, i: nat, s: nat)
    requires Volume(geo, d) && Inode(geo, i) && s < NDIR
    ensures Span(geo, d, i, 0, NDIR) == Span(geo, d, i, 0, s) + SlotNames(geo, d, i, s) + Span(geo, d, i, s + 1, NDIR)
  {
    hide Volume, SlotNames;
    SpanSplit(geo, d, i, 0, s + 1, NDIR);
  }

  ghost predicate SameSlot(geo: Geo, d: seq<byte>, d2: seq<byte>, i: nat, s: nat)
    requires Volume(geo, d) && Volume(geo, d2) && Inode(geo, i) && s < NDIR
  {
    && SlotBlock(geo, d2, i, s) == SlotBlock(geo, d, i, s)
    && SameBlock(geo, d, d2, SlotBlock(geo, d, i, s))
  }

  lemma SameSlotNames(geo: Geo, d: seq<byte>, d2: seq<byte>, i: nat, s: nat)
    requires Volume(geo, d) && Volume(geo, d2) && Inode(geo, i) && s < NDIR && SameSlot(geo, d, d2, i, s)
    ensures SlotNames(geo, d2, i, s) == SlotNames(geo, d, i, s)
    ensures (SlotWhole(geo, d2, i, s) <==> SlotWhole(geo, d, i, s))
  {
  }

  lemma {:induction false} SpanSame(geo: Geo, d: seq<byte>, d2: seq<byte>, i: nat, a: nat, c: nat)
    requires Volume(geo, d) && Volume(geo, d2) && Inode(geo, i) && c <= NDIR
    requires forall s :: a <= s < c ==> SameSlot(geo, d, d2, i, s)
    ensures Span(geo, d2, i, a, c) == Span(geo, d, i, a, c)
  {
    hide Volume, SlotNames, SameSlot;
    if a < c {
      SpanSame(geo, d, d2, i, a, c - 1);
      SameSlotNames(geo, d, d2, i, c - 1);
    }
  }

  /** A directory none of whose blocks changed is the same map. */
  lemma DirSame(geo: Geo, d: seq<byte>, d2: seq<byte>, i: nat)
    requires Volume(geo, d) && Volume(geo, d2) && Inode(geo, i)
    requires forall s: nat :: s < NDIR ==> SameSlot(geo, d, d2, i, s)
    ensures DirMap(geo, d2, i) == DirMap(geo, d, i) && (DirOk(geo, d2, i) <==> DirOk(geo, d, i))
  {
    hide Volume, SameSlot;
    SpanSame(geo, d, d2, i, 0, NDIR);
    hide SlotWhole, SlotNames;
    forall s: nat | s < NDIR ensures SlotWhole(geo, d2, i, s) <==> SlotWhole(geo, d, i, s) {
      SameSlotNames(geo, d, d2, i, s);
    }
  }

  /** Only slot `s` of directory `i` differs between the disks. */
  ghost predicate SlotChanged(geo: Geo, d: seq<byte>, d2: seq<byte>, i: nat, s: nat) {
    && Volume(geo, d) && Volume(geo, d2) && Inode(geo, i) && s < NDIR
    && forall t: nat :: t < NDIR && t != s ==> SameSlot(geo, d, d2, i, t)
  }

  lemma SpanChanged(geo: Geo, d: seq<byte>, d2: seq<byte>, i: nat, s: nat)
    requires SlotChanged(geo, d, d2, i, s)
    ensures Span(geo, d, i, 0, NDIR) == Span(geo, d, i, 0, s) + SlotNames(geo, d, i, s) + Span(geo, d, i, s + 1, NDIR)
    ensures Span(geo, d2, i, 0, NDIR) == Span(geo, d, i, 0, s) + SlotNames(geo, d2, i, s) + Span(geo, d, i, s + 1, NDIR)
  {
    hide Volume, SlotNames, SameSlot, Span;
    SpanAround(geo, d, i, s);
    SpanAround(geo, d2, i, s);
    SpanSame(geo, d, d2, i, 0, s);
    SpanSame(geo, d, d2, i, s + 1, NDIR);
  }

  lemma WholeKept(geo: Geo, d: seq<byte>, d2: seq<byte>, i: nat, s: nat)
    requires SlotChanged(geo, d, d2, i, s) && (forall t: nat :: t < NDIR ==> SlotWhole(geo, d, i, t))
    requires SlotWhole(geo, d2, i, s)
    ensures forall t: nat :: t < NDIR ==> SlotWhole(geo, d2, i, t)
  {
    hide Volume, SlotWhole, SameSlot;
    forall t: nat | t < NDIR ensures SlotWhole(geo, d2, i, t) {
      if t != s { SameSlotNames(geo, d, d2, i, t); }
    }
  }

  // ---------------------------------------------------------------- one slot changed

  lemma InsertLift(p: seq<Binding>, a: seq<Binding>, c: seq<Binding>, q: seq<Binding>, e: Binding, k: int)
    requires InsertedAt(a, c, e, k)
    ensures InsertedAt(p + a + q, p + c + q, e, |p| + k)
  {
    var all := p + a + q;
    assert all[..|p| + k] == p + a[..k] && all[|p| + k..] == a[k..] + q;
  }

  lemma DeleteLift(p: seq<Binding>, a: seq<Binding>, c: seq<Binding>, q: seq<Binding>, k: int)
    requires DeletedAt(a, c, k)
    ensures DeletedAt(p + a + q, p + c + q, |p| + k) && (p + a + q)[|p| + k] == a[k]
  {
    var all := p + a + q;
    assert all[..|p| + k] == p + a[..k] && all[|p| + k + 1..] == a[k + 1..] + q;
  }

  lemma ExchangeLift(p: seq<Binding>, a: seq<Binding>, c: seq<Binding>, q: seq<Binding>, k: int, e: Binding)
    requires ExchangedAt(a, c, k, e)
    ensures ExchangedAt(p + a + q, p + c + q, |p| + k, e) && (p + a + q)[|p| + k] == a[k]
  {
    var all := p + a + q;
    assert all[..|p| + k] == p + a[..k] && all[|p| + k + 1..] == a[k + 1..] + q;
  }

  /** An entry inserted in slot `s` is one fresh binding. */
  lemma SlotInserted(geo: Geo, d: seq<byte>, d2: seq<byte>, i: nat, s: nat, e: Binding)
    requires DirOk(geo, d, i) && SlotChanged(geo, d, d2, i, s) && SlotWhole(geo, d2, i, s)
    requires Inserted(SlotNames(geo, d, i, s), SlotNames(geo, d2, i, s), e) && e.name !in DirMap(geo, d, i)
    ensures DirOk(geo, d2, i) && DirMap(geo, d2, i) == DirMap(geo, d, i)[e.name := Target(e.ino, e.ftype)]
  {
    hide SlotWhole, SlotNames, Volume;
    SpanChanged(geo, d, d2, i, s);
    WholeKept(geo, d, d2, i, s);
    hide SlotChanged, Span;
    var a, c := SlotNames(geo, d, i, s), SlotNames(geo, d2, i, s);
    var k :| InsertedAt(a, c, e, k);
    InsertLift(Span(geo, d, i, 0, s), a, c, Span(geo, d, i, s + 1, NDIR), e, k);
    MapDomain(Span(geo, d, i, 0, NDIR), e.name);
    MapInserted(Span(geo, d, i, 0, NDIR), Span(geo, d2, i, 0, NDIR), e, |Span(geo, d, i, 0, s)| + k);
  }

  /** An entry deleted in slot `s` is one binding gone. */
  lemma SlotDeleted(geo: Geo, d: seq<byte>, d2: seq<byte>, i: nat, s: nat, k: int)
    requires DirOk(geo, d, i) && SlotChanged(geo, d, d2, i, s) && SlotWhole(geo, d2, i, s)
    requires DeletedAt(SlotNames(geo, d, i, s), SlotNames(geo, d2, i, s), k)
    ensures DirOk(geo, d2, i) && DirMap(geo, d2, i) == DirMap(geo, d, i) - {SlotNames(geo, d, i, s)[k].name}
  {
    hide SlotWhole, SlotNames, Volume;
    SpanChanged(geo, d, d2, i, s);
    WholeKept(geo, d, d2, i, s);
    hide SlotChanged, Span;
    var a, c := SlotNames(geo, d, i, s), SlotNames(geo, d2, i, s);
    DeleteLift(Span(geo, d, i, 0, s), a, c, Span(geo, d, i, s + 1, NDIR), k);
    MapDeleted(Span(geo, d, i, 0, NDIR), Span(geo, d2, i, 0, NDIR), |Span(geo, d, i, 0, s)| + k);
  }

  /** An entry exchanged in slot `s` is one binding under another name. */
  lemma SlotExchanged(geo: Geo, d: seq<byte>, d2: seq<byte>, i: nat, s: nat, k: int, e: Binding)
    requires DirOk(geo, d, i) && SlotChanged(geo, d, d2, i, s) && SlotWhole(geo, d2, i, s)
    requires ExchangedAt(SlotNames(geo, d, i, s), SlotNames(geo, d2, i, s), k, e)
    requires e.name !in DirMap(geo, d, i) || e.name == SlotNames(geo, d, i, s)[k].name
    ensures DirOk(geo, d2, i)
    ensures DirMap(geo, d2, i)
              == (DirMap(geo, d, i) - {SlotNames(geo, d, i, s)[k].name})[e.name := Target(e.ino, e.ftype)]
  {
    hide SlotWhole, SlotNames, Volume;
    SpanChanged(geo, d, d2, i, s);
    WholeKept(geo, d, d2, i, s);
    hide SlotChanged, Span;
    var a, c := SlotNames(geo, d, i, s), SlotNames(geo, d2, i, s);
    ExchangeLift(Span(geo, d, i, 0, s), a, c, Span(geo, d, i, s + 1, NDIR), k, e);
    MapDomain(Span(geo, d, i, 0, NDIR), e.name);
    MapExchanged(Span(geo, d, i, 0, NDIR), Span(geo, d2, i, 0, NDIR), |Span(geo, d, i, 0, s)| + k, e);
  }

  // ---------------------------------------------------------------- a directory block written

  /** The block at `p` of file `j` is the same one and reads the same. */
  ghost predicate KeptAt(geo: Geo, d: seq<byte>, d2: seq<byte>, j: nat, p: Path)
    requires Volume(geo, d) && Volume(geo, d2) && Inode(geo, j) && p.slot < SLOTS
  {
    SameAt(geo, d, d2, j, p) && SameBlock(geo, d, d2, At(geo, d, j, p))
  }

  /** File or directory `j` is untouched, inode record and blocks. */
  ghost predicate Kept(geo: Geo, d: seq<byte>, d2: seq<byte>, j: nat)
    requires Volume(geo, d) && Volume(geo, d2) && Inode(geo, j)
  {
    Rec(geo, d2, j) == Rec(geo, d, j) && forall p :: Within(geo, p) ==> KeptAt(geo, d, d2, j, p)
  }

  /** Untouched: the same directory, the same bytes. */
  lemma KeptMeans(geo: Geo, d: seq<byte>, d2: seq<byte>, j: nat, pos: nat)
    requires Volume(geo, d) && Volume(geo, d2) && Inode(geo, j) && Kept(geo, d, d2, j) && pos < LIMIT32
    ensures DirMap(geo, d2, j) == DirMap(geo, d, j) && (DirOk(geo, d2, j) <==> DirOk(geo, d, j))
    ensures (IsDir(geo, d2, j) <==> IsDir(geo, d, j))
    ensures SameByte(geo, d, d2, j, pos)
  {
    PathAtLegal(geo, pos);
    assert KeptAt(geo, d, d2, j, PathAt(geo, pos));
    hide Layout, Sized, At, PathAt, DirMap, DirOk;
    forall s: nat | s < NDIR ensures SameSlot(geo, d, d2, j, s) {
      DirectPathIs(geo, s);
      assert KeptAt(geo, d, d2, j, Path(s, []));
    }
    DirSame(geo, d, d2, j);
  }

  ghost predicate OthersSame(geo: Geo, d: seq<byte>, d2: seq<byte>, files: set<nat>, i: nat) {
    && Volume(geo, d) && Volume(geo, d2) && (forall j :: j in files ==> Inode(geo, j))
    && forall j :: j in files && j != i ==> Kept(geo, d, d2, j)
  }

  /** What writing `t` to the block in slot `s` of directory `i` comes to. */
  lemma DirBlockPut(geo: Geo, d: seq<byte>, files: set<nat>, i: nat, s: nat, b: nat, t: seq<byte>)
    requires Direct(geo, d, files, i, s, b) && |t| == geo.bs && Whole(t)
    ensures b < geo.blockCount
    ensures var d2 := Put(geo, d, Data(b), t);
            && FilesOk(geo, d2, files) && SlotChanged(geo, d, d2, i, s) && SlotWhole(geo, d2, i, s)
            && SlotNames(geo, d2, i, s) == Names(t)
            && OthersSame(geo, d, d2, files, i)
  {
    hide Layout, Shape, Sized, NodeOk, OneOwner, FreeOk, Marked, NotInner, Reg, Put, Names, Whole, DirOk, DirMap, At;
    DirectBlock(geo, d, files, i, s, b);
    var d2 := Put(geo, d, Data(b), t);
    DataPutSteady(geo, d, files, b, t);
    SteadyOk(geo, d, d2, files);
    assert SameAt(geo, d, d2, i, Path(s, [])) by { DirectPathIs(geo, s); }
    DataPutBlock(geo, d, b, t, b);
    forall r: nat | r < NDIR && r != s ensures SameSlot(geo, d, d2, i, r) {
      DirectPathIs(geo, r);
      PathKept(geo, d, files, i, s, b, t, i, Path(r, []));
    }
    forall j | j in files && j != i ensures Kept(geo, d, d2, j) {
      DataPutRecord(geo, d, b, t, j);
      forall p | Within(geo, p) ensures KeptAt(geo, d, d2, j, p) {
        PathKept(geo, d, files, i, s, b, t, j, p);
      }
    }
  }

  lemma DirectPathIs(geo: Geo, s: nat)
    requires s < NDIR
    ensures Within(geo, Path(s, [])) && Leaf(Path(s, []))
  {
  }

  lemma PathKept(geo: Geo, d: seq<byte>, files: set<nat>, i: nat, s: nat, b: nat, t: seq<byte>, j: nat, p: Path)
    requires Direct(geo, d, files, i, s, b) && |t| == geo.bs && j in files && Within(geo, p)
    requires !(j == i && p == Path(s, []))
    ensures Volume(geo, d) && b < geo.blockCount && Volume(geo, Put(geo, d, Data(b), t)) && Inode(geo, j)
    ensures KeptAt(geo, d, Put(geo, d, Data(b), t), j, p)
  {
    hide Layout, Shape, Sized, FreeOk, Marked, NotInner, Reg, Put, At;
    DirectBlock(geo, d, files, i, s, b);
    DataPutSteady(geo, d, files, b, t);
    DirectPathIs(geo, s);
    var d2 := Put(geo, d, Data(b), t);
    assert SameAt(geo, d, d2, j, p) && NodeOk(geo, d, j, p) && OneOwner(geo, d, i, Path(s, []), j, p);
    DataPutBlock(geo, d, b, t, At(geo, d, j, p));
  }

  // ---------------------------------------------------------------- lookup

  datatype Lookup = Hit(slot: nat, off: nat, ino: nat, ftype: byte) | Miss | Fail

  ghost predicate IsDir(geo: Geo, d: seq<byte>, i: nat) {
    Volume(geo, d) && Inode(geo, i) && IsDirectory(Rec(geo, d, i))
  }

  /** The entry found is the first one in use with the name, in the block of its slot. */
  ghost predicate HitAt(geo: Geo, d: seq<byte>, i: nat, name: seq<byte>, r: Lookup)
    requires Volume(geo, d) && Inode(geo, i)
  {
    r.Hit? && r.slot < NDIR &&
    var b := SlotBlock(geo, d, i, r.slot);
    && 0 < b < geo.blockCount && FirstNamed(Reg(geo, d, Data(b)), r.off, name)
    && r.ino == Ino(Reg(geo, d, Data(b)), r.off) && r.ftype == FType(Reg(geo, d, Data(b)), r.off)
    && (SlotWhole(geo, d, i, r.slot) ==> InPlace(Reg(geo, d, Data(b)), r.off))
  }

  /** Lookup agrees with the map. */
  ghost predicate Agrees(geo: Geo, d: seq<byte>, i: nat, name: seq<byte>, r: Lookup)
    requires Volume(geo, d) && Inode(geo, i)
  {
    match r
    case Hit(_, _, ino, ftype) => name in DirMap(geo, d, i) && DirMap(geo, d, i)[name] == Target(ino, ftype)
    case Miss => name !in DirMap(geo, d, i)
    case Fail => false
  }

  lemma HitAgrees(geo: Geo, d: seq<byte>, i: nat, name: seq<byte>, r: Lookup)
    requires DirOk(geo, d, i) && HitAt(geo, d, i, name, r)
    ensures Agrees(geo, d, i, name, r)
  {
    hide Layout, Shape, Sized, Reg, At, Tiled, Bindings, Unique;
    var b := SlotBlock(geo, d, i, r.slot);
    var blk := Reg(geo, d, Data(b));
    assert SlotWhole(geo, d, i, r.slot);
    UsedAt(blk, r.off);
    SpanAround(geo, d, i, r.slot);
    var k := |Span(geo, d, i, 0, r.slot)| + |Bindings(blk, 0, r.off)|;
    hide Span, Volume;
    MapAt(Span(geo, d, i, 0, NDIR), k);
  }

  /** Where the entry found stands in the list of all names. */
  ghost function HitIndex(geo: Geo, d: seq<byte>, i: nat, r: Lookup): nat
    requires Volume(geo, d) && Inode(geo, i) && r.Hit? && r.slot < NDIR
  {
    |Span(geo, d, i, 0, r.slot)| + SlotIndex(geo, d, i, r)
  }

  ghost function SlotIndex(geo: Geo, d: seq<byte>, i: nat, r: Lookup): nat
    requires Volume(geo, d) && Inode(geo, i) && r.Hit? && r.slot < NDIR
  {
    var b := SlotBlock(geo, d, i, r.slot);
    if b < geo.blockCount && Tiled(Reg(geo, d, Data(b)), 0, r.off)
    then |Bindings(Reg(geo, d, Data(b)), 0, r.off)|
    else 0
  }

  lemma HitPlace(geo: Geo, d: seq<byte>, i: nat, name: seq<byte>, r: Lookup)
    requires DirOk(geo, d, i) && HitAt(geo, d, i, name, r)
    ensures SlotIndex(geo, d, i, r) < |SlotNames(geo, d, i, r.slot)|
    ensures var list := Span(geo, d, i, 0, NDIR);
            HitIndex(geo, d, i, r) < |list| && list[HitIndex(geo, d, i, r)].name == name
  {
    hide Layout, Shape, Sized, Reg, At, Tiled, Bindings, Unique;
    var blk := Reg(geo, d, Data(SlotBlock(geo, d, i, r.slot)));
    assert SlotWhole(geo, d, i, r.slot);
    UsedAt(blk, r.off);
    SpanAround(geo, d, i, r.slot);
    hide Span, Volume;
  }

  /** A name is found in one place only. */
  lemma HitUnique(geo: Geo, d: seq<byte>, i: nat, name: seq<byte>, r: Lookup, q: Lookup)
    requires DirOk(geo, d, i) && HitAt(geo, d, i, name, r) && HitAt(geo, d, i, name, q)
    ensures r == q
  {
    HitPlace(geo, d, i, name, r);
    HitPlace(geo, d, i, name, q);
    assert HitIndex(geo, d, i, r) == HitIndex(geo, d, i, q);
    hide Layout, Shape, Sized, Reg, At, Tiled, Bindings, Unique, SlotIndex, SlotNames;
    if r.slot < q.slot {
      SpanLonger(geo, d, i, r.slot, q.slot);
      assert false;
    } else if q.slot < r.slot {
      SpanLonger(geo, d, i, q.slot, r.slot);
      assert false;
    }
    SameOffset(geo, d, i, name, r, q);
  }

  lemma SpanLonger(geo: Geo, d: seq<byte>, i: nat, s: nat, t: nat)
    requires Volume(geo, d) && Inode(geo, i) && s < t <= NDIR
    ensures |Span(geo, d, i, 0, s)| + |SlotNames(geo, d, i, s)| <= |Span(geo, d, i, 0, t)|
  {
    hide Volume, SlotNames;
    SpanSplit(geo, d, i, 0, s + 1, t);
  }

  lemma SameOffset(geo: Geo, d: seq<byte>, i: nat, name: seq<byte>, r: Lookup, q: Lookup)
    requires Volume(geo, d) && Inode(geo, i) && HitAt(geo, d, i, name, r) && HitAt(geo, d, i, name, q)
    requires r.slot == q.slot && SlotIndex(geo, d, i, r) == SlotIndex(geo, d, i, q)
    ensures r == q
  {
    hide Layout, Shape, Sized, Reg, At, Tiled, Bindings, SlotWhole, Get16, Get32;
    var blk := Reg(geo, d, Data(SlotBlock(geo, d, i, r.slot)));
    if r.off < q.off {
      UsedPlaces(blk, r.off, q.off);
      assert false;
    } else if q.off < r.off {
      UsedPlaces(blk, q.off, r.off);
      assert false;
    }
  }

  /** One slot searched in vain. */
  lemma MissOn(geo: Geo, d: seq<byte>, i: nat, s: nat, name: seq<byte>)
    requires DirOk(geo, d, i) && s < NDIR && Unnamed(Span(geo, d, i, 0, s), name)
    requires Unnamed(SlotNames(geo, d, i, s), name)
    ensures Unnamed(Span(geo, d, i, 0, s + 1), name)
  {
    hide Volume, SlotNames, SlotWhole;
  }

  /** Search the block in slot `s`, if there is one. */
  method FindInSlot(v: Io.Volume, i: nat, inode: seq<byte>, s: nat, name: seq<byte>, ghost files: set<nat>)
    returns (r: Lookup)
    requires v.Ready() && FilesOk(v.geo, v.disk, files) && i in files && Inode(v.geo, i) && s < NDIR
    requires |inode| == INODE_SIZE && inode == Rec(v.geo, v.disk, i)[..INODE_SIZE]
    modifies v.bufBlock
    ensures r.Hit? ==> r.slot == s && HitAt(v.geo, v.disk, i, name, r)
    ensures SlotWhole(v.geo, v.disk, i, s) ==> !r.Fail? && (r.Miss? ==> Unnamed(SlotNames(v.geo, v.disk, i, s), name))
  {
    SlotPointer(v.geo, v.disk, files, i, inode, s);
    hide FilesOk, Layout, At, Tiled, Get16, Get32, Reg, Bindings;
    var b := Pointer(inode, s);
    if b == 0 {
      return Miss;
    }
    Io.ReadBlock(v, b, v.bufBlock);
    var f := FindInBlock(v.bufBlock, name);
    match f
    case Found(o) => return Hit(s, o, Ino(v.bufBlock[..], o), FType(v.bufBlock[..], o));
    case Absent => return Miss;
    case Malformed => return Fail;
  }

  lemma SlotPointer(geo: Geo, d: seq<byte>, files: set<nat>, i: nat, inode: seq<byte>, s: nat)
    requires FilesOk(geo, d, files) && i in files && Inode(geo, i) && s < NDIR && |inode| == INODE_SIZE
    requires inode == Rec(geo, d, i)[..INODE_SIZE]
    ensures Volume(geo, d) && SlotBlock(geo, d, i, s) == Pointer(inode, s)
    ensures (Pointer(inode, s) != 0 ==> Pointer(inode, s) < geo.blockCount)
    ensures Pointer(inode, s) != 0 ==> Direct(geo, d, files, i, s, Pointer(inode, s))
  {
    HeadFields(Rec(geo, d, i), inode);
    DirectPathIs(geo, s);
    assert NodeOk(geo, d, i, Path(s, []));
    NodeRoot(geo, d, Rec(geo, d, i), s);
  }

  /** find_directory_entry. */
  method FindEntry(v: Io.Volume, i: nat, name: seq<byte>, ghost files: set<nat>) returns (r: Lookup)
    requires v.Ready() && Accounts(v.geo, v.disk, v.sup) && FilesOk(v.geo, v.disk, files)
    requires InodeInRange(v.geo, i) && (Inode(v.geo, i) ==> i in files)
    modifies v.bufBlock, v.bufInode, v.bufSector
    ensures !IsDir(v.geo, v.disk, i) ==> r == Fail
    ensures IsDir(v.geo, v.disk, i) && r.Hit? ==> HitAt(v.geo, v.disk, i, name, r)
    ensures IsDir(v.geo, v.disk, i) && DirOk(v.geo, v.disk, i) ==> Agrees(v.geo, v.disk, i, name, r)
  {
    hide Accounts, FilesOk, Layout, Get16, Get32, SlotNames, SlotWhole, HitAt, Shape, Sized, GroupOf, Rec;
    var ok, inode := ReadInode(v, i);
    if ok { HeadFields(Rec(v.geo, v.disk, i), inode); }
    if !ok || !IsDirectory(inode) {
      return Fail;
    }
    Alloc.Ready(v);
    var s := 0;
    while s < NDIR
      invariant s <= NDIR && (DirOk(v.geo, v.disk, i) ==> Unnamed(Span(v.geo, v.disk, i, 0, s), name))
    {
      r := FindInSlot(v, i, inode, s, name, files);
      if !r.Miss? {
        if DirOk(v.geo, v.disk, i) && r.Hit? { HitAgrees(v.geo, v.disk, i, name, r); }
        return;
      }
      if DirOk(v.geo, v.disk, i) { MissOn(v.geo, v.disk, i, s, name); }
      s := s + 1;
    }
    if DirOk(v.geo, v.disk, i) { MapDomain(Span(v.geo, v.disk, i, 0, NDIR), name); }
    return Miss;
  }

  /** find_in_directory: the inode bound to the name. */
  method FindInDirectory(v: Io.Volume, i: nat, name: seq<byte>, ghost files: set<nat>) returns (r: Kerr, ino: nat)
    requires v.Ready() && Accounts(v.geo, v.disk, v.sup) && FilesOk(v.geo, v.disk, files)
    requires InodeInRange(v.geo, i) && (Inode(v.geo, i) ==> i in files)
    modifies v.bufBlock, v.bufInode, v.bufSector
    ensures IsDir(v.geo, v.disk, i) && DirOk(v.geo, v.disk, i) ==>
              && (r == Good <==> name in DirMap(v.geo, v.disk, i))
              && (r == NotFound <==> name !in DirMap(v.geo, v.disk, i))
              && (r == Good ==> ino == DirMap(v.geo, v.disk, i)[name].ino)
    ensures !IsDir(v.geo, v.disk, i) ==> r == IoError
  {
    hide Accounts, FilesOk, Layout, Get16, Get32, SlotNames, SlotWhole, HitAt, Shape, Sized, GroupOf, Rec;
    var ok, inode := ReadInode(v, i);
    if ok { HeadFields(Rec(v.geo, v.disk, i), inode); }
    if !ok || !IsDirectory(inode) {
      return IoError, 0;
    }
    Alloc.Ready(v);
    var s := 0;
    while s < NDIR
      invariant s <= NDIR && (DirOk(v.geo, v.disk, i) ==> Unnamed(Span(v.geo, v.disk, i, 0, s), name))
    {
      var f := FindInSlot(v, i, inode, s, name, files);
      match f {
        case Hit(_, _, n, _) =>
          if DirOk(v.geo, v.disk, i) { HitAgrees(v.geo, v.disk, i, name, f); }
          return Good, n;
        case Fail =>
          return IoError, 0;
        case Miss =>
          if DirOk(v.geo, v.disk, i) { MissOn(v.geo, v.disk, i, s, name); }
      }
      s := s + 1;
    }
    if DirOk(v.geo, v.disk, i) { MapDomain(Span(v.geo, v.disk, i, 0, NDIR), name); }
    return NotFound, 0;
  }

  // ---------------------------------------------------------------- removing and renaming

  /** The volume is in order, and `i` is one of its directories. */
  ghost predicate DirState(geo: Geo, d: seq<byte>, sup: seq<byte>, files: set<nat>, i: nat) {
    && Accounts(geo, d, sup) && FilesOk(geo, d, files) && i in files && Inode(geo, i) && Volume(geo, d)
    && IsDir(geo, d, i) && DirOk(geo, d, i)
  }

  /** Records and accounts do not notice a data block being written. */
  lemma DirPutRest(geo: Geo, d: seq<byte>, sup: seq<byte>, files: set<nat>, i: nat, s: nat, b: nat, t: seq<byte>)
    requires Direct(geo, d, files, i, s, b) && |t| == geo.bs && Accounts(geo, d, sup) && IsDir(geo, d, i)
    ensures b < geo.blockCount && Accounts(geo, Put(geo, d, Data(b), t), sup) && IsDir(geo, Put(geo, d, Data(b), t), i)
  {
    hide Accounts, Layout, Shape, At, FilesOk, Put, Reg;
    DirectBlock(geo, d, files, i, s, b);
    PutAccounts(geo, d, sup, Data(b), t);
    DataPutRecord(geo, d, b, t, i);
  }

  /** The block that holds the entry found. */
  ghost function HitBlock(geo: Geo, d: seq<byte>, i: nat, r: Lookup): seq<byte>
    requires Volume(geo, d) && Inode(geo, i)
  {
    if r.Hit? && r.slot < NDIR && SlotBlock(geo, d, i, r.slot) < geo.blockCount
    then Reg(geo, d, Data(SlotBlock(geo, d, i, r.slot)))
    else []
  }

  /** The disk with `t` in place of that block. */
  ghost function HitPut(geo: Geo, d: seq<byte>, i: nat, r: Lookup, t: seq<byte>): (d2: seq<byte>)
    requires Volume(geo, d) && Inode(geo, i)
    ensures Volume(geo, d2)
  {
    if r.Hit? && r.slot < NDIR && SlotBlock(geo, d, i, r.slot) < geo.blockCount
    then Put(geo, d, Data(SlotBlock(geo, d, i, r.slot)), t)
    else d
  }

  /** What is known of an entry found in a directory in order. */
  lemma HitFacts(geo: Geo, d: seq<byte>, sup: seq<byte>, files: set<nat>, i: nat, name: seq<byte>, r: Lookup)
    requires DirState(geo, d, sup, files, i) && HitAt(geo, d, i, name, r)
    ensures r.Hit? && r.slot < NDIR && 0 < SlotBlock(geo, d, i, r.slot) < geo.blockCount
    ensures Direct(geo, d, files, i, r.slot, SlotBlock(geo, d, i, r.slot))
    ensures var blk := HitBlock(geo, d, i, r);
            && |blk| == geo.bs && InPlace(blk, r.off) && Ino(blk, r.off) == r.ino != 0 && FType(blk, r.off) == r.ftype
            && Name(blk, r.off) == name
            && Whole(blk) && SlotNames(geo, d, i, r.slot) == Names(blk)
  {
    hide Layout, Shape, Sized, Reg, At, Tiled, NodeOk, OneOwner, FreeOk, Unique, Span, Accounts, IsDir;
    assert SlotWhole(geo, d, i, r.slot);
    DirectBlock(geo, d, files, i, r.slot, SlotBlock(geo, d, i, r.slot));
  }

  /** Writing another whole block there: everything but the names of that slot stays. */
  lemma HitPutOk(geo: Geo, d: seq<byte>, sup: seq<byte>, files: set<nat>, i: nat, name: seq<byte>, r: Lookup,
                 t: seq<byte>)
    requires DirState(geo, d, sup, files, i) && HitAt(geo, d, i, name, r) && |t| == geo.bs && Whole(t)
    ensures r.Hit? && r.slot < NDIR
    ensures var d2 := HitPut(geo, d, i, r, t);
            && FilesOk(geo, d2, files) && Accounts(geo, d2, sup) && IsDir(geo, d2, i)
            && OthersSame(geo, d, d2, files, i)
            && SlotChanged(geo, d, d2, i, r.slot) && SlotWhole(geo, d2, i, r.slot)
            && SlotNames(geo, d2, i, r.slot) == Names(t)
  {
    hide Accounts, FilesOk, Layout, Shape, Sized, Tiled, Put, IsDir, DirOk, OthersSame, HitAt, Direct, SlotChanged,
      SlotWhole, SlotNames, SlotBlock;
    HitFacts(geo, d, sup, files, i, name, r);
    var b := SlotBlock(geo, d, i, r.slot);
    DirBlockPut(geo, d, files, i, r.slot, b, t);
    DirPutRest(geo, d, sup, files, i, r.slot, b, t);
  }

  lemma HitRecord(geo: Geo, d: seq<byte>, sup: seq<byte>, files: set<nat>, i: nat, name: seq<byte>, r: Lookup,
                  t: seq<byte>)
    requires DirState(geo, d, sup, files, i) && HitAt(geo, d, i, name, r) && |t| == geo.bs
    ensures Rec(geo, HitPut(geo, d, i, r, t), i) == Rec(geo, d, i) && SameMarks(geo, d, HitPut(geo, d, i, r, t))
    ensures SameRest(geo, d, HitPut(geo, d, i, r, t))
  {
    hide Accounts, FilesOk, Layout, Shape, Sized, Tiled, Put, IsDir, DirOk, HitAt, Direct, SlotWhole, SlotNames,
      SlotBlock, Reg, SameMarks, SameRest;
    HitFacts(geo, d, sup, files, i, name, r);
    var b := SlotBlock(geo, d, i, r.slot);
    DirectBlock(geo, d, files, i, r.slot, b);
    DataPutRecord(geo, d, b, t, i);
    PutSameMarks(geo, d, Data(b), t);
  }

  /** The disk after the entry found is removed. */
  lemma RemoveOk(geo: Geo, d: seq<byte>, sup: seq<byte>, files: set<nat>, i: nat, name: seq<byte>, r: Lookup)
    requires DirState(geo, d, sup, files, i) && HitAt(geo, d, i, name, r)
    ensures r.Hit? && RecordOk(HitBlock(geo, d, i, r), r.off)
    ensures var d2 := HitPut(geo, d, i, r, Removed(HitBlock(geo, d, i, r), r.off));
            DirState(geo, d2, sup, files, i) && DirMap(geo, d2, i) == DirMap(geo, d, i) - {name} &&
            OthersSame(geo, d, d2, files, i)
  {
    hide Accounts, FilesOk, Tiled, Bindings, Removed, IsDir, DirMap, OthersSame, HitAt, HitBlock, HitPut, Direct,
      SlotChanged, SlotWhole, SlotNames, SlotBlock, DirOk, Volume;
    HitFacts(geo, d, sup, files, i, name, r);
    var blk := HitBlock(geo, d, i, r);
    RemovedNames(blk, r.off);
    UsedAt(blk, r.off);
    HitPutOk(geo, d, sup, files, i, name, r, Removed(blk, r.off));
    SlotDeleted(geo, d, HitPut(geo, d, i, r, Removed(blk, r.off)), i, r.slot, |Bindings(blk, 0, r.off)|);
  }

  /** The disk after the entry found is given another name in place. */
  lemma RenameOk(geo: Geo, d: seq<byte>, sup: seq<byte>, files: set<nat>, i: nat, name: seq<byte>, r: Lookup,
                 name2: seq<byte>)
    requires DirState(geo, d, sup, files, i) && HitAt(geo, d, i, name, r) && name2 !in DirMap(geo, d, i)
    requires |name2| < 256
    requires RecordOk(HitBlock(geo, d, i, r), r.off) && HEADER + |name2| <= RecLen(HitBlock(geo, d, i, r), r.off)
    ensures var d2 := HitPut(geo, d, i, r, Renamed(HitBlock(geo, d, i, r), r.off, name2));
            && DirState(geo, d2, sup, files, i) && OthersSame(geo, d, d2, files, i)
            && DirMap(geo, d2, i) == (DirMap(geo, d, i) - {name})[name2 := Target(r.ino, r.ftype)]
  {
    hide Accounts, FilesOk, Tiled, Bindings, Renamed, IsDir, DirMap, OthersSame, HitAt, HitBlock, HitPut, Direct,
      SlotChanged, SlotWhole, SlotNames, SlotBlock, DirOk, Volume;
    HitFacts(geo, d, sup, files, i, name, r);
    var blk := HitBlock(geo, d, i, r);
    RenamedNames(blk, r.off, name2);
    UsedAt(blk, r.off);
    HitPutOk(geo, d, sup, files, i, name, r, Renamed(blk, r.off, name2));
    SlotExchanged(geo, d, HitPut(geo, d, i, r, Renamed(blk, r.off, name2)), i, r.slot, |Bindings(blk, 0, r.off)|,
                  Binding(name2, r.ino, r.ftype));
  }

  /** Find the entry, and have its block in the block buffer. */
  method LoadEntry(v: Io.Volume, i: nat, name: seq<byte>, ghost files: set<nat>) returns (r: Lookup, b: nat)
    requires v.Ready() && DirState(v.geo, v.disk, v.sup, files, i)
    modifies v.bufBlock, v.bufInode, v.bufSector
    ensures !r.Fail? && Agrees(v.geo, v.disk, i, name, r)
    ensures r.Hit? ==>
              HitAt(v.geo, v.disk, i, name, r) && r.slot < NDIR &&
              b == SlotBlock(v.geo, v.disk, i, r.slot) < v.geo.blockCount
    ensures r.Hit? ==> v.bufBlock[..] == HitBlock(v.geo, v.disk, i, r)
  {
    InRange(v.geo, i);
    hide Accounts, FilesOk, Layout, IsDir, DirOk, DirMap, HitAt, GroupOf, At, SlotBlock, Reg, Shape, Sized, Rec;
    b := 0;
    r := FindEntry(v, i, name, files);
    if r.Hit? {
      HitFacts(v.geo, v.disk, v.sup, files, i, name, r);
      var ok, inode := ReadInode(v, i);
      SlotPointer(v.geo, v.disk, files, i, inode, r.slot);
      b := Pointer(inode, r.slot);
      Io.ReadBlock(v, b, v.bufBlock);
    }
  }

  lemma InRange(geo: Geo, i: nat)
    requires Shape(geo) && Inode(geo, i)
    ensures InodeInRange(geo, i)
  {
  }

  lemma NoneChanged(geo: Geo, d: seq<byte>, files: set<nat>, i: nat)
    requires FilesOk(geo, d, files)
    ensures OthersSame(geo, d, d, files, i)
  {
  }

  /** remove_directory_entry. */
  method RemoveEntry(v: Io.Volume, i: nat, name: seq<byte>, ghost files: set<nat>) returns (ok: bool)
    requires v.Ready() && DirState(v.geo, v.disk, v.sup, files, i)
    modifies v`disk, v.bufBlock, v.bufInode, v.bufSector
    ensures v.Ready() && DirState(v.geo, v.disk, v.sup, files, i)
    ensures ok <==> name in DirMap(v.geo, old(v.disk), i)
    ensures DirMap(v.geo, v.disk, i) == DirMap(v.geo, old(v.disk), i) - {name}
    ensures OthersSame(v.geo, old(v.disk), v.disk, files, i) && Rec(v.geo, v.disk, i) == Rec(v.geo, old(v.disk), i)
    ensures SameMarks(v.geo, old(v.disk), v.disk) && SameRest(v.geo, old(v.disk), v.disk)
  {
    hide Accounts, FilesOk, Layout, Tiled, IsDir, DirOk, DirMap, HitAt, SlotBlock, Reg, Shape, OthersSame, Removed, Put,
      Marked, SameRest;
    RestSelf(v.geo, v.disk);
    NoneChanged(v.geo, v.disk, files, i);
    var r, b := LoadEntry(v, i, name, files);
    if !r.Hit? {
      return false;
    }
    RemoveOk(v.geo, v.disk, v.sup, files, i, name, r);
    HitRecord(v.geo, v.disk, v.sup, files, i, name, r, Removed(HitBlock(v.geo, v.disk, i, r), r.off));
    RemoveInBlock(v.bufBlock, r.off);
    Io.WriteBlock(v, b, v.bufBlock);
    return true;
  }

  /** The length of the record of the entry found. */
  ghost function HitLen(geo: Geo, d: seq<byte>, i: nat, r: Lookup): nat
    requires Volume(geo, d) && Inode(geo, i)
  {
    if r.Hit? && RecordOk(HitBlock(geo, d, i, r), r.off) then RecLen(HitBlock(geo, d, i, r), r.off) else 0
  }

  /** update_directory_entry_name: a new name in the same record `r`, if it fits. */
  method RenameEntry(v: Io.Volume, i: nat, name: seq<byte>, name2: seq<byte>, ghost files: set<nat>)
    returns (ok: bool, ghost r: Lookup)
    requires v.Ready() && DirState(v.geo, v.disk, v.sup, files, i) && name2 !in DirMap(v.geo, v.disk, i)
    modifies v`disk, v.bufBlock, v.bufInode, v.bufSector
    ensures v.Ready() && DirState(v.geo, v.disk, v.sup, files, i)
    ensures 0 < |name2| < 255 ==>
              Agrees(v.geo, old(v.disk), i, name, r) && (r.Hit? ==> HitAt(v.geo, old(v.disk), i, name, r))
    ensures ok <==> 0 < |name2| < 255 && r.Hit? && Size(|name2|) <= HitLen(v.geo, old(v.disk), i, r)
    ensures ok ==> name in DirMap(v.geo, old(v.disk), i)
    ensures ok ==>
              DirMap(v.geo, v.disk, i)
                == (DirMap(v.geo, old(v.disk), i) - {name})[name2 := DirMap(v.geo, old(v.disk), i)[name]]
    ensures !ok ==> v.disk == old(v.disk)
    ensures OthersSame(v.geo, old(v.disk), v.disk, files, i) && Rec(v.geo, v.disk, i) == Rec(v.geo, old(v.disk), i)
  {
    hide Accounts, FilesOk, Layout, Tiled, IsDir, DirOk, DirMap, HitAt, SlotBlock, Reg, Shape, OthersSame, Renamed, Put,
      Get16, SameMarks, SameRest;
    NoneChanged(v.geo, v.disk, files, i);
    if |name2| == 0 || |name2| >= 255 {
      return false, Fail;
    }
    var f, b := LoadEntry(v, i, name, files);
    if !f.Hit? {
      return false, f;
    }
    HitFacts(v.geo, v.disk, v.sup, files, i, name, f);
    if Size(|name2|) > RecLen(v.bufBlock[..], f.off) {
      return false, f;
    }
    RenameOk(v.geo, v.disk, v.sup, files, i, name, f, name2);
    HitRecord(v.geo, v.disk, v.sup, files, i, name, f, Renamed(HitBlock(v.geo, v.disk, i, f), f.off, name2));
    RenameInBlock(v.bufBlock, f.off, name2);
    Io.WriteBlock(v, b, v.bufBlock);
    return true, f;
  }
}
