/**
 Freeing all blocks of an inode (src/fs/ext2/ext2_alloc.c): every data block and every
 pointer block of its trees exactly once, and no other, with the pointer tables being
 walked kept in buffers that freeing does not touch.
 */
module Ext2Chain {
  import opened Bits
  import opened Words
  import opened Ext2Layout
  import opened Ext2Space
  import opened Ext2Tree
  import opened Ext2Files
  import opened Ext2Write
  import Alloc = Ext2Alloc
  import Io = Ext2Io

  // ---------------------------------------------------------------- what has been freed

  ghost predicate ClearedAt(geo: Geo, d0: seq<byte>, d: seq<byte>, freed: set<nat>, n: nat)
    requires Volume(geo, d0) && Volume(geo, d)
  {
    && (Marked(geo, d, Blocks, n) <==> Marked(geo, d0, Blocks, n) && n !in freed)
  }

  ghost predicate SameInodeMark(geo: Geo, d0: seq<byte>, d: seq<byte>, n: nat)
    requires Volume(geo, d0) && Volume(geo, d)
  {
    Marked(geo, d, Inodes, n) <==> Marked(geo, d0, Inodes, n)
  }

  /** `d` is `d0` with exactly the blocks numbered in `freed` cleared in the bitmap. */
  ghost predicate Cleared(geo: Geo, d0: seq<byte>, d: seq<byte>, freed: set<nat>) {
    && SameContents(geo, d0, d) && SameRest(geo, d0, d)
    && (forall n: nat :: n < Items(geo, Blocks) ==> ClearedAt(geo, d0, d, freed, n))
    && (forall n: nat :: n < Items(geo, Inodes) ==> SameInodeMark(geo, d0, d, n))
    && (forall n :: n in freed ==> n < Items(geo, Blocks) && Marked(geo, d0, Blocks, n))
  }

  lemma ClearedNone(geo: Geo, d: seq<byte>)
    requires Volume(geo, d)
    ensures Cleared(geo, d, d, {})
  {
    RestSelf(geo, d);
    hide SameRest;
    forall r | Sound(geo, r) && (r.Record? || r.Data?) ensures SameReg(geo, d, d, r) {
    }
  }

  /** Freeing one more. */
  lemma ClearedMore(geo: Geo, d0: seq<byte>, d: seq<byte>, d2: seq<byte>, freed: set<nat>, n: nat)
    requires Cleared(geo, d0, d, freed) && Turned(geo, d, d2, Blocks, n, false) && n < Items(geo, Blocks)
    requires Marked(geo, d0, Blocks, n)
    ensures Cleared(geo, d0, d2, freed + {n})
  {
    hide Shape, Layout, Sized, Marked, Reg, Items, IsData, SameRest;
    RestMore(geo, d0, d, d2);
    forall r | Sound(geo, r) && (r.Record? || r.Data?) ensures SameReg(geo, d0, d2, r) {
      assert SameReg(geo, d0, d, r) && SameReg(geo, d, d2, r);
    }
    forall m: nat | m < Items(geo, Blocks) ensures ClearedAt(geo, d0, d2, freed + {n}, m) {
      assert ClearedAt(geo, d0, d, freed, m) && MarkedLike(geo, d, d2, Blocks, n, false, Blocks, m);
    }
    forall m: nat | m < Items(geo, Inodes) ensures SameInodeMark(geo, d0, d2, m) {
      assert SameInodeMark(geo, d0, d, m) && MarkedLike(geo, d, d2, Blocks, n, false, Inodes, m);
    }
  }

  /** The total of free blocks rises by the number of blocks freed. */
  lemma ClearedTotal(geo: Geo, d0: seq<byte>, d: seq<byte>, freed: set<nat>)
    requires Cleared(geo, d0, d, freed)
    ensures Volume(geo, d0) && Volume(geo, d)
    ensures Total(geo, d, Blocks, geo.groups) == Total(geo, d0, Blocks, geo.groups) + |freed|
  {
    TotalIsFree(geo, d0, Blocks, geo.groups);
    TotalIsFree(geo, d, Blocks, geo.groups);
    AllGroups(geo, Blocks);
    hide Shape, Layout, Sized, Marked, Total, UpTo, Items;
    var m := Items(geo, Blocks);
    var a, b := FreeItems(geo, d0, Blocks, m), FreeItems(geo, d, Blocks, m);
    forall n: nat ensures n in b <==> n in a || n in freed {
      if n < m { assert ClearedAt(geo, d0, d, freed, n); }
    }
    assert b == a + freed && a !! freed;
  }

  lemma AllGroups(geo: Geo, kind: Kind)
    requires Shape(geo)
    ensures UpTo(geo, kind, geo.groups) == Items(geo, kind)
  {
    assert Grouped(geo, kind);
  }

  // ---------------------------------------------------------------- parts of the trees

  predicate Under(p: Path, q: Path) {
    q.slot == p.slot && p.idx <= q.idx
  }

  function Child(p: Path, j: nat): Path {
    Path(p.slot, p.idx + [j])
  }

  /** Block item `n` is at `p` or below it in the tree of inode `i`. */
  ghost predicate InTree(geo: Geo, d: seq<byte>, i: nat, p: Path, n: nat)
    requires Volume(geo, d) && Inode(geo, i)
  {
    exists q :: Within(geo, q) && Under(p, q) && At(geo, d, i, q) == geo.firstData + n && At(geo, d, i, q) != 0
  }

  /** Block item `n` is below one of the first `j` children of `p`. */
  ghost predicate InForest(geo: Geo, d: seq<byte>, i: nat, p: Path, j: nat, n: nat)
    requires Volume(geo, d) && Inode(geo, i)
  {
    exists q :: Within(geo, q) && Below(p, j, q) && At(geo, d, i, q) == geo.firstData + n && At(geo, d, i, q) != 0
  }

  predicate Below(p: Path, j: nat, q: Path) {
    Under(p, q) && |q.idx| > |p.idx| && q.idx[|p.idx|] < j
  }

  lemma BelowNext(p: Path, j: nat, q: Path)
    ensures Below(p, j + 1, q) <==> Below(p, j, q) || Under(Child(p, j), q)
  {
    if Under(p, q) && |q.idx| > |p.idx| && q.idx[|p.idx|] == j {
      assert q.idx[..|p.idx| + 1] == p.idx + [j];
    }
    if Under(Child(p, j), q) {
      assert q.idx[..|p.idx| + 1] == p.idx + [j];
      assert q.idx[..|p.idx|] == p.idx;
    }
  }

  lemma ForestNext(geo: Geo, d: seq<byte>, i: nat, p: Path, j: nat, n: nat)
    requires Volume(geo, d) && Inode(geo, i)
    ensures InForest(geo, d, i, p, j + 1, n) <==> InForest(geo, d, i, p, j, n) || InTree(geo, d, i, Child(p, j), n)
  {
    hide Volume, At;
    if InForest(geo, d, i, p, j + 1, n) {
      var q :| Within(geo, q) && Below(p, j + 1, q) && At(geo, d, i, q) == geo.firstData + n && At(geo, d, i, q) != 0;
      BelowNext(p, j, q);
    }
    if InForest(geo, d, i, p, j, n) {
      var q :| Within(geo, q) && Below(p, j, q) && At(geo, d, i, q) == geo.firstData + n && At(geo, d, i, q) != 0;
      BelowNext(p, j, q);
    }
    if InTree(geo, d, i, Child(p, j), n) {
      var q :| Within(geo, q) && Under(Child(p, j), q) && At(geo, d, i, q) == geo.firstData + n &&
               At(geo, d, i, q) != 0;
      BelowNext(p, j, q);
    }
  }

  /** Below an absent block there is nothing. */
  lemma {:induction false} NothingBelow(geo: Geo, d: seq<byte>, rec: seq<byte>, slot: nat, idx: seq<nat>,
                                        idx2: seq<nat>)
    requires Shape(geo) && Sized(geo, d) && |rec| >= INODE_SIZE && slot < SLOTS && idx <= idx2
    requires Node(geo, d, rec, slot, idx) == 0
    ensures Node(geo, d, rec, slot, idx2) == 0
    decreases |idx2|
  {
    if idx != idx2 {
      NothingBelow(geo, d, rec, slot, idx, idx2[..|idx2| - 1]);
    }
  }

  lemma EmptyTree(geo: Geo, d: seq<byte>, i: nat, p: Path, n: nat)
    requires Volume(geo, d) && Inode(geo, i) && Within(geo, p) && At(geo, d, i, p) == 0
    ensures !InTree(geo, d, i, p, n)
  {
    forall q | Within(geo, q) && Under(p, q) ensures At(geo, d, i, q) == 0 {
      NothingBelow(geo, d, Rec(geo, d, i), p.slot, p.idx, q.idx);
    }
  }

  /** A tree is its root and the forest of its root's children. */
  lemma TreeSplit(geo: Geo, d: seq<byte>, i: nat, p: Path, n: nat)
    requires Volume(geo, d) && Inode(geo, i) && Within(geo, p)
    ensures InTree(geo, d, i, p, n) <==>
            InForest(geo, d, i, p, geo.PointersPerBlock(), n) ||
            (At(geo, d, i, p) == geo.firstData + n && At(geo, d, i, p) != 0)
    ensures Leaf(p) ==> !InForest(geo, d, i, p, geo.PointersPerBlock(), n)
  {
    hide Volume, At;
    if InTree(geo, d, i, p, n) {
      var q :| Within(geo, q) && Under(p, q) && At(geo, d, i, q) == geo.firstData + n && At(geo, d, i, q) != 0;
      if |q.idx| == |p.idx| {
        assert q == p;
      } else {
        assert Below(p, geo.PointersPerBlock(), q);
      }
    }
  }

  /** Nothing at or below `p` has been freed. */
  ghost predicate Untouched(geo: Geo, d: seq<byte>, i: nat, p: Path, freed: set<nat>)
    requires Volume(geo, d) && Inode(geo, i)
  {
    forall n :: n in freed ==> !InTree(geo, d, i, p, n)
  }

  /** Freed are those of `before`, and the first `j` subtrees of `p`. */
  ghost predicate FreedForest(geo: Geo, d: seq<byte>, i: nat, p: Path, j: nat, before: set<nat>, freed: set<nat>)
    requires Volume(geo, d) && Inode(geo, i)
  {
    forall n: nat :: n in freed <==> n in before || InForest(geo, d, i, p, j, n)
  }

  ghost predicate FreedTree(geo: Geo, d: seq<byte>, i: nat, p: Path, before: set<nat>, freed: set<nat>)
    requires Volume(geo, d) && Inode(geo, i)
  {
    forall n: nat :: n in freed <==> n in before || InTree(geo, d, i, p, n)
  }

  lemma SameOwner(geo: Geo, d: seq<byte>, files: set<nat>, i: nat, p: Path, q: Path)
    requires FilesOk(geo, d, files) && i in files && Inode(geo, i) && Within(geo, p) && Within(geo, q)
    requires At(geo, d, i, p) == At(geo, d, i, q) != 0
    ensures p == q
  {
    assert OneOwner(geo, d, i, p, i, q);
  }

  /** The next subtree is still whole. */
  lemma NextUntouched(geo: Geo, d: seq<byte>, files: set<nat>, i: nat, p: Path, j: nat, before: set<nat>,
                      freed: set<nat>)
    requires FilesOk(geo, d, files) && i in files && Inode(geo, i)
    requires Untouched(geo, d, i, p, before) && FreedForest(geo, d, i, p, j, before, freed)
    ensures Untouched(geo, d, i, Child(p, j), freed)
  {
    hide Volume, At, NodeOk, FreeOk;
    forall n | n in freed ensures !InTree(geo, d, i, Child(p, j), n) {
      if InTree(geo, d, i, Child(p, j), n) {
        var q :| Within(geo, q) && Under(Child(p, j), q) && At(geo, d, i, q) == geo.firstData + n &&
                 At(geo, d, i, q) != 0;
        ChildUnder(p, j, q);
        if n !in before {
          var q' :| Within(geo, q') && Below(p, j, q') && At(geo, d, i, q') == geo.firstData + n &&
                    At(geo, d, i, q') != 0;
          SameOwner(geo, d, files, i, q, q');
        }
        assert false;
      }
    }
  }

  lemma ChildUnder(p: Path, j: nat, q: Path)
    requires Under(Child(p, j), q)
    ensures Under(p, q) && |q.idx| > |p.idx| && q.idx[|p.idx|] == j
  {
    assert q.idx[..|p.idx| + 1] == p.idx + [j];
    assert q.idx[..|p.idx|] == p.idx;
  }

  lemma FreedNext(geo: Geo, d: seq<byte>, i: nat, p: Path, j: nat, before: set<nat>, freed: set<nat>, freed2: set<nat>)
    requires Volume(geo, d) && Inode(geo, i) && FreedForest(geo, d, i, p, j, before, freed)
    requires FreedTree(geo, d, i, Child(p, j), freed, freed2)
    ensures FreedForest(geo, d, i, p, j + 1, before, freed2)
  {
    hide Volume, At, InForest, InTree;
    forall n: nat ensures n in freed2 <==> n in before || InForest(geo, d, i, p, j + 1, n) {
      ForestNext(geo, d, i, p, j, n);
    }
  }

  lemma FreedSkip(geo: Geo, d: seq<byte>, i: nat, p: Path, j: nat, before: set<nat>, freed: set<nat>)
    requires Volume(geo, d) && Inode(geo, i) && Within(geo, Child(p, j)) && At(geo, d, i, Child(p, j)) == 0
    requires FreedForest(geo, d, i, p, j, before, freed)
    ensures FreedForest(geo, d, i, p, j + 1, before, freed)
  {
    hide Volume, At, InForest, InTree;
    forall n: nat ensures n in freed <==> n in before || InForest(geo, d, i, p, j + 1, n) {
      ForestNext(geo, d, i, p, j, n);
      EmptyTree(geo, d, i, Child(p, j), n);
    }
  }

  /** The root itself is freed last: it is marked, and not freed before. */
  lemma RootFree(geo: Geo, d: seq<byte>, files: set<nat>, i: nat, p: Path, before: set<nat>, freed: set<nat>)
    requires FilesOk(geo, d, files) && i in files && Inode(geo, i) && Within(geo, p) && At(geo, d, i, p) != 0
    requires Untouched(geo, d, i, p, before) && FreedForest(geo, d, i, p, geo.PointersPerBlock(), before, freed)
    ensures var b := At(geo, d, i, p);
            && BlockOk(geo, d, b) && b - geo.firstData < Items(geo, Blocks) && b - geo.firstData !in freed
            && FreedTree(geo, d, i, p, before, freed + {b - geo.firstData})
  {
    hide Volume, At, FreeOk, Marked, IsData, Items, PathOf;
    var b := At(geo, d, i, p);
    assert NodeOk(geo, d, i, p);
    BlockItem(geo, b);
    var n0 := b - geo.firstData;
    TreeSplit(geo, d, i, p, n0);
    if InForest(geo, d, i, p, geo.PointersPerBlock(), n0) {
      var q :| Within(geo, q) && Below(p, geo.PointersPerBlock(), q) && At(geo, d, i, q) == geo.firstData + n0 &&
               At(geo, d, i, q) != 0;
      SameOwner(geo, d, files, i, p, q);
      assert false;
    }
    forall n: nat ensures n in freed + {n0} <==> n in before || InTree(geo, d, i, p, n) {
      TreeSplit(geo, d, i, p, n);
    }
  }

  // ---------------------------------------------------------------- the walk

  /** The table buffers that walking a tree of this depth uses. */
  ghost function Tables(v: Io.Volume, level: nat): set<array<byte>> {
    if level == 0 then {} else if level == 1 then {v.bufBlock} else if level == 2 then {v.bufBlock, v.bufBlock3}
    else {v.bufBlock, v.bufBlock3, v.bufBlock4}
  }

  /** The files are in order on `d0`, and inode `i` is one of them. */
  ghost predicate Owner(geo: Geo, d0: seq<byte>, files: set<nat>, i: nat) {
    FilesOk(geo, d0, files) && i in files && Inode(geo, i) && Volume(geo, d0)
  }

  /** The volume holds `d0` with `freed` cleared. */
  ghost predicate SoFar(v: Io.Volume, d0: seq<byte>, freed: set<nat>)
    reads v
  {
    v.Ready() && Accounts(v.geo, v.disk, v.sup) && Cleared(v.geo, d0, v.disk, freed)
  }

  lemma RootStep(geo: Geo, d0: seq<byte>, d: seq<byte>, files: set<nat>, i: nat, p: Path, before: set<nat>,
                 freed: set<nat>)
    requires Owner(geo, d0, files, i) && Within(geo, p) && At(geo, d0, i, p) != 0 && Cleared(geo, d0, d, freed)
    requires Untouched(geo, d0, i, p, before) && FreedForest(geo, d0, i, p, geo.PointersPerBlock(), before, freed)
    ensures Volume(geo, d) && geo.firstData <= At(geo, d0, i, p) < geo.blockCount
    ensures var n := At(geo, d0, i, p) - geo.firstData;
            && n < Items(geo, Blocks) && Marked(geo, d0, Blocks, n) && Marked(geo, d, Blocks, n)
            && FreedTree(geo, d0, i, p, before, freed + {n})
  {
    hide FilesOk, Layout, Shape, FreedTree, FreedForest, Untouched, At, Marked, IsData, Items, Sized;
    RootFree(geo, d0, files, i, p, before, freed);
    assert ClearedAt(geo, d0, d, freed, At(geo, d0, i, p) - geo.firstData);
  }

  /** Give back block `b`, which is at `p` and whose subtrees are gone. */
  method FreeRoot(v: Io.Volume, b: nat, ghost files: set<nat>, ghost i: nat, ghost p: Path, ghost d0: seq<byte>,
                  ghost before: set<nat>, ghost freed: set<nat>)
    returns (ghost freed2: set<nat>)
    requires Owner(v.geo, d0, files, i) && SoFar(v, d0, freed) && Within(v.geo, p) && b == At(v.geo, d0, i, p) != 0
    requires Untouched(v.geo, d0, i, p, before) && FreedForest(v.geo, d0, i, p, v.geo.PointersPerBlock(), before, freed)
    modifies v`disk, v`sup, v.bufBitmap, v.bufSector
    ensures SoFar(v, d0, freed2) && FreedTree(v.geo, d0, i, p, before, freed2)
  {
    hide Owner, Accounts, Layout, Shape, Turned, FreedTree, FreedForest, Untouched, Marked, At, Cleared, Items, Within,
      Io.Volume.Ready;
    ghost var d := v.disk;
    RootStep(v.geo, d0, d, files, i, p, before, freed);
    ghost var n := b - v.geo.firstData;
    freed2 := freed + {n};
    TakenPlace(v.geo, d, n);
    var _ := Alloc.FreeBlock(v, b);
    ClearedMore(v.geo, d0, d, v.disk, freed, n);
  }

  lemma TakenPlace(geo: Geo, d: seq<byte>, n: nat)
    requires Volume(geo, d) && n < Items(geo, Blocks) && Marked(geo, d, Blocks, n)
    ensures 0 < geo.blocksPerGroup && GroupOf(geo, Blocks, n) < geo.groups && Alloc.Taken(geo, d, Blocks, n)
  {
  }

  /** The contents of a pointer block while the bitmap changes. */
  lemma TableEntry(geo: Geo, d0: seq<byte>, files: set<nat>, i: nat, p: Path, table: seq<byte>, j: nat)
    requires FilesOk(geo, d0, files) && i in files && Inode(geo, i)
    requires Within(geo, p) && !Leaf(p) && At(geo, d0, i, p) != 0 && j < geo.PointersPerBlock()
    requires At(geo, d0, i, p) < geo.blockCount && |table| == geo.bs && table == Reg(geo, d0, Data(At(geo, d0, i, p)))
    ensures Within(geo, Child(p, j)) && 4 * j + 4 <= |table| && Get32(table, 4 * j) == At(geo, d0, i, Child(p, j))
  {
    hide NodeOk, OneOwner, FreeOk, Layout;
    NodeStep(geo, d0, Rec(geo, d0, i), p.slot, p.idx, j);
  }

  lemma TableSame(geo: Geo, d0: seq<byte>, d: seq<byte>, files: set<nat>, i: nat, p: Path, freed: set<nat>)
    requires FilesOk(geo, d0, files) && i in files && Inode(geo, i) && Cleared(geo, d0, d, freed) && Within(geo, p)
    requires At(geo, d0, i, p) != 0
    ensures At(geo, d0, i, p) < geo.blockCount && Volume(geo, d)
    ensures Reg(geo, d, Data(At(geo, d0, i, p))) == Reg(geo, d0, Data(At(geo, d0, i, p)))
  {
    hide Layout, Shape, Sized, At, Marked, OneOwner, FreeOk, Items;
    assert NodeOk(geo, d0, i, p);
    SameContentsBlock(geo, d0, d, At(geo, d0, i, p));
  }

  /** Free block `b` at `p` and everything below it; the source writes out the three depths. */
  method FreeTree(v: Io.Volume, level: nat, b: nat, ghost files: set<nat>, ghost i: nat, ghost p: Path,
                  ghost d0: seq<byte>, ghost before: set<nat>)
    returns (ghost freed: set<nat>)
    requires Owner(v.geo, d0, files, i) && SoFar(v, d0, before) && level <= 3
    requires Within(v.geo, p) && |p.idx| + level == Depth(p.slot) && b == At(v.geo, d0, i, p) != 0
    requires Untouched(v.geo, d0, i, p, before)
    modifies v`disk, v`sup, v.bufBitmap, v.bufSector, Tables(v, level)
    ensures SoFar(v, d0, freed) && FreedTree(v.geo, d0, i, p, before, freed)
    decreases level, 2
  {
    hide FilesOk, Layout, FreedTree, FreedForest, Untouched, At, Cleared, Shape, Sized, Accounts;
    freed := before;
    LeafForest(v.geo, d0, files, i, p, before);
    if level > 0 {
      var buf := if level == 1 then v.bufBlock else if level == 2 then v.bufBlock3 else v.bufBlock4;
      TableSame(v.geo, d0, v.disk, files, i, p, before);
      Io.ReadBlock(v, b, buf);
      freed := FreeEntries(v, level, b, buf, files, i, p, d0, before);
    }
    freed := FreeRoot(v, b, files, i, p, d0, before, freed);
  }

  lemma LeafForest(geo: Geo, d: seq<byte>, files: set<nat>, i: nat, p: Path, before: set<nat>)
    requires FilesOk(geo, d, files) && Inode(geo, i) && Within(geo, p)
    ensures Leaf(p) ==> FreedForest(geo, d, i, p, geo.PointersPerBlock(), before, before)
    ensures FreedForest(geo, d, i, p, 0, before, before)
  {
    hide At;
    if Leaf(p) {
      forall n: nat ensures !InForest(geo, d, i, p, geo.PointersPerBlock(), n) {
        TreeSplit(geo, d, i, p, n);
      }
    }
  }

  /** The table of a pointer block in its buffer, and how far its entries are freed. */
  ghost predicate Walking(geo: Geo, d0: seq<byte>, files: set<nat>, i: nat, p: Path, level: nat, table: seq<byte>,
                          j: nat, before: set<nat>, freed: set<nat>) {
    && Owner(geo, d0, files, i) && 0 < level <= 3 && Within(geo, p) && |p.idx| + level == Depth(p.slot)
    && 0 < At(geo, d0, i, p) < geo.blockCount && |table| == geo.bs && table == Reg(geo, d0, Data(At(geo, d0, i, p)))
    && Untouched(geo, d0, i, p, before) && FreedForest(geo, d0, i, p, j, before, freed)
  }

  /** The buffer of a table is not among those used below it. */
  lemma TableSafe(v: Io.Volume, level: nat, buf: array<byte>)
    requires v.Buffers() && 0 < level <= 3
    requires buf == (if level == 1 then v.bufBlock else if level == 2 then v.bufBlock3 else v.bufBlock4)
    ensures buf !in Tables(v, level - 1) && buf != v.bufBitmap && buf != v.bufSector && buf.Length == v.geo.bs
  {
  }

  /** One entry of the table: its subtree, if there is one. */
  method FreeEntry(v: Io.Volume, level: nat, e: nat, ghost table: seq<byte>, ghost j: nat, ghost files: set<nat>,
                   ghost i: nat, ghost p: Path, ghost d0: seq<byte>, ghost before: set<nat>, ghost freed: set<nat>)
    returns (ghost freed2: set<nat>)
    requires Walking(v.geo, d0, files, i, p, level, table, j, before, freed) && SoFar(v, d0, freed)
    requires j < v.geo.PointersPerBlock() && 4 * j + 4 <= |table| && e == Get32(table, 4 * j)
    modifies v`disk, v`sup, v.bufBitmap, v.bufSector, Tables(v, level - 1)
    ensures SoFar(v, d0, freed2) && Walking(v.geo, d0, files, i, p, level, table, j + 1, before, freed2)
    decreases level, 0
  {
    hide FilesOk, FreedTree, FreedForest, Untouched, At, SoFar, Get32, Reg, Volume, Tables;
    TableEntry(v.geo, d0, files, i, p, table, j);
    freed2 := freed;
    if e != 0 {
      NextUntouched(v.geo, d0, files, i, p, j, before, freed);
      freed2 := FreeTree(v, level - 1, e, files, i, Child(p, j), d0, freed);
      FreedNext(v.geo, d0, i, p, j, before, freed, freed2);
    } else {
      FreedSkip(v.geo, d0, i, p, j, before, freed);
    }
  }

  /** The loop over one table: every subtree in turn, the table staying in its buffer. */
  method FreeEntries(v: Io.Volume, level: nat, b: nat, buf: array<byte>, ghost files: set<nat>, ghost i: nat,
                     ghost p: Path, ghost d0: seq<byte>, ghost before: set<nat>)
    returns (ghost freed: set<nat>)
    requires Walking(v.geo, d0, files, i, p, level, buf[..], 0, before, before) && SoFar(v, d0, before)
    requires buf == (if level == 1 then v.bufBlock else if level == 2 then v.bufBlock3 else v.bufBlock4)
    modifies v`disk, v`sup, v.bufBitmap, v.bufSector, Tables(v, level - 1)
    ensures SoFar(v, d0, freed) && FreedForest(v.geo, d0, i, p, v.geo.PointersPerBlock(), before, freed)
    decreases level, 1
  {
    hide Walking, SoFar, Tables, Io.Volume.Buffers, FreedForest, Get32, Io.Volume.Ready;
    freed := before;
    ghost var table := buf[..];
    WalkReady(v, d0, files, i, p, level, table, before);
    TableSafe(v, level, buf);
    var per := v.geo.PointersPerBlock();
    var j := 0;
    while j < per
      invariant j <= per && SoFar(v, d0, freed) && buf[..] == table
      invariant Walking(v.geo, d0, files, i, p, level, table, j, before, freed)
    {
      var e := Get32(buf[..], 4 * j);
      freed := FreeEntry(v, level, e, table, j, files, i, p, d0, before, freed);
      j := j + 1;
    }
    WalkedAll(v.geo, d0, files, i, p, level, table, per, before, freed);
  }

  lemma WalkReady(v: Io.Volume, d0: seq<byte>, files: set<nat>, i: nat, p: Path, level: nat, table: seq<byte>,
                  before: set<nat>)
    requires Walking(v.geo, d0, files, i, p, level, table, 0, before, before) && SoFar(v, d0, before)
    ensures v.Buffers() && v.geo.PointersPerBlock() * 4 == v.geo.bs && 0 < level <= 3
  {
    hide FilesOk, Cleared, Accounts, Layout, Untouched, FreedForest, At, Reg, Within, Io.Volume.Buffers;
  }

  lemma WalkedAll(geo: Geo, d0: seq<byte>, files: set<nat>, i: nat, p: Path, level: nat, table: seq<byte>, j: nat,
                  before: set<nat>, freed: set<nat>)
    requires Walking(geo, d0, files, i, p, level, table, j, before, freed)
    ensures Volume(geo, d0) && Inode(geo, i) && FreedForest(geo, d0, i, p, j, before, freed)
  {
  }

  // ---------------------------------------------------------------- the whole inode

  /** Block item `n` belongs to one of the first `s` slots of inode `i`. */
  ghost predicate InSlots(geo: Geo, d: seq<byte>, i: nat, s: nat, n: nat)
    requires Volume(geo, d) && Inode(geo, i)
  {
    exists q :: Within(geo, q) && q.slot < s && At(geo, d, i, q) == geo.firstData + n && At(geo, d, i, q) != 0
  }

  /** Freed are exactly the blocks of the first `s` slots. */
  ghost predicate FreedSlots(geo: Geo, d: seq<byte>, i: nat, s: nat, freed: set<nat>)
    requires Volume(geo, d) && Inode(geo, i)
  {
    forall n: nat :: n in freed <==> InSlots(geo, d, i, s, n)
  }

  lemma SlotNext(geo: Geo, d: seq<byte>, i: nat, s: nat, n: nat)
    requires Volume(geo, d) && Inode(geo, i)
    ensures InSlots(geo, d, i, s + 1, n) <==> InSlots(geo, d, i, s, n) || InTree(geo, d, i, Path(s, []), n)
  {
    hide Volume, At;
    if InSlots(geo, d, i, s + 1, n) {
      var q :| Within(geo, q) && q.slot < s + 1 && At(geo, d, i, q) == geo.firstData + n && At(geo, d, i, q) != 0;
      assert q.slot == s ==> Under(Path(s, []), q);
    }
  }

  lemma SlotUntouched(geo: Geo, d: seq<byte>, files: set<nat>, i: nat, s: nat, freed: set<nat>)
    requires Owner(geo, d, files, i) && FreedSlots(geo, d, i, s, freed)
    ensures Untouched(geo, d, i, Path(s, []), freed)
  {
    hide Volume, At, FilesOk;
    forall n | n in freed ensures !InTree(geo, d, i, Path(s, []), n) {
      if InTree(geo, d, i, Path(s, []), n) {
        var q :| Within(geo, q) && Under(Path(s, []), q) && At(geo, d, i, q) == geo.firstData + n &&
                 At(geo, d, i, q) != 0;
        var q' :| Within(geo, q') && q'.slot < s && At(geo, d, i, q') == geo.firstData + n && At(geo, d, i, q') != 0;
        SameOwner(geo, d, files, i, q, q');
        assert false;
      }
    }
  }

  lemma SlotsNext(geo: Geo, d: seq<byte>, i: nat, s: nat, freed: set<nat>, freed2: set<nat>)
    requires Volume(geo, d) && Inode(geo, i) && FreedSlots(geo, d, i, s, freed)
    requires FreedTree(geo, d, i, Path(s, []), freed, freed2)
    ensures FreedSlots(geo, d, i, s + 1, freed2)
  {
    hide Volume, At, InSlots, InTree;
    forall n: nat ensures n in freed2 <==> InSlots(geo, d, i, s + 1, n) {
      SlotNext(geo, d, i, s, n);
    }
  }

  lemma SlotsSkip(geo: Geo, d: seq<byte>, i: nat, s: nat, freed: set<nat>)
    requires Volume(geo, d) && Inode(geo, i) && s < SLOTS && FreedSlots(geo, d, i, s, freed)
    requires At(geo, d, i, Path(s, [])) == 0
    ensures FreedSlots(geo, d, i, s + 1, freed)
  {
    hide Volume, At, InSlots, InTree;
    forall n: nat ensures n in freed <==> InSlots(geo, d, i, s + 1, n) {
      SlotNext(geo, d, i, s, n);
      EmptyTree(geo, d, i, Path(s, []), n);
    }
  }

  /** The first `s` pointers are zero, the others as in `inode`. */
  predicate ZeroedTo(inode: seq<byte>, inode2: seq<byte>, s: nat) {
    && |inode| == |inode2| == INODE_SIZE
    && forall t :: 0 <= t < SLOTS ==> Pointer(inode2, t) == if t < s then 0 else Pointer(inode, t)
  }

  lemma ZeroNext(inode: seq<byte>, inode2: seq<byte>, s: nat)
    requires ZeroedTo(inode, inode2, s) && s < SLOTS
    ensures ZeroedTo(inode, Put32(inode2, BLOCK + 4 * s, 0), s + 1)
    ensures Pointer(inode2, s) == 0 ==> ZeroedTo(inode, inode2, s + 1)
  {
    Put32Get(inode2, BLOCK + 4 * s, 0);
    hide Put32, Get32;
    var r := Put32(inode2, BLOCK + 4 * s, 0);
    forall t | 0 <= t < SLOTS ensures Pointer(r, t) == if t < s + 1 then 0 else Pointer(inode, t) {
      if t != s {
        Put32Elsewhere(inode2, BLOCK + 4 * s, 0, BLOCK + 4 * t);
        assert Pointer(r, t) == Pointer(inode2, t);
      }
    }
  }

  lemma SlotRoot(geo: Geo, d: seq<byte>, i: nat, inode: seq<byte>, s: nat)
    requires Volume(geo, d) && Inode(geo, i) && |inode| == INODE_SIZE && inode == Rec(geo, d, i)[..INODE_SIZE]
    requires s < SLOTS
    ensures At(geo, d, i, Path(s, [])) == Pointer(inode, s) && Within(geo, Path(s, []))
  {
    HeadFields(Rec(geo, d, i), inode);
  }

  lemma NoSlots(geo: Geo, d: seq<byte>, i: nat)
    requires Volume(geo, d) && Inode(geo, i)
    ensures FreedSlots(geo, d, i, 0, {})
  {
  }

  /** free_inode_block_chain: the twelve direct blocks, then the three trees. */
  method FreeInodeBlockChain(v: Io.Volume, inode: seq<byte>, ghost files: set<nat>, ghost i: nat)
    returns (inode2: seq<byte>, ghost freed: set<nat>)
    requires v.Ready() && Accounts(v.geo, v.disk, v.sup) && Owner(v.geo, v.disk, files, i)
    requires |inode| == INODE_SIZE && inode == Rec(v.geo, v.disk, i)[..INODE_SIZE]
    modifies v`disk, v`sup, v.bufBitmap, v.bufSector, v.bufBlock, v.bufBlock3, v.bufBlock4
    ensures SoFar(v, old(v.disk), freed) && FreedSlots(v.geo, old(v.disk), i, SLOTS, freed)
    ensures |inode2| == INODE_SIZE && forall s :: 0 <= s < SLOTS ==> Pointer(inode2, s) == 0
    ensures Get32(v.sup, TotalAt(Blocks)) == Get32(old(v.sup), TotalAt(Blocks)) + |freed|
    ensures FilesOk(v.geo, v.disk, files - {i})
  {
    hide FilesOk, Layout, FreedTree, FreedSlots, Untouched, At, Cleared, Shape, Sized, Accounts, Pointer, Get32, Within;
    ghost var d0, sup0 := v.disk, v.sup;
    inode2, freed := inode, {};
    ClearedNone(v.geo, d0);
    NoSlots(v.geo, d0, i);
    for s := 0 to SLOTS
      invariant SoFar(v, d0, freed) && FreedSlots(v.geo, d0, i, s, freed) && ZeroedTo(inode, inode2, s)
    {
      SlotRoot(v.geo, d0, i, inode, s);
      ZeroNext(inode, inode2, s);
      var b := Pointer(inode2, s);
      if b != 0 {
        SlotUntouched(v.geo, d0, files, i, s, freed);
        ghost var freed1 := freed;
        freed := FreeTree(v, Depth(s), b, files, i, Path(s, []), d0, freed);
        SlotsNext(v.geo, d0, i, s, freed1, freed);
        inode2 := Put32(inode2, BLOCK + 4 * s, 0);
      } else {
        SlotsSkip(v.geo, d0, i, s, freed);
      }
    }
    ClearedTotal(v.geo, d0, v.disk, freed);
    TotalsAre(v.geo, d0, sup0);
    TotalsAre(v.geo, v.disk, v.sup);
    RemainingOk(v.geo, d0, v.disk, files, i, freed);
  }

  lemma TotalsAre(geo: Geo, d: seq<byte>, sup: seq<byte>)
    requires Accounts(geo, d, sup)
    ensures Volume(geo, d) && |sup| == SUPER_SIZE && Get32(sup, TotalAt(Blocks)) == Total(geo, d, Blocks, geo.groups)
  {
  }

  lemma RemainingOk(geo: Geo, d0: seq<byte>, d: seq<byte>, files: set<nat>, i: nat, freed: set<nat>)
    requires Owner(geo, d0, files, i) && Cleared(geo, d0, d, freed) && FreedSlots(geo, d0, i, SLOTS, freed)
    ensures FilesOk(geo, d, files - {i})
  {
    hide Shape, Layout, Sized, NodeOk, OneOwner, FreeOk, Items, FreedSlots, InSlots;
    forall j, p | j in files - {i} && Within(geo, p) ensures NodeOk(geo, d, j, p) {
      RemainingNode(geo, d0, d, files, i, freed, j, p);
    }
    forall j, p, k, q | j in files - {i} && k in files - {i} && Within(geo, p) && Within(geo, q)
      ensures OneOwner(geo, d, j, p, k, q)
    {
      RemainingOwner(geo, d0, d, files, freed, j, p, k, q);
    }
    forall n: nat | n < Items(geo, Blocks) ensures FreeOk(geo, d, n) {
      RemainingFree(geo, d0, d, files, i, freed, n);
    }
  }

  /** Clearing bits leaves every block map. */
  lemma ClearedAtSame(geo: Geo, d0: seq<byte>, d: seq<byte>, files: set<nat>, freed: set<nat>, j: nat, p: Path)
    requires FilesOk(geo, d0, files) && Cleared(geo, d0, d, freed) && j in files && Within(geo, p)
    ensures Volume(geo, d) && Inode(geo, j) && SameAt(geo, d0, d, j, p)
  {
    hide Shape, Layout, Sized, Marked, IsData, Reg, At, Items;
    assert SameReg(geo, d0, d, Record(j));
    forall q | Within(geo, q) && !Leaf(q) ensures SameBlock(geo, d0, d, At(geo, d0, j, q)) {
      assert NodeOk(geo, d0, j, q);
      SameContentsBlock(geo, d0, d, At(geo, d0, j, q));
    }
    AtSame(geo, d0, d, j, p);
  }

  lemma RemainingNode(geo: Geo, d0: seq<byte>, d: seq<byte>, files: set<nat>, i: nat, freed: set<nat>, j: nat, p: Path)
    requires Owner(geo, d0, files, i) && Cleared(geo, d0, d, freed) && FreedSlots(geo, d0, i, SLOTS, freed)
    requires j in files && j != i && Within(geo, p)
    ensures Volume(geo, d) && Inode(geo, j) && NodeOk(geo, d, j, p)
  {
    hide Shape, Layout, Sized, Marked, IsData, At, Items, FreeOk;
    ClearedAtSame(geo, d0, d, files, freed, j, p);
    assert NodeOk(geo, d0, j, p);
    var b := At(geo, d0, j, p);
    if b != 0 {
      BlockItem(geo, b);
      assert ClearedAt(geo, d0, d, freed, b - geo.firstData);
      NotMine(geo, d0, files, i, freed, j, p);
    }
  }

  lemma NotMine(geo: Geo, d0: seq<byte>, files: set<nat>, i: nat, freed: set<nat>, j: nat, p: Path)
    requires Owner(geo, d0, files, i) && FreedSlots(geo, d0, i, SLOTS, freed) && j in files && j != i && Inode(geo, j)
    requires Within(geo, p)
    requires At(geo, d0, j, p) >= geo.firstData && At(geo, d0, j, p) != 0
    ensures At(geo, d0, j, p) - geo.firstData !in freed
  {
    hide Volume, At, NodeOk, FreeOk;
    var n := At(geo, d0, j, p) - geo.firstData;
    if n in freed {
      var q :| Within(geo, q) && q.slot < SLOTS && At(geo, d0, i, q) == geo.firstData + n && At(geo, d0, i, q) != 0;
      OtherOwner(geo, d0, files, j, p, i, q);
      assert false;
    }
  }

  lemma OtherOwner(geo: Geo, d: seq<byte>, files: set<nat>, j: nat, p: Path, i: nat, q: Path)
    requires FilesOk(geo, d, files) && i in files && j in files && Inode(geo, i) && Inode(geo, j) && Within(geo, p)
    requires Within(geo, q)
    requires At(geo, d, j, p) == At(geo, d, i, q) != 0
    ensures i == j
  {
    assert OneOwner(geo, d, j, p, i, q);
  }

  lemma RemainingOwner(geo: Geo, d0: seq<byte>, d: seq<byte>, files: set<nat>, freed: set<nat>, j: nat, p: Path, k: nat,
                       q: Path)
    requires FilesOk(geo, d0, files) && Cleared(geo, d0, d, freed) && j in files && Within(geo, p) && k in files
    requires Within(geo, q)
    ensures Volume(geo, d) && Inode(geo, j) && Inode(geo, k) && OneOwner(geo, d, j, p, k, q)
  {
    hide Shape, Layout, Sized, At, Cleared, NodeOk, FreeOk, Items;
    ClearedAtSame(geo, d0, d, files, freed, j, p);
    ClearedAtSame(geo, d0, d, files, freed, k, q);
    assert OneOwner(geo, d0, j, p, k, q);
  }

  lemma RemainingFree(geo: Geo, d0: seq<byte>, d: seq<byte>, files: set<nat>, i: nat, freed: set<nat>, n: nat)
    requires Owner(geo, d0, files, i) && Cleared(geo, d0, d, freed) && FreedSlots(geo, d0, i, SLOTS, freed)
    requires n < Items(geo, Blocks)
    ensures Volume(geo, d) && FreeOk(geo, d, n)
  {
    hide Shape, Layout, Sized, Marked, IsData, At, Items, OneOwner;
    assert FreeOk(geo, d0, n) && ClearedAt(geo, d0, d, freed, n);
    if n in freed {
      var q :| Within(geo, q) && q.slot < SLOTS && At(geo, d0, i, q) == geo.firstData + n && At(geo, d0, i, q) != 0;
      assert NodeOk(geo, d0, i, q);
    }
  }
}
