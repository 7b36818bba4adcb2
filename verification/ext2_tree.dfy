/**
 The block map of an inode (src/fs/ext2/ext2_inode.c): twelve direct pointers and three
 trees of pointer blocks, and the index arithmetic that finds a file's n-th block in them.
 */
module Ext2Tree {
  import opened Bits
  import opened Words
  import opened Ext2Layout
  import Io = Ext2Io

  // ---------------------------------------------------------------- inode records

  const MODE := 0
  const SIZE := 4
  const LINKS := 26
  const SECTORS := 28
  const BLOCK := 40

  /** i_block[s]. */
  function Pointer(rec: seq<byte>, s: nat): nat
    requires |rec| >= INODE_SIZE && s < SLOTS
  {
    Get32(rec, BLOCK + 4 * s)
  }

  predicate InField(x: nat, o: nat, n: nat) {
    o <= x < o + n
  }

  /** The bytes of a field of `n` bytes at `o`. */
  function Field(o: nat, n: nat): set<nat> {
    set x: nat | x < o + n && InField(x, o, n)
  }

  /** The two inodes have the same bytes outside `changed`. */
  predicate AgreeBut(a: seq<byte>, b: seq<byte>, changed: set<nat>) {
    && |a| >= INODE_SIZE && |b| >= INODE_SIZE
    && forall x :: 0 <= x < INODE_SIZE && x !in changed ==> b[x] == a[x]
  }

  lemma AgreePut32(a: seq<byte>, o: nat, v: nat)
    requires |a| >= INODE_SIZE && o + 4 <= |a| && v < LIMIT32
    ensures AgreeBut(a, Put32(a, o, v), Field(o, 4))
  {
  }

  lemma AgreePut16(a: seq<byte>, o: nat, v: nat)
    requires |a| >= INODE_SIZE && o + 2 <= |a| && v < LIMIT16
    ensures AgreeBut(a, Put16(a, o, v), Field(o, 2))
  {
  }

  lemma AgreeMore(a: seq<byte>, b: seq<byte>, c: seq<byte>, s: set<nat>, t: set<nat>)
    requires AgreeBut(a, b, s) && AgreeBut(b, c, t)
    ensures AgreeBut(a, c, s + t)
  {
  }

  lemma AgreeGet(a: seq<byte>, b: seq<byte>, s: set<nat>, o: nat)
    requires AgreeBut(a, b, s)
    ensures o + 4 <= INODE_SIZE && Field(o, 4) !! s ==> Get32(b, o) == Get32(a, o)
    ensures o + 2 <= INODE_SIZE && Field(o, 2) !! s ==> Get16(b, o) == Get16(a, o)
  {
    if o + 4 <= INODE_SIZE && Field(o, 4) !! s {
      forall x | o <= x < o + 4 ensures b[x] == a[x] {
        assert x in Field(o, 4);
      }
      assert b[o..o + 4] == a[o..o + 4];
      Get32Local(b, a, o, o);
    }
    if o + 2 <= INODE_SIZE && Field(o, 2) !! s {
      forall x | o <= x < o + 2 ensures b[x] == a[x] {
        assert x in Field(o, 2);
      }
      assert b[o..o + 2] == a[o..o + 2];
      Get16Local(b, a, o, o);
    }
  }

  // ---------------------------------------------------------------- paths

  /** Where a block pointer is: a slot of the inode, then an index into each pointer block on the way. */
  datatype Path = Path(slot: nat, idx: seq<nat>)

  /** How many pointer blocks lie between a slot and the data. */
  function Depth(slot: nat): nat {
    if slot < NDIR then 0 else slot - NDIR + 1
  }

  /** A path to a data block, or to a pointer block on the way to one. */
  predicate Legal(per: nat, p: Path) {
    p.slot < SLOTS && |p.idx| <= Depth(p.slot) && forall k :: 0 <= k < |p.idx| ==> p.idx[k] < per
  }

  predicate Leaf(p: Path) {
    |p.idx| == Depth(p.slot)
  }

  /** The path through three pointer blocks, `square` being the blocks below one entry of the first. */
  function DeepPath(per: nat, square: nat, m: nat): Path
    requires 0 < per && 0 < square
  {
    Path(14, [m / square, m % square / per, m % square % per])
  }

  /** resolve_data_block's arithmetic: the path of the n-th block, with `per` pointers to a block. */
  function PathOf(per: nat, n: nat): Path
    requires 0 < per
  {
    if n < NDIR then Path(n, [])
    else if n - NDIR < per then Path(12, [n - NDIR])
    else if n - NDIR - per < per * per then
      var m := n - NDIR - per;
      Path(13, [m / per, m % per])
    else
      MulMonotone(1, per, per);
      DeepPath(per, per * per, n - NDIR - per - per * per)
  }

  /** The block number a data path stands for. */
  function IndexOf(per: nat, p: Path): nat
    requires Legal(per, p) && Leaf(p)
  {
    if p.slot < NDIR then p.slot
    else if p.slot == 12 then NDIR + p.idx[0]
    else if p.slot == 13 then NDIR + per + p.idx[0] * per + p.idx[1]
    else NDIR + per + per * per + p.idx[0] * (per * per) + p.idx[1] * per + p.idx[2]
  }

  predicate Pointers(per: nat) {
    per == 256 || per == 512 || per == 1024
  }

  /** Every block of a file of less than 4 GiB has a legal path, and the path leads back to it. */
  lemma PathLegal(per: nat, n: nat)
    requires Pointers(per) && n < LIMIT32 / (4 * per)
    ensures Legal(per, PathOf(per, n)) && Leaf(PathOf(per, n)) && IndexOf(per, PathOf(per, n)) == n
  {
    if per == 256 {
      PathLegal256(n);
    } else if per == 512 {
      PathLegal512(n);
    } else {
      PathLegal1024(n);
    }
  }

  lemma PathLegal256(n: nat)
    requires n < LIMIT32 / 1024
    ensures Legal(256, PathOf(256, n)) && Leaf(PathOf(256, n)) && IndexOf(256, PathOf(256, n)) == n
  {
    if n >= 12 + 256 + 65536 {
      var m := n - 12 - 256 - 65536;
      assert m == m / 65536 * 65536 + m % 65536 && m % 65536 == m % 65536 / 256 * 256 + m % 65536 % 256;
    }
  }

  lemma PathLegal512(n: nat)
    requires n < LIMIT32 / 2048
    ensures Legal(512, PathOf(512, n)) && Leaf(PathOf(512, n)) && IndexOf(512, PathOf(512, n)) == n
  {
    if n >= 12 + 512 + 262144 {
      var m := n - 12 - 512 - 262144;
      assert m == m / 262144 * 262144 + m % 262144 && m % 262144 == m % 262144 / 512 * 512 + m % 262144 % 512;
    }
  }

  lemma PathLegal1024(n: nat)
    requires n < LIMIT32 / 4096
    ensures Legal(1024, PathOf(1024, n)) && Leaf(PathOf(1024, n)) && IndexOf(1024, PathOf(1024, n)) == n
  {
  }

  /** Different blocks of a file have different pointer slots. */
  lemma PathInjective(per: nat, m: nat, n: nat)
    requires Pointers(per) && m < LIMIT32 / (4 * per) && n < LIMIT32 / (4 * per)
    ensures PathOf(per, m) == PathOf(per, n) <==> m == n
  {
    PathLegal(per, m);
    PathLegal(per, n);
  }

  // ---------------------------------------------------------------- the tree

  /** Entry `j` of pointer block `b`. */
  function Entry(geo: Geo, d: seq<byte>, b: nat, j: nat): nat
    requires Shape(geo) && Sized(geo, d)
  {
    if b < geo.blockCount && 4 * j + 4 <= |Reg(geo, d, Data(b))| then Get32(Reg(geo, d, Data(b)), 4 * j) else 0
  }

  /** Plain lookup: the block at the end of the path, or 0 as soon as a level is absent. */
  function Node(geo: Geo, d: seq<byte>, rec: seq<byte>, slot: nat, idx: seq<nat>): nat
    requires Shape(geo) && Sized(geo, d) && |rec| >= INODE_SIZE && slot < SLOTS
    decreases |idx|
  {
    if idx == [] then Pointer(rec, slot)
    else
      var parent := Node(geo, d, rec, slot, idx[..|idx| - 1]);
      if parent == 0 then 0 else Entry(geo, d, parent, idx[|idx| - 1])
  }

  lemma NodeStep(geo: Geo, d: seq<byte>, rec: seq<byte>, slot: nat, idx: seq<nat>, j: nat)
    requires Shape(geo) && Sized(geo, d) && |rec| >= INODE_SIZE && slot < SLOTS
    ensures var parent := Node(geo, d, rec, slot, idx);
            Node(geo, d, rec, slot, idx + [j]) == if parent == 0 then 0 else Entry(geo, d, parent, j)
  {
    assert (idx + [j])[..|idx|] == idx;
  }

  /** The pointer blocks of the inode are blocks of the volume. */
  ghost predicate InnerOk(geo: Geo, d: seq<byte>, rec: seq<byte>)
    requires Shape(geo) && Sized(geo, d) && |rec| >= INODE_SIZE
  {
    forall p :: Legal(geo.PointersPerBlock(), p) && !Leaf(p) ==> InnerAt(geo, d, rec, p)
  }

  predicate InnerAt(geo: Geo, d: seq<byte>, rec: seq<byte>, p: Path)
    requires Shape(geo) && Sized(geo, d) && |rec| >= INODE_SIZE && p.slot < SLOTS
  {
    Node(geo, d, rec, p.slot, p.idx) == 0 || Node(geo, d, rec, p.slot, p.idx) < geo.blockCount
  }

  /** Read a pointer block and take one entry; an absent block has no entries. */
  method ReadEntry(v: Io.Volume, b: nat, j: nat, buf: array<byte>) returns (e: nat)
    requires v.Ready() && buf.Length == v.geo.bs && b < v.geo.blockCount && j < v.geo.PointersPerBlock()
    modifies buf
    ensures e == Entry(v.geo, v.disk, b, j)
  {
    hide Layout;
    Io.ReadBlock(v, b, buf);
    e := Get32(buf[..], 4 * j);
  }

  /** One level down: the entry of the block at `p`, or 0 when the block is absent. */
  method Descend(v: Io.Volume, inode: seq<byte>, ghost p: Path, b: nat, j: nat, buf: array<byte>) returns (e: nat)
    requires v.Ready() && |inode| >= INODE_SIZE && InnerOk(v.geo, v.disk, inode) && buf.Length == v.geo.bs
    requires Legal(v.geo.PointersPerBlock(), p) && !Leaf(p) && j < v.geo.PointersPerBlock()
    requires b == Node(v.geo, v.disk, inode, p.slot, p.idx)
    modifies buf
    ensures e == Node(v.geo, v.disk, inode, p.slot, p.idx + [j])
  {
    NodeStep(v.geo, v.disk, inode, p.slot, p.idx, j);
    if b == 0 {
      return 0;
    }
    assert InnerAt(v.geo, v.disk, inode, p);
    hide Layout, InnerOk, Node, Entry;
    e := ReadEntry(v, b, j, buf);
  }

  /** resolve_data_block: what plain lookup finds at the path of the n-th block. */
  method ResolveDataBlock(v: Io.Volume, inode: seq<byte>, n: nat) returns (b: nat)
    requires v.Ready() && |inode| >= INODE_SIZE && n < LIMIT32 / v.geo.bs && InnerOk(v.geo, v.disk, inode)
    modifies v.bufBlock2, v.bufBlock3, v.bufBlock4
    ensures var p := PathOf(v.geo.PointersPerBlock(), n);
            p.slot < SLOTS && b == Node(v.geo, v.disk, inode, p.slot, p.idx)
  {
    var per := v.geo.PointersPerBlock();
    Fits(v.geo, n);
    PathLegal(per, n);
    hide Layout, InnerOk, Node, Shape;
    var p := PathOf(per, n);
    hide PathOf, IndexOf;
    b := Root(v, inode, p.slot);
    if p.slot == 12 {
      assert p.idx == [p.idx[0]] && [] + [p.idx[0]] == [p.idx[0]];
      b := Descend(v, inode, Path(12, []), b, p.idx[0], v.bufBlock2);
    } else if p.slot == 13 {
      assert p.idx == [p.idx[0], p.idx[1]];
      b := Lookup2(v, inode, b, p.idx[0], p.idx[1]);
    } else if p.slot == 14 {
      assert p.idx == [p.idx[0], p.idx[1], p.idx[2]];
      b := Lookup3(v, inode, b, p.idx[0], p.idx[1], p.idx[2]);
    } else {
      assert p.idx == [];
    }
  }

  lemma Fits(geo: Geo, n: nat)
    requires Shape(geo) && n < LIMIT32 / geo.bs
    ensures Pointers(geo.PointersPerBlock()) && n < LIMIT32 / (4 * geo.PointersPerBlock())
  {
  }

  method Root(v: Io.Volume, inode: seq<byte>, slot: nat) returns (b: nat)
    requires Shape(v.geo) && Sized(v.geo, v.disk) && |inode| >= INODE_SIZE && slot < SLOTS
    ensures b == Node(v.geo, v.disk, inode, slot, [])
  {
    b := Pointer(inode, slot);
  }

  method Lookup2(v: Io.Volume, inode: seq<byte>, root: nat, i: nat, j: nat) returns (b: nat)
    requires v.Ready() && |inode| >= INODE_SIZE && InnerOk(v.geo, v.disk, inode)
    requires i < v.geo.PointersPerBlock() && j < v.geo.PointersPerBlock() && root == Node(v.geo, v.disk, inode, 13, [])
    modifies v.bufBlock2, v.bufBlock3
    ensures b == Node(v.geo, v.disk, inode, 13, [i, j])
  {
    hide Layout, InnerOk, Node, Shape;
    b := Descend(v, inode, Path(13, []), root, i, v.bufBlock3);
    assert [] + [i] == [i] && [i] + [j] == [i, j];
    b := Descend(v, inode, Path(13, [i]), b, j, v.bufBlock2);
  }

  method Lookup3(v: Io.Volume, inode: seq<byte>, root: nat, i: nat, j: nat, k: nat) returns (b: nat)
    requires v.Ready() && |inode| >= INODE_SIZE && InnerOk(v.geo, v.disk, inode)
    requires i < v.geo.PointersPerBlock() && j < v.geo.PointersPerBlock() && k < v.geo.PointersPerBlock()
    requires root == Node(v.geo, v.disk, inode, 14, [])
    modifies v.bufBlock2, v.bufBlock3, v.bufBlock4
    ensures b == Node(v.geo, v.disk, inode, 14, [i, j, k])
  {
    hide Layout, InnerOk, Node, Shape;
    b := Descend(v, inode, Path(14, []), root, i, v.bufBlock4);
    assert [] + [i] == [i] && [i] + [j] == [i, j] && [i, j] + [k] == [i, j, k];
    b := Descend(v, inode, Path(14, [i]), b, j, v.bufBlock3);
    b := Descend(v, inode, Path(14, [i, j]), b, k, v.bufBlock2);
  }
}
