/**
 What a write takes from the free space (src/fs/ext2/ext2_file.c): one block for each empty
 direct slot it comes to, in order, until the slots or the free blocks run out.
 */
module Ext2Spend {
  import opened Bits
  import opened Words
  import opened Ext2Layout
  import opened Ext2Space
  import opened Ext2Tree
  import opened Ext2Files

  // ---------------------------------------------------------------- free blocks

  /** The free blocks, numbered from the first data block. */
  ghost function FreeBlocks(geo: Geo, d: seq<byte>): set<nat>
    requires Volume(geo, d)
  {
    FreeItems(geo, d, Blocks, Items(geo, Blocks))
  }

  /** The counter in the superblock is their number. */
  lemma FreeIsTotal(geo: Geo, d: seq<byte>, sup: seq<byte>)
    requires Accounts(geo, d, sup)
    ensures Get32(sup, TotalAt(Blocks)) == Total(geo, d, Blocks, geo.groups) == |FreeBlocks(geo, d)|
  {
    assert Grouped(geo, Blocks);
    hide Layout, Total, FreeItems, GroupOk;
    TotalIsFree(geo, d, Blocks, geo.groups);
    assert UpTo(geo, Blocks, geo.groups) == Items(geo, Blocks);
  }

  /** Block `b` was free and is not any more; no other block changed. */
  ghost predicate Takes(geo: Geo, d: seq<byte>, d2: seq<byte>, b: nat) {
    && Volume(geo, d) && Volume(geo, d2) && geo.firstData <= b && b - geo.firstData in FreeBlocks(geo, d)
    && FreeBlocks(geo, d2) == FreeBlocks(geo, d) - {b - geo.firstData}
  }

  lemma TurnedTakes(geo: Geo, d: seq<byte>, d2: seq<byte>, b: nat)
    requires geo.firstData <= b < geo.blockCount && Volume(geo, d) && !Marked(geo, d, Blocks, b - geo.firstData)
    requires Turned(geo, d, d2, Blocks, b - geo.firstData, true)
    ensures Takes(geo, d, d2, b)
  {
    hide Marked, SameContents;
    assert Volume(geo, d2) by { TurnedVolumes(geo, d, d2, Blocks, b - geo.firstData, true); }
    hide Volume;
    forall n: nat ensures n in FreeBlocks(geo, d2) <==> n in FreeBlocks(geo, d) - {b - geo.firstData} {
      if n < Items(geo, Blocks) { assert MarkedLike(geo, d, d2, Blocks, b - geo.firstData, true, Blocks, n); }
    }
  }

  lemma TurnedVolumes(geo: Geo, d: seq<byte>, d2: seq<byte>, kind: Kind, n: nat, v: bool)
    requires Turned(geo, d, d2, kind, n, v)
    ensures Volume(geo, d) && Volume(geo, d2)
  {
  }

  lemma PutFree(geo: Geo, d: seq<byte>, r: Region, t: seq<byte>)
    requires Volume(geo, d) && Sound(geo, r) && (r.Record? || r.Data?) && |t| == Len(geo, r)
    ensures Volume(geo, Put(geo, d, r, t)) && FreeBlocks(geo, Put(geo, d, r, t)) == FreeBlocks(geo, d)
  {
    PutMarked(geo, d, r, t, Blocks, 0);
    hide Volume, Marked, Put, Sound;
    forall n: nat ensures n in FreeBlocks(geo, Put(geo, d, r, t)) <==> n in FreeBlocks(geo, d) {
      PutMarked(geo, d, r, t, Blocks, n);
    }
  }

  lemma FullIsNone(geo: Geo, d: seq<byte>)
    requires Volume(geo, d)
    ensures FreeBlocks(geo, d) == {} <==> forall n: nat :: n < Items(geo, Blocks) ==> Marked(geo, d, Blocks, n)
  {
    hide Volume, Marked, Items;
    if FreeBlocks(geo, d) == {} {
      forall n: nat | n < Items(geo, Blocks) ensures Marked(geo, d, Blocks, n) {
        assert n !in FreeBlocks(geo, d);
      }
    }
  }

  // ---------------------------------------------------------------- empty slots

  /** How many of the direct slots `a` to `c` are empty. */
  function Holes(rec: seq<byte>, a: nat, c: nat): nat
    requires |rec| >= INODE_SIZE
  {
    if c <= a then 0 else Holes(rec, a, c - 1) + if c - 1 < NDIR && Pointer(rec, c - 1) == 0 then 1 else 0
  }

  lemma {:induction false} HolesGrow(rec: seq<byte>, a: nat, c: nat, e: nat)
    requires |rec| >= INODE_SIZE && a <= c <= e
    ensures Holes(rec, a, c) <= Holes(rec, a, e) && (c >= NDIR ==> Holes(rec, a, c) == Holes(rec, a, e))
    ensures c < e && c < NDIR && Pointer(rec, c) == 0 ==> Holes(rec, a, c) < Holes(rec, a, e)
    decreases e
  {
    hide Pointer;
    if c < e {
      HolesGrow(rec, a, c, e - 1);
    }
  }

  lemma {:induction false} HolesSame(rec: seq<byte>, rec2: seq<byte>, a: nat, c: nat)
    requires |rec| >= INODE_SIZE && |rec2| >= INODE_SIZE
    requires forall s :: 0 <= s < SLOTS ==> Pointer(rec, s) == Pointer(rec2, s)
    ensures Holes(rec, a, c) == Holes(rec2, a, c)
    decreases c
  {
    hide Pointer;
    if c > a {
      HolesSame(rec, rec2, a, c - 1);
    }
  }

  /** The slot, from `a` on, that a write cannot fill with `free` free blocks. */
  function StopSlot(rec: seq<byte>, a: nat, free: nat): (s: nat)
    requires |rec| >= INODE_SIZE
    ensures a <= s && (s <= NDIR || s == a)
    decreases NDIR - a
  {
    if a >= NDIR || (Pointer(rec, a) == 0 && free == 0) then a
    else StopSlot(rec, a + 1, if Pointer(rec, a) == 0 then free - 1 else free)
  }

  /** Slots that got their blocks do not change where it stops. */
  lemma {:induction false} StopSlotLater(rec: seq<byte>, a: nat, c: nat, free: nat)
    requires |rec| >= INODE_SIZE && a <= c && (c <= NDIR || c == a) && Holes(rec, a, c) <= free
    ensures StopSlot(rec, a, free) == StopSlot(rec, c, free - Holes(rec, a, c))
    decreases c
  {
    hide Pointer;
    if a < c {
      StopSlotLater(rec, a, c - 1, free);
      StopStep(rec, c - 1, free - Holes(rec, a, c - 1));
    }
  }

  lemma StopStep(rec: seq<byte>, c: nat, free: nat)
    requires |rec| >= INODE_SIZE && c < NDIR && (Pointer(rec, c) == 0 ==> free > 0)
    ensures StopSlot(rec, c, free) == StopSlot(rec, c + 1, if Pointer(rec, c) == 0 then free - 1 else free)
  {
    hide Pointer;
  }

  lemma {:induction false} StopSlotSame(rec: seq<byte>, rec2: seq<byte>, a: nat, free: nat)
    requires |rec| >= INODE_SIZE && |rec2| >= INODE_SIZE
    requires forall s :: 0 <= s < SLOTS ==> Pointer(rec, s) == Pointer(rec2, s)
    ensures StopSlot(rec, a, free) == StopSlot(rec2, a, free)
    decreases NDIR - a
  {
    hide Pointer;
    if a < NDIR && !(Pointer(rec, a) == 0 && free == 0) {
      StopSlotSame(rec, rec2, a + 1, if Pointer(rec, a) == 0 then free - 1 else free);
    }
  }

  // ---------------------------------------------------------------- spending

  /** The block, free at first, is in a slot that was empty at first. */
  predicate Newly(geo: Geo, inode0: seq<byte>, inode: seq<byte>, n: nat)
    requires |inode0| >= INODE_SIZE && |inode| >= INODE_SIZE
  {
    exists s: nat :: s < NDIR && Pointer(inode0, s) == 0 && 0 != Pointer(inode, s) == geo.firstData + n
  }

  /** The direct pointers, the size and the sector count of an inode. */
  function Extent(): set<nat> {
    Field(SIZE, 4) + Field(SECTORS, 4) + Field(BLOCK, 4 * NDIR)
  }

  /** Block `b` was entered into the empty slot `s`: one pointer, and a block more of 512-byte sectors. */
  predicate GainsBlock(inode: seq<byte>, inode2: seq<byte>, s: nat, b: nat, bs: nat) {
    && |inode| >= INODE_SIZE && |inode2| >= INODE_SIZE && s < NDIR && Pointer(inode, s) == 0 && Pointer(inode2, s) == b
    && PointersBut(inode, inode2, s) && Get32(inode2, SECTORS) == (Get32(inode, SECTORS) + bs / 512) % LIMIT32
    && AgreeBut(inode, inode2, Field(SECTORS, 4) + Field(BLOCK + 4 * s, 4))
  }

  /** The sectors of `n` blocks were added, and nothing but pointers changed besides. */
  predicate Sectors(inode0: seq<byte>, inode: seq<byte>, n: nat, bs: nat) {
    && AgreeBut(inode0, inode, Field(SECTORS, 4) + Field(BLOCK, 4 * NDIR))
    && Get32(inode, SECTORS) == (Get32(inode0, SECTORS) + n * (bs / 512)) % LIMIT32
  }

  lemma ModAdd(x: nat, q: nat)
    ensures (x % LIMIT32 + q) % LIMIT32 == (x + q) % LIMIT32
  {
  }

  lemma SectorsMore(inode0: seq<byte>, inode: seq<byte>, inode2: seq<byte>, n: nat, s: nat, b: nat, bs: nat)
    requires Sectors(inode0, inode, n, bs) && GainsBlock(inode, inode2, s, b, bs)
    ensures Sectors(inode0, inode2, n + 1, bs)
  {
    hide Get32, Pointer, PointersBut;
    AgreeMore(inode0, inode, inode2, Field(SECTORS, 4) + Field(BLOCK, 4 * NDIR),
              Field(SECTORS, 4) + Field(BLOCK + 4 * s, 4));
    assert Field(BLOCK + 4 * s, 4) <= Field(BLOCK, 4 * NDIR);
    ModAdd(Get32(inode0, SECTORS) + n * (bs / 512), bs / 512);
    assert (n + 1) * (bs / 512) == n * (bs / 512) + bs / 512;
  }

  /** Slots `a` to `c` were filled where they were empty, at one free block each; nothing else was taken. */
  ghost predicate Spends(geo: Geo, d0: seq<byte>, d: seq<byte>, inode0: seq<byte>, inode: seq<byte>, a: nat, c: nat) {
    && Volume(geo, d0) && Volume(geo, d) && |inode0| >= INODE_SIZE && |inode| >= INODE_SIZE && a <= c
    && FreeBlocks(geo, d) <= FreeBlocks(geo, d0)
    && |FreeBlocks(geo, d)| + Holes(inode0, a, c) == |FreeBlocks(geo, d0)|
    && (forall n :: n in FreeBlocks(geo, d0) && n !in FreeBlocks(geo, d) ==> Newly(geo, inode0, inode, n))
    && (forall s :: 0 <= s < NDIR && !(a <= s < c) ==> Pointer(inode, s) == Pointer(inode0, s))
    && Sectors(inode0, inode, Holes(inode0, a, c), geo.bs)
  }

  lemma SpendsStart(geo: Geo, d: seq<byte>, inode: seq<byte>, a: nat)
    requires Volume(geo, d) && |inode| >= INODE_SIZE
    ensures Spends(geo, d, d, inode, inode, a, a)
  {
  }

  /** A slot that has its block. */
  lemma SpendsNothing(geo: Geo, d0: seq<byte>, d: seq<byte>, d2: seq<byte>, inode0: seq<byte>, inode: seq<byte>, a: nat,
                      c: nat)
    requires Spends(geo, d0, d, inode0, inode, a, c) && c < NDIR && Pointer(inode, c) != 0
    requires Volume(geo, d2) && FreeBlocks(geo, d2) == FreeBlocks(geo, d)
    ensures Spends(geo, d0, d2, inode0, inode, a, c + 1)
  {
    hide Volume, FreeBlocks, Pointer, Newly, Sectors;
  }

  /** A slot that gets one. */
  lemma SpendsOne(geo: Geo, d0: seq<byte>, d: seq<byte>, d2: seq<byte>, inode0: seq<byte>, inode: seq<byte>,
                  inode2: seq<byte>, a: nat, c: nat, b: nat)
    requires Spends(geo, d0, d, inode0, inode, a, c) && c < NDIR && Pointer(inode, c) == 0 && Takes(geo, d, d2, b)
    requires b != 0
    requires GainsBlock(inode, inode2, c, b, geo.bs)
    ensures Spends(geo, d0, d2, inode0, inode2, a, c + 1)
  {
    hide Volume, FreeBlocks, Pointer, Sectors, AgreeBut, Get32;
    SectorsMore(inode0, inode, inode2, Holes(inode0, a, c), c, b, geo.bs);
    forall n | n in FreeBlocks(geo, d0) && n !in FreeBlocks(geo, d2) ensures Newly(geo, inode0, inode2, n) {
      if n == b - geo.firstData {
        assert Pointer(inode0, c) == 0 && Pointer(inode2, c) == geo.firstData + n;
      } else {
        assert Newly(geo, inode0, inode, n);
        var s: nat :| s < NDIR && Pointer(inode0, s) == 0 && 0 != Pointer(inode, s) == geo.firstData + n;
        assert Pointer(inode2, s) == Pointer(inode, s);
      }
    }
  }
}
