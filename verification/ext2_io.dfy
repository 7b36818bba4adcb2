/**
 The volume with its scratch buffers, and disk access by sectors, bytes and blocks
 (src/fs/ext2/ext2_io.c).  The device never fails.
 */
module Ext2Io {
  import opened Bits
  import opened Words
  import opened Ext2Layout

  class Volume {
    const geo: Geo
    var disk: seq<byte>
    /** The cached superblock. */
    var sup: seq<byte>
    const bufSector: array<byte>
    const bufBlock: array<byte>
    const bufBlock2: array<byte>
    const bufBlock3: array<byte>
    const bufBlock4: array<byte>
    const bufInode: array<byte>
    const bufBitmap: array<byte>

    /** A volume with its buffers; reading the parameters off the disk is not modelled. */
    constructor (g: Geo, d: seq<byte>, s: seq<byte>)
      requires Shape(g) && Layout(g) && Sized(g, d) && |s| == SUPER_SIZE
      ensures Ready() && geo == g && disk == d && sup == s
      ensures fresh(bufSector) && fresh(bufBlock) && fresh(bufBlock2) && fresh(bufBlock3) && fresh(bufBlock4)
      ensures fresh(bufInode) && fresh(bufBitmap)
    {
      geo, disk, sup := g, d, s;
      bufSector := new byte[SECTOR];
      bufBlock, bufBlock2, bufBlock3, bufBlock4 := new byte[g.bs], new byte[g.bs], new byte[g.bs], new byte[g.bs];
      bufInode, bufBitmap := new byte[g.inodeSize], new byte[g.bs];
    }

    /** The buffers have their sizes and are pairwise different. */
    ghost predicate Buffers() {
      && bufSector.Length == SECTOR && bufInode.Length == geo.inodeSize && bufBitmap.Length == geo.bs
      && bufBlock.Length == geo.bs && bufBlock2.Length == geo.bs && bufBlock3.Length == geo.bs
      && bufBlock4.Length == geo.bs
      && bufSector != bufBlock && bufSector != bufBlock2 && bufSector != bufBlock3 && bufSector != bufBlock4
      && bufSector != bufInode && bufSector != bufBitmap
      && bufBlock != bufBlock2 && bufBlock != bufBlock3 && bufBlock != bufBlock4 && bufBlock != bufInode
      && bufBlock != bufBitmap
      && bufBlock2 != bufBlock3 && bufBlock2 != bufBlock4 && bufBlock2 != bufInode && bufBlock2 != bufBitmap
      && bufBlock3 != bufBlock4 && bufBlock3 != bufInode && bufBlock3 != bufBitmap
      && bufBlock4 != bufInode && bufBlock4 != bufBitmap && bufInode != bufBitmap
    }

    ghost predicate Ready()
      reads this
    {
      Shape(geo) && Layout(geo) && Buffers() && Sized(geo, disk) && |sup| == SUPER_SIZE
    }
  }

  lemma DiskInSectors(v: Volume)
    requires v.Ready()
    ensures |v.disk| % SECTOR == 0
  {
    hide Layout;
    WholeSectors(v.geo.blockCount, v.geo.bs / SECTOR);
  }

  lemma WholeSectors(n: nat, k: nat)
    ensures n * (k * SECTOR) % SECTOR == 0
  {
    assert n * (k * SECTOR) == n * k * SECTOR;
  }

  /** block_device_read into a buffer. */
  method ReadSectors(v: Volume, lba: nat, n: nat, out: array<byte>)
    requires (lba + n) * SECTOR <= |v.disk| && n * SECTOR <= out.Length
    modifies out
    ensures out[..n * SECTOR] == v.disk[lba * SECTOR..(lba + n) * SECTOR]
    ensures forall x :: n * SECTOR <= x < out.Length ==> out[x] == old(out[x])
  {
    forall x | 0 <= x < n * SECTOR {
      out[x] := v.disk[lba * SECTOR + x];
    }
  }

  /** block_device_write. */
  method WriteSectors(v: Volume, lba: nat, n: nat, src: seq<byte>)
    requires (lba + n) * SECTOR <= |v.disk| && |src| == n * SECTOR
    modifies v`disk
    ensures v.disk == Splice(old(v.disk), lba * SECTOR, src)
  {
    v.disk := Splice(v.disk, lba * SECTOR, src);
  }

  /** The stretch [from, from + n) of a sector, copied to `at`. */
  method CopyOut(src: array<byte>, from: nat, n: nat, out: array<byte>, at: nat)
    requires from + n <= src.Length && at + n <= out.Length && src != out
    modifies out
    ensures out[at..at + n] == src[from..from + n]
    ensures forall x :: 0 <= x < out.Length && !(at <= x < at + n) ==> out[x] == old(out[x])
  {
    forall x | at <= x < at + n {
      out[x] := src[from + x - at];
    }
  }

  /** One round of the reading loop: part of a sector goes to the buffer. */
  method ReadChunk(v: Volume, pos: nat, chunk: nat, out: array<byte>, at: nat)
    requires v.bufSector.Length == SECTOR && |v.disk| % SECTOR == 0 && out != v.bufSector
    requires pos % SECTOR + chunk <= SECTOR && pos + chunk <= |v.disk| && 0 < chunk && at + chunk <= out.Length
    modifies out, v.bufSector
    ensures out[..at + chunk] == old(out[..at]) + v.disk[pos..pos + chunk]
    ensures forall x :: at + chunk <= x < out.Length ==> out[x] == old(out[x])
  {
    var lba, o := pos / SECTOR, pos % SECTOR;
    ReadSectors(v, lba, 1, v.bufSector);
    ghost var sector := v.bufSector[..];
    assert sector == sector[..SECTOR];
    SectorSlice(v.disk, sector, lba * SECTOR, o, chunk);
    CopyOut(v.bufSector, o, chunk, out, at);
  }

  /** read_abs_bytes. */
  method ReadAbs(v: Volume, off: nat, size: nat, out: array<byte>)
    requires v.bufSector.Length == SECTOR && |v.disk| % SECTOR == 0
    requires off + size <= |v.disk| && size <= out.Length && out != v.bufSector
    modifies out, v.bufSector
    ensures out[..size] == v.disk[off..off + size]
    ensures forall x :: size <= x < out.Length ==> out[x] == old(out[x])
  {
    var k := 0;
    while k < size
      invariant k <= size
      invariant out[..k] == v.disk[off..off + k]
      invariant forall x :: k <= x < out.Length ==> out[x] == old(out[x])
    {
      var o := (off + k) % SECTOR;
      var chunk := if SECTOR - o < size - k then SECTOR - o else size - k;
      ReadChunk(v, off + k, chunk, out, k);
      GrowSlice(v.disk, off, k, chunk, out[..k + chunk]);
      k := k + chunk;
    }
  }

  lemma SectorSlice(d: seq<byte>, sector: seq<byte>, at: nat, o: nat, n: nat)
    requires at + SECTOR <= |d| && o + n <= SECTOR && |sector| == SECTOR && sector == d[at..at + SECTOR]
    ensures sector[o..o + n] == d[at + o..at + o + n]
  {
    var a, b := sector[o..o + n], d[at + o..at + o + n];
    forall x | 0 <= x < n ensures a[x] == b[x] {
      assert sector[o + x] == d[at + (o + x)];
    }
  }

  lemma GrowSlice(d: seq<byte>, off: nat, k: nat, n: nat, s: seq<byte>)
    requires off + k + n <= |d| && |s| == k + n
    requires s[..k] == d[off..off + k] && s[k..] == d[off + k..off + k + n]
    ensures s == d[off..off + (k + n)]
  {
    assert s == s[..k] + s[k..];
  }

  /** write_abs_bytes: whole sectors directly, partial ones by reading, patching and writing back. */
  method WriteAbs(v: Volume, off: nat, src: seq<byte>)
    requires v.bufSector.Length == SECTOR && |v.disk| % SECTOR == 0 && off + |src| <= |v.disk|
    modifies v`disk, v.bufSector
    ensures v.disk == Splice(old(v.disk), off, src)
  {
    ghost var d := v.disk;
    var k := 0;
    assert Splice(d, off, src[..0]) == d;
    while k < |src|
      invariant k <= |src| && |v.disk| == |d|
      invariant v.disk == Splice(d, off, src[..k])
    {
      var lba, o := (off + k) / SECTOR, (off + k) % SECTOR;
      var chunk := if SECTOR - o < |src| - k then SECTOR - o else |src| - k;
      PatchSector(v, lba, o, src[k..k + chunk]);
      SpliceGrows(d, off, src, k, chunk);
      k := k + chunk;
    }
    assert src[..k] == src;
  }

  /** Replace part of one sector of the disk. */
  method PatchSector(v: Volume, lba: nat, o: nat, t: seq<byte>)
    requires v.bufSector.Length == SECTOR && (lba + 1) * SECTOR <= |v.disk| && o + |t| <= SECTOR
    modifies v`disk, v.bufSector
    ensures v.disk == Splice(old(v.disk), lba * SECTOR + o, t)
  {
    if o == 0 && |t| == SECTOR {
      WriteSectors(v, lba, 1, t);
    } else {
      ReadSectors(v, lba, 1, v.bufSector);
      ghost var sector := v.bufSector[..];
      forall x | 0 <= x < |t| {
        v.bufSector[o + x] := t[x];
      }
      WriteSectors(v, lba, 1, v.bufSector[..]);
      assert sector == sector[..SECTOR];
      PatchedSector(old(v.disk), lba * SECTOR, o, t, sector, v.bufSector[..]);
    }
  }

  lemma PatchedSector(d: seq<byte>, at: nat, o: nat, t: seq<byte>, sector: seq<byte>, patched: seq<byte>)
    requires at + SECTOR <= |d| && o + |t| <= SECTOR && |sector| == |patched| == SECTOR && sector == d[at..at + SECTOR]
    requires forall x :: 0 <= x < SECTOR ==> patched[x] == if o <= x < o + |t| then t[x - o] else sector[x]
    ensures Splice(d, at, patched) == Splice(d, at + o, t)
  {
    hide Splice;
    forall x | 0 <= x < |d| ensures Splice(d, at, patched)[x] == Splice(d, at + o, t)[x] {
      SpliceAt(d, at, patched, x);
      SpliceAt(d, at + o, t, x);
    }
  }

  lemma SpliceGrows(d: seq<byte>, off: nat, src: seq<byte>, k: nat, n: nat)
    requires k + n <= |src| && off + |src| <= |d|
    ensures Splice(Splice(d, off, src[..k]), off + k, src[k..k + n]) == Splice(d, off, src[..k + n])
  {
    var a, b := Splice(Splice(d, off, src[..k]), off + k, src[k..k + n]), Splice(d, off, src[..k + n]);
    forall x | 0 <= x < |d| ensures a[x] == b[x] {
      SpliceAt(Splice(d, off, src[..k]), off + k, src[k..k + n], x);
      SpliceAt(d, off, src[..k], x);
      SpliceAt(d, off, src[..k + n], x);
    }
  }

  /** read_block. */
  method ReadBlock(v: Volume, b: nat, out: array<byte>)
    requires v.Ready() && b < v.geo.blockCount && out.Length == v.geo.bs
    modifies out
    ensures out[..] == Reg(v.geo, v.disk, Data(b))
  {
    var n := v.geo.bs / SECTOR;
    MulMonotone(b + 1, v.geo.blockCount, v.geo.bs);
    assert b * n * SECTOR == b * v.geo.bs && (b * n + n) * SECTOR == (b + 1) * v.geo.bs by { InSectors(b, v.geo.bs); }
    ReadSectors(v, b * n, n, out);
    assert out[..] == out[..v.geo.bs];
  }

  lemma InSectors(b: nat, bs: nat)
    requires bs == 1024 || bs == 2048 || bs == 4096
    ensures b * (bs / SECTOR) * SECTOR == b * bs && (b * (bs / SECTOR) + bs / SECTOR) * SECTOR == (b + 1) * bs
  {
  }

  /** write_block. */
  method WriteBlock(v: Volume, b: nat, src: array<byte>)
    requires v.Ready() && b < v.geo.blockCount && src.Length == v.geo.bs
    modifies v`disk
    ensures v.disk == Put(v.geo, old(v.disk), Data(b), src[..])
  {
    var n := v.geo.bs / SECTOR;
    MulMonotone(b + 1, v.geo.blockCount, v.geo.bs);
    assert b * n * SECTOR == b * v.geo.bs && (b * n + n) * SECTOR == (b + 1) * v.geo.bs by { InSectors(b, v.geo.bs); }
    WriteSectors(v, b * n, n, src[..]);
  }
}
