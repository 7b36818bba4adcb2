/**
 A directory block (src/fs/ext2/ext2_dir.c, ext2_inode.c): records laid end to end by their
 rec_len, each naming an inode or unused, and what adding, removing and renaming an entry
 does to the list of names.
 */
module Ext2DirBlock {
  import opened Bits
  import opened Words
  import opened Ext2Layout

  const HEADER := 8

  datatype Binding = Binding(name: seq<byte>, ino: nat, ftype: byte)

  // ---------------------------------------------------------------- records

  function Ino(b: seq<byte>, o: nat): nat
    requires o + HEADER <= |b|
  {
    Get32(b, o)
  }

  function RecLen(b: seq<byte>, o: nat): nat
    requires o + HEADER <= |b|
  {
    Get16(b, o + 4)
  }

  function NameLen(b: seq<byte>, o: nat): nat
    requires o + HEADER <= |b|
  {
    b[o + 6]
  }

  function FType(b: seq<byte>, o: nat): byte
    requires o + HEADER <= |b|
  {
    b[o + 7]
  }

  /** The record at `o` holds its name and lies in the block. */
  predicate RecordOk(b: seq<byte>, o: nat) {
    o + HEADER <= |b| && RecLen(b, o) >= HEADER + NameLen(b, o) && o + RecLen(b, o) <= |b|
  }

  function Name(b: seq<byte>, o: nat): seq<byte>
    requires RecordOk(b, o)
  {
    b[o + HEADER..o + HEADER + NameLen(b, o)]
  }

  /** The records from `o` on end exactly at `x`. */
  predicate Tiled(b: seq<byte>, o: nat, x: nat)
    decreases x - o
  {
    o == x || (o < x && RecordOk(b, o) && o + RecLen(b, o) <= x && Tiled(b, o + RecLen(b, o), x))
  }

  function BindingAt(b: seq<byte>, o: nat): seq<Binding>
    requires RecordOk(b, o)
  {
    if Ino(b, o) == 0 then [] else [Binding(Name(b, o), Ino(b, o), FType(b, o))]
  }

  /** The names in use in the records from `o` to `x`, in order. */
  function Bindings(b: seq<byte>, o: nat, x: nat): seq<Binding>
    requires Tiled(b, o, x)
    decreases x - o
  {
    if o == x then [] else BindingAt(b, o) + Bindings(b, o + RecLen(b, o), x)
  }

  lemma {:induction false} TiledJoin(b: seq<byte>, o: nat, m: nat, x: nat)
    requires Tiled(b, o, m) && Tiled(b, m, x)
    ensures Tiled(b, o, x) && Bindings(b, o, x) == Bindings(b, o, m) + Bindings(b, m, x)
    decreases m - o
  {
    hide BindingAt, NameLen, Get16;
    if o < m {
      var y := o + RecLen(b, o);
      TiledJoin(b, y, m, x);
      assert BindingAt(b, o) + (Bindings(b, y, m) + Bindings(b, m, x))
          == (BindingAt(b, o) + Bindings(b, y, m)) + Bindings(b, m, x);
    }
  }

  lemma {:induction false} TiledOrder(b: seq<byte>, o: nat, x: nat)
    requires Tiled(b, o, x)
    ensures o <= x && (o < x ==> x <= |b|)
    decreases x - o
  {
    if o < x {
      TiledOrder(b, o + RecLen(b, o), x);
    }
  }

  /** Blocks that agree on a stretch have the same records there. */
  lemma {:induction false} TiledLocal(b: seq<byte>, c: seq<byte>, o: nat, x: nat)
    requires Tiled(b, o, x) && |b| == |c| && forall k :: o <= k < x && k < |b| ==> c[k] == b[k]
    ensures Tiled(c, o, x) && Bindings(c, o, x) == Bindings(b, o, x)
    decreases x - o
  {
    if o < x {
      TiledOrder(b, o, x);
      RecordLocal(b, c, o);
      TiledLocal(b, c, o + RecLen(b, o), x);
    }
  }

  lemma RecordLocal(b: seq<byte>, c: seq<byte>, o: nat)
    requires RecordOk(b, o) && |b| == |c| && forall k :: o <= k < o + RecLen(b, o) ==> c[k] == b[k]
    ensures RecordOk(c, o) && RecLen(c, o) == RecLen(b, o) && BindingAt(c, o) == BindingAt(b, o)
  {
    assert c[o + 4] == b[o + 4] && c[o + 5] == b[o + 5] && c[o + 6] == b[o + 6] && c[o + 7] == b[o + 7];
    assert c[o] == b[o] && c[o + 1] == b[o + 1] && c[o + 2] == b[o + 2] && c[o + 3] == b[o + 3];
    assert c[o + HEADER..o + HEADER + NameLen(b, o)] == b[o + HEADER..o + HEADER + NameLen(b, o)];
  }

  /** The record at `x` is one of those that tile the block. */
  predicate InPlace(b: seq<byte>, x: nat) {
    Tiled(b, 0, x) && RecordOk(b, x) && Tiled(b, x + RecLen(b, x), |b|)
  }

  /** `c` is `b` but for the place of the record at `x`, which records with the names `added` fill. */
  predicate Replaces(b: seq<byte>, c: seq<byte>, x: nat, added: seq<Binding>) {
    && RecordOk(b, x) && |c| == |b|
    && (forall k :: 0 <= k < |b| && !(x <= k < x + RecLen(b, x)) ==> c[k] == b[k])
    && Tiled(c, x, x + RecLen(b, x)) && Bindings(c, x, x + RecLen(b, x)) == added
  }

  /**
   The names of `b` are those before `x`, the one at `x` and those after; in `c` `added` takes
   the place of the one at `x`.
   */
  predicate Exchanged(b: seq<byte>, c: seq<byte>, x: nat, added: seq<Binding>) {
    && InPlace(b, x) && Tiled(b, 0, |b|) && Tiled(c, 0, |c|) && |c| == |b|
    && var before, after := Bindings(b, 0, x), Bindings(b, x + RecLen(b, x), |b|);
       Bindings(b, 0, |b|) == before + BindingAt(b, x) + after && Bindings(c, 0, |c|) == before + added + after
  }

  /** A record replaced by others that fill its place: the rest of the list stays around the new names. */
  lemma Surgery(b: seq<byte>, c: seq<byte>, x: nat, added: seq<Binding>)
    requires InPlace(b, x) && Replaces(b, c, x, added)
    ensures Exchanged(b, c, x, added)
  {
    hide Tiled, Bindings, BindingAt, Get16, NameLen;
    var y := x + RecLen(b, x);
    OneRecord(b, x);
    Outside(b, c, x, added);
    Join3(c, x, y);
    Join3(b, x, y);
    hide Replaces;
  }

  /** The records before and after are untouched. */
  lemma Outside(b: seq<byte>, c: seq<byte>, x: nat, added: seq<Binding>)
    requires InPlace(b, x) && Replaces(b, c, x, added)
    ensures Tiled(c, 0, x) && Bindings(c, 0, x) == Bindings(b, 0, x)
    ensures var y := x + RecLen(b, x); Tiled(c, y, |b|) && Bindings(c, y, |b|) == Bindings(b, y, |b|)
  {
    hide Tiled, Bindings, BindingAt, Get16, NameLen;
    TiledLocal(b, c, 0, x);
    TiledLocal(b, c, x + RecLen(b, x), |b|);
  }

  lemma Join3(b: seq<byte>, x: nat, y: nat)
    requires Tiled(b, 0, x) && Tiled(b, x, y) && Tiled(b, y, |b|)
    ensures Tiled(b, 0, |b|) && Bindings(b, 0, |b|) == Bindings(b, 0, x) + Bindings(b, x, y) + Bindings(b, y, |b|)
  {
    hide Tiled, Bindings;
    TiledJoin(b, 0, x, y);
    TiledJoin(b, 0, y, |b|);
  }

  lemma OneRecord(b: seq<byte>, x: nat)
    requires RecordOk(b, x)
    ensures Tiled(b, x, x + RecLen(b, x)) && Bindings(b, x, x + RecLen(b, x)) == BindingAt(b, x)
  {
    assert Bindings(b, x + RecLen(b, x), x + RecLen(b, x)) == [];
  }

  // ---------------------------------------------------------------- writing records

  /** A whole record: header, name, zeroes up to its length. */
  function RecordBytes(ino: nat, rec: nat, name: seq<byte>, ftype: byte): (r: seq<byte>)
    requires ino < LIMIT32 && |name| < 256 && HEADER + |name| <= rec < LIMIT16
    ensures |r| == rec
  {
    Bytes32(ino) + Bytes16(rec) + [|name|, ftype] + name + seq(rec - HEADER - |name|, _ => 0)
  }

  /** Reading such a record gives back what went into it. */
  lemma RecordReads(b: seq<byte>, o: nat, ino: nat, rec: nat, name: seq<byte>, ftype: byte)
    requires ino < LIMIT32 && |name| < 256 && HEADER + |name| <= rec < LIMIT16 && o + rec <= |b|
    requires b[o..o + rec] == RecordBytes(ino, rec, name, ftype)
    ensures RecordOk(b, o) && RecLen(b, o) == rec && Ino(b, o) == ino && Name(b, o) == name && FType(b, o) == ftype
    ensures Tiled(b, o, o + rec) && Bindings(b, o, o + rec) == if ino == 0 then [] else [Binding(name, ino, ftype)]
  {
    RecordFields(b, o, ino, rec, name, ftype);
    hide RecordBytes, Get16, Get32, NameLen;
    OneRecord(b, o);
  }

  lemma RecordFields(b: seq<byte>, o: nat, ino: nat, rec: nat, name: seq<byte>, ftype: byte)
    requires ino < LIMIT32 && |name| < 256 && HEADER + |name| <= rec < LIMIT16 && o + rec <= |b|
    requires b[o..o + rec] == RecordBytes(ino, rec, name, ftype)
    ensures RecordOk(b, o) && RecLen(b, o) == rec && Ino(b, o) == ino && Name(b, o) == name && FType(b, o) == ftype
  {
    var r := RecordBytes(ino, rec, name, ftype);
    RecordParts(ino, rec, name, ftype);
    hide RecordBytes;
    SubSlice(b, o, rec, 0, 4);
    Get32Local(b, Bytes32(ino), o, 0);
    Bytes32Value(ino);
    SubSlice(b, o, rec, 4, 6);
    Get16Local(b, Bytes16(rec), o + 4, 0);
    Bytes16Value(rec);
    SubSlice(b, o, rec, 6, 8);
    assert b[o + 6] == r[6..8][0] && b[o + 7] == r[6..8][1];
    SubSlice(b, o, rec, HEADER, HEADER + |name|);
  }

  lemma SubSlice(b: seq<byte>, o: nat, n: nat, i: nat, j: nat)
    requires i <= j <= n && o + n <= |b|
    ensures b[o + i..o + j] == b[o..o + n][i..j]
  {
    var s, t := b[o + i..o + j], b[o..o + n][i..j];
    forall k | 0 <= k < j - i ensures s[k] == t[k] {
      assert b[o..o + n][i + k] == b[o + (i + k)];
    }
  }

  lemma RecordParts(ino: nat, rec: nat, name: seq<byte>, ftype: byte)
    requires ino < LIMIT32 && |name| < 256 && HEADER + |name| <= rec < LIMIT16
    ensures var r := RecordBytes(ino, rec, name, ftype);
            && r[0..4] == Bytes32(ino)[0..4] && r[4..6] == Bytes16(rec)[0..2] && r[6..8] == [|name|, ftype]
            && r[HEADER..HEADER + |name|] == name
  {
  }

  // ---------------------------------------------------------------- the changes

  /** ext2_dir_entry_size: header and name, rounded up to four bytes. */
  function Size(n: nat): (r: nat)
    ensures HEADER + n <= r <= HEADER + n + 3
  {
    (HEADER + n + 3) / 4 * 4
  }

  /** The record at `x` marked unused. */
  function Removed(b: seq<byte>, x: nat): (c: seq<byte>)
    requires RecordOk(b, x)
    ensures |c| == |b|
  {
    Splice(b, x, Bytes32(0) + Bytes16(RecLen(b, x)) + [0, 0])
  }

  lemma RemovedIs(b: seq<byte>, x: nat)
    requires InPlace(b, x)
    ensures Exchanged(b, Removed(b, x), x, [])
  {
    var c, rec := Removed(b, x), RecLen(b, x);
    HeaderReads(b, x, 0, rec, 0, 0);
    assert BindingAt(c, x) == [];
    OneRecord(c, x);
    SpliceAround(b, x, Bytes32(0) + Bytes16(rec) + [0, 0], rec);
    hide Removed, Tiled, Bindings, BindingAt;
    assert Replaces(b, c, x, []);
    Surgery(b, c, x, []);
  }

  /** A header written over another. */
  lemma HeaderReads(b: seq<byte>, x: nat, ino: nat, rec: nat, n: byte, ftype: byte)
    requires x + HEADER <= |b| && ino < LIMIT32 && rec < LIMIT16
    ensures var c := Splice(b, x, Bytes32(ino) + Bytes16(rec) + [n, ftype]);
            Ino(c, x) == ino && RecLen(c, x) == rec && NameLen(c, x) == n && FType(c, x) == ftype
  {
    var head := Bytes32(ino) + Bytes16(rec) + [n, ftype];
    var c := Splice(b, x, head);
    assert c[x..x + HEADER] == head;
    SubSlice(c, x, HEADER, 0, 4);
    SubSlice(c, x, HEADER, 4, 6);
    SubSlice(c, x, HEADER, 6, 8);
    assert head[0..4] == Bytes32(ino)[0..4] && head[4..6] == Bytes16(rec)[0..2] && head[6..8] == [n, ftype];
    hide Splice;
    Get32Local(c, Bytes32(ino), x, 0);
    Bytes32Value(ino);
    Get16Local(c, Bytes16(rec), x + 4, 0);
    Bytes16Value(rec);
    assert c[x + 6..x + 8][0] == n && c[x + 6..x + 8][1] == ftype;
  }

  /** A splice inside a record changes nothing outside it. */
  lemma SpliceAround(b: seq<byte>, x: nat, t: seq<byte>, rec: nat)
    requires |t| <= rec && x + rec <= |b|
    ensures forall k :: 0 <= k < |b| && !(x <= k < x + rec) ==> Splice(b, x, t)[k] == b[k]
  {
  }

  /** The entry fits into the record at `x`. */
  predicate FillFits(b: seq<byte>, x: nat, e: Binding) {
    RecordOk(b, x) && 0 < e.ino < LIMIT32 && |e.name| < 256 && HEADER + |e.name| <= RecLen(b, x)
  }

  /** The record at `x` filled with a new entry. */
  function Filled(b: seq<byte>, x: nat, e: Binding): (c: seq<byte>)
    requires FillFits(b, x, e)
    ensures |c| == |b|
  {
    Splice(b, x, RecordBytes(e.ino, RecLen(b, x), e.name, e.ftype))
  }

  lemma FilledAt(b: seq<byte>, x: nat, e: Binding)
    requires FillFits(b, x, e)
    ensures Replaces(b, Filled(b, x, e), x, [e])
  {
    var c, rec := Filled(b, x, e), RecLen(b, x);
    var t := RecordBytes(e.ino, rec, e.name, e.ftype);
    SpliceAround(b, x, t, rec);
    assert c[x..x + rec] == t;
    hide RecordBytes, Splice, Tiled, Bindings, Filled;
    RecordReads(c, x, e.ino, rec, e.name, e.ftype);
  }

  lemma FilledIs(b: seq<byte>, x: nat, e: Binding)
    requires InPlace(b, x) && FillFits(b, x, e)
    ensures Exchanged(b, Filled(b, x, e), x, [e])
  {
    hide Filled, Tiled, Bindings, BindingAt, RecordOk, RecLen, FillFits;
    FilledAt(b, x, e);
    Surgery(b, Filled(b, x, e), x, [e]);
  }

  /** The entry fits into what the record at `x` does not need. */
  predicate SplitFits(b: seq<byte>, x: nat, e: Binding) {
    RecordOk(b, x) && 0 < e.ino < LIMIT32 && |e.name| < 256 && Size(NameLen(b, x)) + HEADER + |e.name| <= RecLen(b, x)
  }

  /** The record at `x` cut to what it needs, the rest of it made a new entry. */
  function SplitOff(b: seq<byte>, x: nat, e: Binding): (c: seq<byte>)
    requires SplitFits(b, x, e)
    ensures |c| == |b|
  {
    var used := Size(NameLen(b, x));
    Splice(Splice(b, x + 4, Bytes16(used)), x + used, RecordBytes(e.ino, RecLen(b, x) - used, e.name, e.ftype))
  }

  predicate Headed(b: seq<byte>, c: seq<byte>, x: nat, used: nat, t: seq<byte>) {
    && RecordOk(b, x) && |c| == |b| && used <= RecLen(b, x)
    && RecordOk(c, x) && RecLen(c, x) == used && BindingAt(c, x) == BindingAt(b, x)
    && c[x + used..x + RecLen(b, x)] == t
    && forall k :: 0 <= k < |b| && !(x <= k < x + RecLen(b, x)) ==> c[k] == b[k]
  }

  lemma SplitHead(b: seq<byte>, x: nat, used: nat, t: seq<byte>)
    requires RecordOk(b, x) && HEADER + NameLen(b, x) <= used <= RecLen(b, x) && |t| == RecLen(b, x) - used
    ensures Headed(b, Splice(Splice(b, x + 4, Bytes16(used)), x + used, t), x, used, t)
  {
    var b1 := Splice(b, x + 4, Bytes16(used));
    var c := Splice(b1, x + used, t);
    assert c[x + 4..x + 6] == b1[x + 4..x + 6] == Bytes16(used)[0..2];
    Get16Local(c, Bytes16(used), x + 4, 0);
    Bytes16Value(used);
    assert c[x..x + 4] == b[x..x + 4];
    Get32Local(c, b, x, x);
    assert c[x + 6] == b[x + 6] && c[x + 7] == b[x + 7];
    assert c[x + HEADER..x + HEADER + NameLen(b, x)] == b[x + HEADER..x + HEADER + NameLen(b, x)];
  }

  lemma SplitParts(b: seq<byte>, c: seq<byte>, x: nat, used: nat, e: Binding)
    requires RecordOk(b, x) && used + HEADER + |e.name| <= RecLen(b, x) && 0 < e.ino < LIMIT32 && |e.name| < 256
    requires Headed(b, c, x, used, RecordBytes(e.ino, RecLen(b, x) - used, e.name, e.ftype))
    ensures Replaces(b, c, x, BindingAt(b, x) + [e])
  {
    var rec := RecLen(b, x);
    OneRecord(c, x);
    hide Tiled, Bindings, BindingAt, RecordBytes, Splice;
    RecordReads(c, x + used, e.ino, rec - used, e.name, e.ftype);
    TiledJoin(c, x, x + used, x + rec);
  }

  lemma SplitOffIs(b: seq<byte>, x: nat, e: Binding)
    requires InPlace(b, x) && SplitFits(b, x, e)
    ensures Exchanged(b, SplitOff(b, x, e), x, BindingAt(b, x) + [e])
  {
    hide Tiled, RecordOk, Replaces, Exchanged, SplitFits, SplitOff;
    SplitAt(b, x, e);
    Surgery(b, SplitOff(b, x, e), x, BindingAt(b, x) + [e]);
  }

  lemma SplitAt(b: seq<byte>, x: nat, e: Binding)
    requires SplitFits(b, x, e)
    ensures Replaces(b, SplitOff(b, x, e), x, BindingAt(b, x) + [e])
  {
    hide BindingAt, Splice, Headed, RecordBytes, Size, Replaces, Get16;
    var rec, used := RecLen(b, x), Size(NameLen(b, x));
    SplitHead(b, x, used, RecordBytes(e.ino, rec - used, e.name, e.ftype));
    SplitParts(b, SplitOff(b, x, e), x, used, e);
  }

  /** The record at `x` bound to another inode. */
  function Relinked(b: seq<byte>, x: nat, ino: nat): (c: seq<byte>)
    requires RecordOk(b, x) && ino < LIMIT32
    ensures |c| == |b|
  {
    Splice(b, x, Bytes32(ino))
  }

  lemma RelinkedIs(b: seq<byte>, x: nat, ino: nat)
    requires InPlace(b, x) && 0 < ino < LIMIT32
    ensures Exchanged(b, Relinked(b, x, ino), x, [Binding(Name(b, x), ino, FType(b, x))])
  {
    hide Relinked, Tiled, Bindings, BindingAt, Splice, Get16, Get32, NameLen;
    RelinkedAt(b, x, ino);
    OneRecord(Relinked(b, x, ino), x);
    Surgery(b, Relinked(b, x, ino), x, [Binding(Name(b, x), ino, FType(b, x))]);
  }

  lemma RelinkedAt(b: seq<byte>, x: nat, ino: nat)
    requires RecordOk(b, x) && 0 < ino < LIMIT32
    ensures var c := Relinked(b, x, ino);
            && RecordOk(c, x) && RecLen(c, x) == RecLen(b, x)
            && BindingAt(c, x) == [Binding(Name(b, x), ino, FType(b, x))]
            && forall k :: 0 <= k < |b| && !(x <= k < x + RecLen(b, x)) ==> c[k] == b[k]
  {
    var c := Relinked(b, x, ino);
    Put32Get(b, x, ino);
    assert c[x + 4..x + 6] == b[x + 4..x + 6];
    Get16Local(c, b, x + 4, x + 4);
    assert c[x + 6] == b[x + 6] && c[x + 7] == b[x + 7];
    assert c[x + HEADER..x + HEADER + NameLen(b, x)] == b[x + HEADER..x + HEADER + NameLen(b, x)];
  }

  /** The record at `x` under another name. */
  function Renamed(b: seq<byte>, x: nat, name: seq<byte>): (c: seq<byte>)
    requires RecordOk(b, x) && |name| < 256 && HEADER + |name| <= RecLen(b, x)
    ensures |c| == |b|
  {
    Splice(Splice(b, x + 6, [|name|, FType(b, x)]), x + HEADER, name)
  }

  lemma RenamedIs(b: seq<byte>, x: nat, name: seq<byte>)
    requires InPlace(b, x) && Ino(b, x) != 0 && |name| < 256 && HEADER + |name| <= RecLen(b, x)
    ensures Exchanged(b, Renamed(b, x, name), x, [Binding(name, Ino(b, x), FType(b, x))])
  {
    hide Renamed, Tiled, Bindings, BindingAt, Splice, Get16, Get32, NameLen;
    var c := Renamed(b, x, name);
    RenamedAt(b, x, name);
    OneRecord(c, x);
    Surgery(b, c, x, [Binding(name, Ino(b, x), FType(b, x))]);
  }

  lemma RenamedAt(b: seq<byte>, x: nat, name: seq<byte>)
    requires RecordOk(b, x) && Ino(b, x) != 0 && |name| < 256 && HEADER + |name| <= RecLen(b, x)
    ensures var c := Renamed(b, x, name);
            && RecordOk(c, x) && RecLen(c, x) == RecLen(b, x)
            && BindingAt(c, x) == [Binding(name, Ino(b, x), FType(b, x))]
            && forall k :: 0 <= k < |b| && !(x <= k < x + RecLen(b, x)) ==> c[k] == b[k]
  {
    var b1 := Splice(b, x + 6, [|name|, FType(b, x)]);
    var c := Renamed(b, x, name);
    assert c[x..x + 4] == b1[x..x + 4] == b[x..x + 4];
    Get32Local(c, b, x, x);
    assert c[x + 4..x + 6] == b1[x + 4..x + 6] == b[x + 4..x + 6];
    Get16Local(c, b, x + 4, x + 4);
    assert c[x + 6..x + 8] == b1[x + 6..x + 8] == [|name|, FType(b, x)];
    assert c[x + 6] == c[x + 6..x + 8][0] && c[x + 7] == c[x + 6..x + 8][1];
    assert c[x + HEADER..x + HEADER + |name|] == name;
  }
}
