/**
 Walking and changing one directory block in the block buffer (src/fs/ext2/ext2_dir.c,
 ext2_inode.c): lookup, insertion, removal, renaming, the emptiness test, and the first block.
 */
module Ext2DirScan {
  import opened Bits
  import opened Words
  import opened Ext2DirBlock

  datatype Scan = Found(off: nat) | Absent | Malformed

  /** A block whose records end exactly at its end. */
  predicate Whole(b: seq<byte>) {
    Tiled(b, 0, |b|)
  }

  function Names(b: seq<byte>): seq<Binding>
    requires Whole(b)
  {
    Bindings(b, 0, |b|)
  }

  predicate Unnamed(list: seq<Binding>, name: seq<byte>) {
    forall k :: 0 <= k < |list| ==> list[k].name != name
  }

  /** The walk from the start is determined: what is tiled up to `o` and as a whole is tiled from `o` on. */
  lemma {:induction false} TiledRest(b: seq<byte>, s: nat, o: nat)
    requires Tiled(b, s, o) && Tiled(b, s, |b|) && o <= |b|
    ensures Tiled(b, o, |b|)
    decreases o - s
  {
    if s < o {
      TiledRest(b, s + RecLen(b, s), o);
    }
  }

  lemma {:induction false} TiledBetween(b: seq<byte>, s: nat, o: nat, x: nat)
    requires Tiled(b, s, o) && Tiled(b, s, x) && o <= x
    ensures Tiled(b, o, x)
    decreases o - s
  {
    if s < o {
      TiledBetween(b, s + RecLen(b, s), o, x);
    }
  }

  /** Used records have different places in the list of names. */
  lemma UsedPlaces(b: seq<byte>, o: nat, x: nat)
    requires Tiled(b, 0, o) && Tiled(b, 0, x) && o < x && RecordOk(b, o) && Ino(b, o) != 0
    ensures |Bindings(b, 0, o)| < |Bindings(b, 0, x)|
  {
    TiledBetween(b, 0, o, x);
    TiledJoin(b, 0, o, x);
  }

  /** One more record walked over. */
  lemma WalkOn(b: seq<byte>, o: nat)
    requires Tiled(b, 0, o) && RecordOk(b, o)
    ensures Tiled(b, 0, o + RecLen(b, o)) && Bindings(b, 0, o + RecLen(b, o)) == Bindings(b, 0, o) + BindingAt(b, o)
  {
    OneRecord(b, o);
    hide Tiled, Bindings, BindingAt;
    TiledJoin(b, 0, o, o + RecLen(b, o));
  }

  /** In a whole block the walk meets well-formed records up to the end. */
  lemma WalkSound(b: seq<byte>, o: nat)
    requires Tiled(b, 0, o) && o <= |b|
    ensures Whole(b) && o < |b| ==> InPlace(b, o)
    ensures Whole(b) && o + HEADER > |b| ==> o == |b|
  {
    if Whole(b) {
      TiledRest(b, 0, o);
    }
  }

  lemma InPlaceWhole(b: seq<byte>, x: nat)
    requires InPlace(b, x)
    ensures Whole(b) && Names(b) == Bindings(b, 0, x) + BindingAt(b, x) + Bindings(b, x + RecLen(b, x), |b|)
  {
    OneRecord(b, x);
    hide Tiled, Bindings, BindingAt;
    Join3(b, x, x + RecLen(b, x));
  }

  /** The record at the offset is the first in use with the name. */
  predicate FirstNamed(b: seq<byte>, x: nat, name: seq<byte>) {
    Tiled(b, 0, x) && RecordOk(b, x) && Ino(b, x) != 0 && Name(b, x) == name && Unnamed(Bindings(b, 0, x), name)
  }

  /** The block loop of find_directory_entry and find_in_directory. */
  method FindInBlock(buf: array<byte>, name: seq<byte>) returns (r: Scan)
    ensures r.Found? ==> FirstNamed(buf[..], r.off, name) && (Whole(buf[..]) ==> InPlace(buf[..], r.off))
    ensures Whole(buf[..]) ==> !r.Malformed? && (r.Absent? ==> Unnamed(Names(buf[..]), name))
  {
    ghost var b := buf[..];
    var o := 0;
    hide Bindings, BindingAt, Get16, Get32;
    assert Tiled(b, 0, 0);
    NoneYet(b, name);
    while o + HEADER <= buf.Length
      invariant o <= buf.Length && Tiled(b, 0, o) && Unnamed(Bindings(b, 0, o), name)
      decreases buf.Length - o
    {
      WalkSound(b, o);
      var rec := Get16(buf[..], o + 4);
      if rec < HEADER + NameLen(buf[..], o) || o + rec > buf.Length {
        return Malformed;
      }
      if Get32(buf[..], o) != 0 && Name(buf[..], o) == name {
        return Found(o);
      }
      WalkOn(b, o);
      StillUnnamed(b, o, name);
      o := o + rec;
    }
    WalkSound(b, o);
    return Absent;
  }

  lemma NoneYet(b: seq<byte>, name: seq<byte>)
    ensures Tiled(b, 0, 0) && Unnamed(Bindings(b, 0, 0), name)
  {
  }

  lemma StillUnnamed(b: seq<byte>, o: nat, name: seq<byte>)
    requires Tiled(b, 0, o) && RecordOk(b, o) && Unnamed(Bindings(b, 0, o), name)
    requires !(Ino(b, o) != 0 && Name(b, o) == name)
    ensures Unnamed(Bindings(b, 0, o) + BindingAt(b, o), name)
  {
  }

  /** `e` has been put somewhere into the list. */
  ghost predicate Inserted(old1: seq<Binding>, new1: seq<Binding>, e: Binding) {
    exists k :: InsertedAt(old1, new1, e, k)
  }

  predicate InsertedAt(old1: seq<Binding>, new1: seq<Binding>, e: Binding, k: int) {
    0 <= k <= |old1| && new1 == old1[..k] + [e] + old1[k..]
  }

  lemma Unused(b: seq<byte>, x: nat)
    requires RecordOk(b, x) && Ino(b, x) == 0
    ensures BindingAt(b, x) == []
  {
  }

  lemma FilledInserts(b: seq<byte>, x: nat, e: Binding)
    requires InPlace(b, x) && Ino(b, x) == 0 && FillFits(b, x, e)
    ensures Whole(b) && Whole(Filled(b, x, e)) && Inserted(Names(b), Names(Filled(b, x, e)), e)
  {
    hide Bindings, BindingAt, Filled, Tiled, RecordOk, RecLen;
    Unused(b, x);
    FilledIs(b, x, e);
    assert InsertedAt(Names(b), Names(Filled(b, x, e)), e, |Bindings(b, 0, x)|);
  }

  lemma SplitInserts(b: seq<byte>, x: nat, e: Binding)
    requires InPlace(b, x) && SplitFits(b, x, e)
    ensures Whole(b) && Whole(SplitOff(b, x, e)) && Inserted(Names(b), Names(SplitOff(b, x, e)), e)
  {
    hide Bindings, BindingAt, SplitOff, Tiled, SplitFits, RecordOk, RecLen;
    SplitOffIs(b, x, e);
    assert InsertedAt(Names(b), Names(SplitOff(b, x, e)), e, |Bindings(b, 0, x) + BindingAt(b, x)|);
  }

  // ---------------------------------------------------------------- what insertion leaves in place

  /** The record at `x`, if it is one of the block, is what it was, or it was unused and holds `e`. */
  predicate Stays(b: seq<byte>, c: seq<byte>, x: nat, e: Binding) {
    InPlace(b, x) ==>
      && InPlace(c, x)
      && ((Name(c, x) == Name(b, x) && Ino(c, x) == Ino(b, x)) ||
          (Ino(b, x) == 0 && Name(c, x) == e.name && Ino(c, x) == e.ino))
  }

  ghost predicate AllStay(b: seq<byte>, c: seq<byte>, e: Binding) {
    forall x: nat :: Stays(b, c, x, e)
  }

  lemma SameStays(b: seq<byte>, e: Binding)
    ensures AllStay(b, b, e)
  {
    hide InPlace;
  }

  lemma FieldsLocal(b: seq<byte>, c: seq<byte>, o: nat)
    requires RecordOk(b, o) && |b| == |c| && forall k :: o <= k < o + RecLen(b, o) ==> c[k] == b[k]
    ensures RecordOk(c, o) && RecLen(c, o) == RecLen(b, o) && Name(c, o) == Name(b, o) && Ino(c, o) == Ino(b, o)
  {
    assert c[o + 4] == b[o + 4] && c[o + 5] == b[o + 5] && c[o + 6] == b[o + 6] && c[o + 7] == b[o + 7];
    assert c[o] == b[o] && c[o + 1] == b[o + 1] && c[o + 2] == b[o + 2] && c[o + 3] == b[o + 3];
    assert c[o + HEADER..o + HEADER + NameLen(b, o)] == b[o + HEADER..o + HEADER + NameLen(b, o)];
  }

  lemma Ordered(b: seq<byte>, x: nat, o: nat)
    requires InPlace(b, x) && InPlace(b, o) && x < o
    ensures x + RecLen(b, x) <= o && Tiled(b, x + RecLen(b, x), o)
  {
    TiledBetween(b, 0, x, o);
  }

  /** A record outside the one replaced has its bytes. */
  lemma AwaySame(b: seq<byte>, c: seq<byte>, o: nat, x: nat, added: seq<Binding>)
    requires InPlace(b, o) && Replaces(b, c, o, added) && InPlace(b, x) && x != o
    ensures RecordOk(c, x) && RecLen(c, x) == RecLen(b, x) && Name(c, x) == Name(b, x) && Ino(c, x) == Ino(b, x)
  {
    hide Tiled, Bindings, BindingAt, Get16, Get32, NameLen;
    if x < o { Ordered(b, x, o); } else { Ordered(b, o, x); }
    FieldsLocal(b, c, x);
  }

  lemma BeforeStays(b: seq<byte>, c: seq<byte>, o: nat, x: nat, added: seq<Binding>)
    requires InPlace(b, o) && Replaces(b, c, o, added) && InPlace(b, x) && x < o
    ensures InPlace(c, x) && Name(c, x) == Name(b, x) && Ino(c, x) == Ino(b, x)
  {
    hide Tiled, Bindings, BindingAt, Get16, Get32, NameLen, Name;
    Ordered(b, x, o);
    AwaySame(b, c, o, x, added);
    var y := o + RecLen(b, o);
    Outside(b, c, o, added);
    TiledLocal(b, c, 0, x);
    TiledLocal(b, c, x + RecLen(b, x), o);
    TiledJoin(c, x + RecLen(b, x), o, y);
    TiledJoin(c, x + RecLen(b, x), y, |c|);
  }

  lemma AfterStays(b: seq<byte>, c: seq<byte>, o: nat, x: nat, added: seq<Binding>)
    requires InPlace(b, o) && Replaces(b, c, o, added) && InPlace(b, x) && o < x
    ensures InPlace(c, x) && Name(c, x) == Name(b, x) && Ino(c, x) == Ino(b, x)
  {
    hide Tiled, Bindings, BindingAt, Get16, Get32, NameLen, Name;
    Ordered(b, o, x);
    AwaySame(b, c, o, x, added);
    var y := o + RecLen(b, o);
    Outside(b, c, o, added);
    TiledLocal(b, c, y, x);
    TiledLocal(b, c, x + RecLen(b, x), |b|);
    TiledJoin(c, 0, o, y);
    TiledJoin(c, 0, y, x);
  }

  /** The record that is split stays the first of the two. */
  lemma HeadStays(b: seq<byte>, o: nat, e: Binding)
    requires InPlace(b, o) && SplitFits(b, o, e)
    ensures var c := SplitOff(b, o, e); InPlace(c, o) && Name(c, o) == Name(b, o) && Ino(c, o) == Ino(b, o)
  {
    hide Tiled, Bindings, BindingAt, RecordBytes, Splice, Get16, Get32, NameLen, Size, Name, Replaces;
    var c, used := SplitOff(b, o, e), Size(NameLen(b, o));
    HeadParts(b, o, e);
    SplitAt(b, o, e);
    Outside(b, c, o, BindingAt(b, o) + [e]);
    TiledJoin(c, o + used, o + RecLen(b, o), |c|);
  }

  lemma HeadParts(b: seq<byte>, o: nat, e: Binding)
    requires SplitFits(b, o, e)
    ensures var c, used := SplitOff(b, o, e), Size(NameLen(b, o));
            && RecordOk(c, o) && RecLen(c, o) == used && Name(c, o) == Name(b, o) && Ino(c, o) == Ino(b, o)
            && Tiled(c, o + used, o + RecLen(b, o))
  {
    hide Tiled, Bindings, RecordBytes, Splice, Get16, Get32, NameLen, Size, Name;
    var rec, used := RecLen(b, o), Size(NameLen(b, o));
    var t := RecordBytes(e.ino, rec - used, e.name, e.ftype);
    SplitHead(b, o, used, t);
    SplitFields(b, o, used, t);
    RecordReads(SplitOff(b, o, e), o + used, e.ino, rec - used, e.name, e.ftype);
  }

  lemma SplitFields(b: seq<byte>, o: nat, used: nat, t: seq<byte>)
    requires RecordOk(b, o) && HEADER + NameLen(b, o) <= used <= RecLen(b, o) && |t| == RecLen(b, o) - used
    ensures var c := Splice(Splice(b, o + 4, Bytes16(used)), o + used, t);
            RecordOk(c, o) && Name(c, o) == Name(b, o) && Ino(c, o) == Ino(b, o)
  {
    SplitHead(b, o, used, t);
    var c := Splice(Splice(b, o + 4, Bytes16(used)), o + used, t);
    assert c[o..o + 4] == b[o..o + 4];
    Get32Local(c, b, o, o);
    assert c[o + 6] == b[o + 6];
    assert c[o + HEADER..o + HEADER + NameLen(b, o)] == b[o + HEADER..o + HEADER + NameLen(b, o)];
  }

  /** The record that is filled is the entry. */
  lemma FillHere(b: seq<byte>, o: nat, e: Binding)
    requires InPlace(b, o) && FillFits(b, o, e)
    ensures var c := Filled(b, o, e); InPlace(c, o) && Name(c, o) == e.name && Ino(c, o) == e.ino
  {
    hide Tiled, Bindings, BindingAt, RecordBytes, Splice, Get16, Get32, NameLen, Name, Replaces;
    var c, rec := Filled(b, o, e), RecLen(b, o);
    FilledAt(b, o, e);
    Outside(b, c, o, [e]);
    SpliceThere(b, o, RecordBytes(e.ino, rec, e.name, e.ftype));
    RecordReads(c, o, e.ino, rec, e.name, e.ftype);
  }

  lemma FillStays(b: seq<byte>, o: nat, e: Binding, x: nat)
    requires InPlace(b, o) && FillFits(b, o, e) && Ino(b, o) == 0
    ensures Stays(b, Filled(b, o, e), x, e)
  {
    hide Tiled, Filled, FillFits, Get16, Get32, NameLen, Replaces, BindingAt;
    FilledAt(b, o, e);
    if InPlace(b, x) {
      if x < o {
        BeforeStays(b, Filled(b, o, e), o, x, [e]);
      } else if o < x {
        AfterStays(b, Filled(b, o, e), o, x, [e]);
      } else {
        FillHere(b, o, e);
      }
    }
  }

  lemma SplitStays(b: seq<byte>, o: nat, e: Binding, x: nat)
    requires InPlace(b, o) && SplitFits(b, o, e)
    ensures Stays(b, SplitOff(b, o, e), x, e)
  {
    hide Tiled, SplitOff, SplitFits, Get16, Get32, NameLen, Replaces, BindingAt;
    SplitAt(b, o, e);
    if InPlace(b, x) {
      if x < o {
        BeforeStays(b, SplitOff(b, o, e), o, x, BindingAt(b, o) + [e]);
      } else if o < x {
        AfterStays(b, SplitOff(b, o, e), o, x, BindingAt(b, o) + [e]);
      } else {
        HeadStays(b, o, e);
      }
    }
  }

  /** Replace bytes of the buffer. */
  method Poke(buf: array<byte>, o: nat, t: seq<byte>)
    requires o + |t| <= buf.Length
    modifies buf
    ensures buf[..] == Splice(old(buf[..]), o, t)
  {
    ghost var b := buf[..];
    forall x | o <= x < o + |t| {
      buf[x] := t[x - o];
    }
    forall x | 0 <= x < |b| ensures buf[..][x] == Splice(b, o, t)[x] {
      Ext2SpliceAt(b, o, t, x);
    }
  }

  lemma Ext2SpliceAt(d: seq<byte>, o: nat, t: seq<byte>, x: nat)
    requires o + |t| <= |d| && x < |d|
    ensures Splice(d, o, t)[x] == if o <= x < o + |t| then t[x - o] else d[x]
  {
  }

  /** Overwrite an unused record with the entry. */
  method FillRecord(buf: array<byte>, o: nat, rec: nat, e: Binding)
    requires o + HEADER <= buf.Length < LIMIT16 && rec == RecLen(buf[..], o) && o + rec <= buf.Length
    requires 0 < e.ino < LIMIT32 && |e.name| < 255 && HEADER + |e.name| <= rec
    modifies buf
    ensures FillFits(old(buf[..]), o, e) ==> buf[..] == Filled(old(buf[..]), o, e)
  {
    Poke(buf, o, RecordBytes(e.ino, rec, e.name, e.ftype));
  }

  /** Cut the record to the `used` bytes it needs and put the entry into the rest. */
  method SplitRecord(buf: array<byte>, o: nat, rec: nat, used: nat, e: Binding)
    requires o + HEADER <= buf.Length < LIMIT16 && rec == RecLen(buf[..], o) && o + rec <= buf.Length
    requires used == Size(NameLen(buf[..], o))
    requires 0 < e.ino < LIMIT32 && |e.name| < 255 && used + HEADER + |e.name| <= rec
    modifies buf
    ensures SplitFits(old(buf[..]), o, e) ==> buf[..] == SplitOff(old(buf[..]), o, e)
  {
    hide Size, RecordBytes, Splice;
    Poke(buf, o + 4, Bytes16(used));
    Poke(buf, o + used, RecordBytes(e.ino, rec - used, e.name, e.ftype));
  }

  /** Where the walk of a whole block has got to. */
  predicate Walked(b: seq<byte>, o: nat) {
    Whole(b) ==> Tiled(b, 0, o)
  }

  lemma WalkedOn(b: seq<byte>, o: nat)
    requires Walked(b, o) && o + HEADER <= |b|
    ensures Whole(b) ==> InPlace(b, o) && RecLen(b, o) != 0 && o + RecLen(b, o) <= |b|
    ensures Walked(b, o + RecLen(b, o))
  {
    if Whole(b) {
      WalkSound(b, o);
      WalkOn(b, o);
    }
  }

  /** The record at `o` can take an entry of size `n`: it is unused and long enough, or has that much slack. */
  predicate Roomy(b: seq<byte>, o: nat, n: nat)
    requires RecordOk(b, o)
  {
    RecLen(b, o) >= (if Ino(b, o) == 0 then n else Size(NameLen(b, o)) + n)
  }

  /** Some record of the block has room. */
  ghost predicate HasRoom(b: seq<byte>, n: nat) {
    exists o: nat :: InPlace(b, o) && Roomy(b, o, n)
  }

  /** The walk over `s` to `x` meets no record with room. */
  predicate Roomless(b: seq<byte>, s: nat, x: nat, n: nat)
    requires Tiled(b, s, x)
    decreases x - s
  {
    s == x || (!Roomy(b, s, n) && Roomless(b, s + RecLen(b, s), x, n))
  }

  lemma {:induction false} RoomlessOn(b: seq<byte>, s: nat, o: nat, n: nat)
    requires Tiled(b, s, o) && RecordOk(b, o) && Roomless(b, s, o, n) && !Roomy(b, o, n)
    ensures Tiled(b, s, o + RecLen(b, o)) && Roomless(b, s, o + RecLen(b, o), n)
    decreases o - s
  {
    if s < o {
      RoomlessOn(b, s + RecLen(b, s), o, n);
    }
  }

  lemma {:induction false} RoomlessAt(b: seq<byte>, s: nat, o: nat, n: nat)
    requires Tiled(b, s, |b|) && Roomless(b, s, |b|, n) && Tiled(b, s, o) && RecordOk(b, o)
    ensures !Roomy(b, o, n)
    decreases o - s
  {
    if s < o {
      RoomlessAt(b, s + RecLen(b, s), o, n);
    }
  }

  /** The walk so far over a whole block met no room. */
  predicate Crowded(b: seq<byte>, o: nat, n: nat) {
    Whole(b) ==> Tiled(b, 0, o) && Roomless(b, 0, o, n)
  }

  lemma CrowdedOn(b: seq<byte>, o: nat, n: nat)
    requires Crowded(b, o, n) && o + HEADER <= |b| && (Whole(b) && RecordOk(b, o) ==> !Roomy(b, o, n))
    ensures Crowded(b, o + RecLen(b, o), n)
  {
    if Whole(b) {
      WalkSound(b, o);
      RoomlessOn(b, 0, o, n);
    }
  }

  lemma CrowdedAll(b: seq<byte>, o: nat, n: nat)
    requires Crowded(b, o, n) && o <= |b| < o + HEADER
    ensures Whole(b) ==> !HasRoom(b, n)
  {
    if Whole(b) {
      WalkSound(b, o);
      forall x: nat | InPlace(b, x) ensures !Roomy(b, x, n) {
        RoomlessAt(b, 0, x, n);
      }
    }
  }

  lemma CrowdedWalked(b: seq<byte>, o: nat, n: nat)
    requires Crowded(b, o, n)
    ensures Walked(b, o)
  {
  }

  /**
   The block loop of append_or_replace_directory_entry: an unused record that is long enough,
   or the slack of a used one.
   */
  method InsertInBlock(buf: array<byte>, e: Binding) returns (r: Scan)
    requires buf.Length < LIMIT16 && 0 < e.ino < LIMIT32 && |e.name| < 255
    modifies buf
    ensures !r.Found? ==> buf[..] == old(buf[..])
    ensures Whole(old(buf[..])) ==> !r.Malformed? && Whole(buf[..])
    ensures Whole(old(buf[..])) && r.Found? ==> Inserted(Names(old(buf[..])), Names(buf[..]), e)
    ensures Whole(old(buf[..])) && r.Found? ==> AllStay(old(buf[..]), buf[..], e)
    ensures Whole(old(buf[..])) ==> (r.Found? <==> HasRoom(old(buf[..]), Size(|e.name|)))
  {
    hide Get16, Get32, Inserted, Size, Tiled, InPlace, Walked, FillFits, SplitFits, Filled, SplitOff, Crowded, HasRoom,
      AllStay;
    ghost var b := buf[..];
    var needed := Size(|e.name|);
    var o := 0;
    WalkStarts(b, needed);
    while o + HEADER <= buf.Length
      invariant o <= buf.Length && buf[..] == b && Crowded(b, o, needed)
      decreases buf.Length - o
    {
      CrowdedWalked(b, o, needed);
      WalkedOn(b, o);
      var rec := Get16(buf[..], o + 4);
      if rec == 0 || o + rec > buf.Length {
        return Malformed;
      }
      var used := Size(NameLen(buf[..], o));
      if Get32(buf[..], o) == 0 {
        if rec >= needed {
          if Whole(b) { FillPlan(b, o, e); }
          FillRecord(buf, o, rec, e);
          return Found(o);
        }
      } else if rec >= used + needed {
        if Whole(b) { SplitPlan(b, o, e); }
        SplitRecord(buf, o, rec, used, e);
        return Found(o);
      }
      CrowdedOn(b, o, needed);
      o := o + rec;
    }
    CrowdedAll(b, o, needed);
    return Absent;
  }

  lemma WalkStarts(b: seq<byte>, n: nat)
    ensures Crowded(b, 0, n)
  {
  }

  lemma FillPlan(b: seq<byte>, o: nat, e: Binding)
    requires InPlace(b, o) && Ino(b, o) == 0 && 0 < e.ino < LIMIT32 && |e.name| < 255 && Size(|e.name|) <= RecLen(b, o)
    ensures FillFits(b, o, e) && Whole(b) && Whole(Filled(b, o, e)) && Inserted(Names(b), Names(Filled(b, o, e)), e)
    ensures HasRoom(b, Size(|e.name|)) && AllStay(b, Filled(b, o, e), e)
  {
    hide Inserted, Filled, Tiled, Stays;
    FilledInserts(b, o, e);
    assert Roomy(b, o, Size(|e.name|));
    forall x: nat ensures Stays(b, Filled(b, o, e), x, e) {
      FillStays(b, o, e, x);
    }
  }

  lemma SplitPlan(b: seq<byte>, o: nat, e: Binding)
    requires InPlace(b, o) && 0 < e.ino < LIMIT32 && |e.name| < 255
    requires Size(NameLen(b, o)) + Size(|e.name|) <= RecLen(b, o)
    ensures SplitFits(b, o, e) && Whole(b) && Whole(SplitOff(b, o, e))
    ensures Inserted(Names(b), Names(SplitOff(b, o, e)), e) && HasRoom(b, Size(|e.name|))
    ensures AllStay(b, SplitOff(b, o, e), e)
  {
    hide Inserted, SplitOff, Tiled, Stays;
    SplitInserts(b, o, e);
    assert Roomy(b, o, Size(|e.name|));
    forall x: nat ensures Stays(b, SplitOff(b, o, e), x, e) {
      SplitStays(b, o, e, x);
    }
  }

  // ---------------------------------------------------------------- removal and renaming

  /** The list without its element `k`. */
  predicate DeletedAt(old1: seq<Binding>, new1: seq<Binding>, k: int) {
    0 <= k < |old1| && new1 == old1[..k] + old1[k + 1..]
  }

  /** The list with its element `k` exchanged for `e`. */
  predicate ExchangedAt(old1: seq<Binding>, new1: seq<Binding>, k: int, e: Binding) {
    0 <= k < |old1| && new1 == old1[..k] + [e] + old1[k + 1..]
  }

  lemma UsedAt(b: seq<byte>, x: nat)
    requires InPlace(b, x) && Ino(b, x) != 0
    ensures Whole(b) && |Bindings(b, 0, x)| < |Names(b)|
    ensures Names(b)[|Bindings(b, 0, x)|] == Binding(Name(b, x), Ino(b, x), FType(b, x))
  {
    assert BindingAt(b, x) == [Binding(Name(b, x), Ino(b, x), FType(b, x))];
    InPlaceWhole(b, x);
  }

  lemma RemovedNames(b: seq<byte>, x: nat)
    requires InPlace(b, x) && Ino(b, x) != 0
    ensures Whole(b) && Whole(Removed(b, x)) && DeletedAt(Names(b), Names(Removed(b, x)), |Bindings(b, 0, x)|)
  {
    hide Bindings, BindingAt, Removed, Tiled, Get16, Get32;
    OneName(b, x);
    RemovedIs(b, x);
    Around(Bindings(b, 0, x), BindingAt(b, x), Bindings(b, x + RecLen(b, x), |b|), []);
  }

  lemma OneName(b: seq<byte>, x: nat)
    requires RecordOk(b, x) && Ino(b, x) != 0
    ensures BindingAt(b, x) == [Binding(Name(b, x), Ino(b, x), FType(b, x))]
  {
  }

  lemma Around(before: seq<Binding>, one: seq<Binding>, after: seq<Binding>, added: seq<Binding>)
    requires |one| == 1
    ensures before + added + after == (before + one + after)[..|before|] + added
              + (before + one + after)[|before| + 1..]
    ensures before + [] + after == before + after
  {
    var all := before + one + after;
    assert all[..|before|] == before && all[|before| + 1..] == after;
  }

  lemma RenamedNames(b: seq<byte>, x: nat, name: seq<byte>)
    requires InPlace(b, x) && Ino(b, x) != 0 && |name| < 256 && HEADER + |name| <= RecLen(b, x)
    ensures Whole(b) && Whole(Renamed(b, x, name))
    ensures ExchangedAt(Names(b), Names(Renamed(b, x, name)), |Bindings(b, 0, x)|,
                        Binding(name, Ino(b, x), FType(b, x)))
  {
    hide Bindings, BindingAt, Renamed, Tiled, Get16, Get32;
    OneName(b, x);
    RenamedIs(b, x, name);
    Around(Bindings(b, 0, x), BindingAt(b, x), Bindings(b, x + RecLen(b, x), |b|),
           [Binding(name, Ino(b, x), FType(b, x))]);
  }

  /** The record at `x` is one of the block's and in use. */
  predicate UsedRecord(b: seq<byte>, x: nat) {
    InPlace(b, x) && Whole(b) && Ino(b, x) != 0
  }

  /**
   The buffer part of remove_directory_entry: inode, name length and type cleared, the length
   kept.  The block is still tiled and lacks exactly the name of the record.
   */
  method RemoveInBlock(buf: array<byte>, x: nat)
    requires RecordOk(buf[..], x)
    modifies buf
    ensures buf[..] == Removed(old(buf[..]), x)
    ensures UsedRecord(old(buf[..]), x) ==>
              Whole(buf[..]) && DeletedAt(Names(old(buf[..])), Names(buf[..]), |Bindings(old(buf[..]), 0, x)|)
  {
    if UsedRecord(buf[..], x) { RemovedNames(buf[..], x); }
    hide Whole, Names, DeletedAt, Bindings, UsedRecord;
    Poke(buf, x, Bytes32(0) + Bytes16(RecLen(buf[..], x)) + [0, 0]);
  }

  /** The buffer part of update_directory_entry_name: tiled as before, with one name exchanged in its place. */
  method RenameInBlock(buf: array<byte>, x: nat, name: seq<byte>)
    requires RecordOk(buf[..], x) && |name| < 256 && HEADER + |name| <= RecLen(buf[..], x)
    modifies buf
    ensures buf[..] == Renamed(old(buf[..]), x, name)
    ensures UsedRecord(old(buf[..]), x) ==>
              && Whole(buf[..])
              && ExchangedAt(Names(old(buf[..])), Names(buf[..]), |Bindings(old(buf[..]), 0, x)|,
                             Binding(name, Ino(old(buf[..]), x), FType(old(buf[..]), x)))
  {
    if UsedRecord(buf[..], x) { RenamedNames(buf[..], x, name); }
    hide Whole, Names, ExchangedAt, Bindings, UsedRecord;
    var ftype := FType(buf[..], x);
    Poke(buf, x + 6, [|name|, ftype]);
    Poke(buf, x + HEADER, name);
  }

  lemma RelinkedNames(b: seq<byte>, x: nat, ino: nat)
    requires InPlace(b, x) && Ino(b, x) != 0 && 0 < ino < LIMIT32
    ensures Whole(b) && Whole(Relinked(b, x, ino))
    ensures ExchangedAt(Names(b), Names(Relinked(b, x, ino)), |Bindings(b, 0, x)|,
                        Binding(Name(b, x), ino, FType(b, x)))
  {
    hide Bindings, BindingAt, Relinked, Tiled, Get16, Get32;
    OneName(b, x);
    RelinkedIs(b, x, ino);
    Around(Bindings(b, 0, x), BindingAt(b, x), Bindings(b, x + RecLen(b, x), |b|),
           [Binding(Name(b, x), ino, FType(b, x))]);
  }

  // ---------------------------------------------------------------- dots

  const DOT: seq<byte> := [46]
  const DOTDOT: seq<byte> := [46, 46]
  const FT_DIR: byte := 2
  const FT_REG: byte := 1

  predicate Dots(e: Binding) {
    e.name == DOT || e.name == DOTDOT
  }

  predicate OnlyDots(list: seq<Binding>) {
    forall k :: 0 <= k < |list| ==> Dots(list[k])
  }

  /** The block loop of directory_is_empty: the first record in use that is neither "." nor "..". */
  method FindOther(buf: array<byte>) returns (r: Scan)
    ensures Whole(buf[..]) ==> !r.Malformed? && (r.Absent? <==> OnlyDots(Names(buf[..])))
  {
    ghost var b := buf[..];
    var o := 0;
    hide Bindings, BindingAt, Get16, Get32;
    NoOther(b);
    while o + HEADER <= buf.Length
      invariant o <= buf.Length && Tiled(b, 0, o) && OnlyDots(Bindings(b, 0, o))
      decreases buf.Length - o
    {
      WalkSound(b, o);
      var rec := Get16(buf[..], o + 4);
      if rec < HEADER + NameLen(buf[..], o) || o + rec > buf.Length {
        return Malformed;
      }
      if Get32(buf[..], o) != 0 && Name(buf[..], o) != DOT && Name(buf[..], o) != DOTDOT {
        if Whole(b) { OtherThere(b, o); }
        return Found(o);
      }
      WalkOn(b, o);
      StillDots(b, o);
      o := o + rec;
    }
    WalkSound(b, o);
    return Absent;
  }

  lemma NoOther(b: seq<byte>)
    ensures Tiled(b, 0, 0) && OnlyDots(Bindings(b, 0, 0))
  {
  }

  lemma StillDots(b: seq<byte>, o: nat)
    requires Tiled(b, 0, o) && RecordOk(b, o) && OnlyDots(Bindings(b, 0, o))
    requires !(Ino(b, o) != 0 && Name(b, o) != DOT && Name(b, o) != DOTDOT)
    ensures OnlyDots(Bindings(b, 0, o) + BindingAt(b, o))
  {
  }

  lemma OtherThere(b: seq<byte>, o: nat)
    requires InPlace(b, o) && Ino(b, o) != 0 && Name(b, o) != DOT && Name(b, o) != DOTDOT
    ensures Whole(b) && !OnlyDots(Names(b))
  {
    UsedAt(b, o);
    assert !Dots(Names(b)[|Bindings(b, 0, o)|]);
  }

  /** Where the second record of a new directory is: after that of ".". */
  const SECOND := 12

  /** initialize_directory_block: "." and "..", the second record taking the rest of the block. */
  method InitBlock(buf: array<byte>, self: nat, parent: nat)
    requires 1024 <= buf.Length < LIMIT16 && 0 < self < LIMIT32 && 0 < parent < LIMIT32
    modifies buf
    ensures Whole(buf[..]) && Names(buf[..]) == [Binding(DOT, self, FT_DIR), Binding(DOTDOT, parent, FT_DIR)]
    ensures UsedRecord(buf[..], SECOND) && Name(buf[..], SECOND) == DOTDOT && Ino(buf[..], SECOND) == parent
  {
    var n := buf.Length;
    Poke(buf, 0, RecordBytes(self, 12, DOT, FT_DIR));
    ghost var b1 := buf[..];
    Poke(buf, 12, RecordBytes(parent, n - 12, DOTDOT, FT_DIR));
    ghost var b := buf[..];
    assert b[0..12] == b1[0..12] == RecordBytes(self, 12, DOT, FT_DIR);
    assert b[12..n] == RecordBytes(parent, n - 12, DOTDOT, FT_DIR);
    hide RecordBytes, Splice, Tiled, Bindings;
    RecordReads(b, 0, self, 12, DOT, FT_DIR);
    RecordReads(b, 12, parent, n - 12, DOTDOT, FT_DIR);
    TiledJoin(b, 0, 12, n);
  }
}
