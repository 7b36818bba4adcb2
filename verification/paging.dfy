/**
 Two-level page tables (src/arch/x86/cpu/paging.c; 32-bit paging, section 4.3 of
 the Intel SDM, volume 3A).

 A word of a directory or table is written as the fields of an entry, which is a
 bijection on 32-bit words.  Process directories start as copies of the kernel
 directory and share its tables; a user mapping first gives the directory a
 private copy of the table.  This module states what the paging state means and
 what its transitions keep; `Mmu` implements them.
 */
module Paging {

  const ENTRIES := 1024

  datatype EntryFlags = EntryFlags(present: bool, writable: bool, user: bool, rest: nat)

  /** A page-directory or page-table entry: frame number and low twelve bits. */
  datatype Entry = Entry(frame: nat, flags: EntryFlags) {
    predicate Present() { flags.present }
    predicate User() { flags.user }
  }

  type Frame = seq<Entry>

  const ZERO := Entry(0, EntryFlags(false, false, false, 0))
  const KERNEL_RW := EntryFlags(true, true, false, 0)
  const USER_RW := EntryFlags(true, true, true, 0)

  function ZeroFrame(): (z: Frame)
    ensures |z| == ENTRIES && forall j :: 0 <= j < ENTRIES ==> z[j] == ZERO
  {
    seq(ENTRIES, _ => ZERO)
  }

  datatype Option<T> = None | Some(value: T)

  /** What a frame in use is used for. */
  datatype Role =
    | Kernel
    | Directory
    | Table(dir: nat, pde: nat)
    | Page(dir: nat, pde: nat, pte: nat)

  /** Memory by frame, the process directories, the use of frames, the free frames. */
  datatype World = World(mem: seq<Frame>, kernel: nat, live: set<nat>, role: map<nat, Role>, free: set<nat>)

  ghost predicate OwnedBy(r: Role, d: nat, self: nat) {
    match r
    case Kernel => false
    case Directory => self == d
    case Table(dir, _) => dir == d
    case Page(dir, _, _) => dir == d
  }

  /** All frames that belong to directory `d`. */
  ghost function Owned(w: World, d: nat): set<nat> {
    set f | f in w.role && OwnedBy(w.role[f], d, f)
  }

  // ---------------------------------------------------------------- the invariant

  ghost predicate Shape(w: World) {
    && (forall f :: 0 <= f < |w.mem| ==> |w.mem[f]| == ENTRIES)
    && 0 !in w.free
    && (forall f :: f in w.free ==> f < |w.mem|)
    && w.kernel < |w.mem|
  }

  /** Frames with a role are in range and not free. */
  ghost predicate RolesTaken(w: World) {
    forall f :: f in w.role ==> 0 < f < |w.mem| && f !in w.free
  }

  ghost predicate IsRole(w: World, f: nat, r: Role) {
    f in w.role && w.role[f] == r
  }

  ghost predicate NoUser(t: Frame) {
    forall j :: 0 <= j < |t| ==> !t[j].User()
  }

  /** The kernel directory and its tables have no user entries. */
  ghost predicate KernelOk(w: World)
    requires Shape(w)
  {
    && IsRole(w, w.kernel, Kernel)
    && NoUser(w.mem[w.kernel])
    && forall i :: 0 <= i < ENTRIES && w.mem[w.kernel][i].Present() ==> KernelTable(w, w.mem[w.kernel][i].frame)
  }

  ghost predicate KernelTable(w: World, t: nat) {
    t < |w.mem| && t != w.kernel && IsRole(w, t, Kernel) && NoUser(w.mem[t])
  }

  predicate Private(e: Entry) {
    e.Present() && e.User()
  }

  /** An entry of a process directory is the kernel's, or a user entry, writable, for a private table. */
  ghost predicate PdeOk(w: World, d: nat, i: nat)
    requires Shape(w) && d < |w.mem| && i < ENTRIES
  {
    var e := w.mem[d][i];
    e == w.mem[w.kernel][i] || (e.flags == USER_RW && IsRole(w, e.frame, Table(d, i)))
  }

  ghost predicate DirOk(w: World, d: nat)
    requires Shape(w)
  {
    d < |w.mem| && IsRole(w, d, Directory) && forall i :: 0 <= i < ENTRIES ==> PdeOk(w, d, i)
  }

  /** A frame that the teardown of its directory will hand back. */
  predicate Returnable(e: Entry, total: nat) {
    Private(e) && e.frame != 0 && e.frame < total
  }

  ghost predicate PteOk(w: World, t: nat, d: nat, i: nat, j: nat)
    requires Shape(w) && t < |w.mem| && j < ENTRIES
  {
    Returnable(w.mem[t][j], |w.mem|) ==> IsRole(w, w.mem[t][j].frame, Page(d, i, j))
  }

  /** A private table is installed where its role says and owns the pages it maps. */
  ghost predicate TableOk(w: World, t: nat, d: nat, i: nat)
    requires Shape(w)
  {
    && d in w.live && d < |w.mem| && i < ENTRIES && t < |w.mem|
    && w.mem[d][i].frame == t && Private(w.mem[d][i])
    && forall j :: 0 <= j < ENTRIES ==> PteOk(w, t, d, i, j)
  }

  /** A process page is mapped where its role says. */
  ghost predicate PageOk(w: World, f: nat, d: nat, i: nat, j: nat)
    requires Shape(w)
  {
    && d in w.live && d < |w.mem| && i < ENTRIES && j < ENTRIES
    && Private(w.mem[d][i])
    && var t := w.mem[d][i].frame;
       t < |w.mem| && IsRole(w, t, Table(d, i)) && w.mem[t][j].frame == f && Returnable(w.mem[t][j], |w.mem|)
  }

  ghost predicate RoleOk(w: World, f: nat)
    requires Shape(w) && f in w.role
  {
    match w.role[f]
    case Kernel => true
    case Directory => f in w.live
    case Table(d, i) => TableOk(w, f, d, i)
    case Page(d, i, j) => PageOk(w, f, d, i, j)
  }

  ghost predicate Inv(w: World) {
    && Shape(w) && RolesTaken(w) && KernelOk(w)
    && (forall d :: d in w.live ==> DirOk(w, d))
    && (forall f :: f in w.role ==> RoleOk(w, f))
  }

  /** The directories whose translations matter: the kernel's and those of processes. */
  ghost predicate Watched(w: World, d: nat) {
    d == w.kernel || d in w.live
  }

  /** paging_get_physical_in, by directory and table index: the entry of a mapped page, frame and flags. */
  function Translate(mem: seq<Frame>, d: nat, i: nat, j: nat): Option<Entry>
    requires d < |mem| && i < |mem[d]|
  {
    var e := mem[d][i];
    if !e.Present() || e.frame >= |mem| || j >= |mem[e.frame]| || !mem[e.frame][j].Present() then None
    else Some(mem[e.frame][j])
  }

  /** What an entry says of its page. */
  function Shown(e: Entry): Option<Entry> {
    if e.Present() then Some(e) else None
  }

  ghost predicate SameAt(mem: seq<Frame>, mem': seq<Frame>, g: nat, k: nat, l: nat) {
    && g < |mem| && g < |mem'| && k < |mem[g]| && k < |mem'[g]|
    && Translate(mem', g, k, l) == Translate(mem, g, k, l)
  }

  /** Every page of every watched directory but page (`i`, `j`) of `d` has the frame and the flags it had. */
  ghost predicate Isolated(w: World, mem': seq<Frame>, d: nat, i: nat, j: nat) {
    forall g: nat, k: nat, l: nat :: Watched(w, g) && k < ENTRIES && l < ENTRIES && !(g == d && k == i && l == j) ==>
      SameAt(w.mem, mem', g, k, l)
  }

  /** No translation changes. */
  ghost predicate SameTranslations(w: World, mem': seq<Frame>) {
    forall g: nat, k: nat, l: nat :: Watched(w, g) && k < ENTRIES && l < ENTRIES ==> SameAt(w.mem, mem', g, k, l)
  }

  // ---------------------------------------------------------------- transitions

  /** Roles and the frames they rest on carry over to a state that agrees on them. */
  lemma RoleCarries(w: World, w': World, f: nat)
    requires Inv(w) && Shape(w') && |w'.mem| == |w.mem| && f in w.role && IsRole(w', f, w.role[f])
    requires w.live <= w'.live
    requires forall g :: g in w.role && w.role[g] != Kernel ==> IsRole(w', g, w.role[g])
    requires forall g :: g in w.role ==> w'.mem[g] == w.mem[g]
    ensures RoleOk(w', f)
  {
    assert RoleOk(w, f);
    match w.role[f]
    case Table(d, i) =>
      assert DirOk(w, d);
      forall j | 0 <= j < ENTRIES ensures PteOk(w', f, d, i, j) {
        assert PteOk(w, f, d, i, j);
      }
    case Page(d, i, j) =>
      assert DirOk(w, d);
    case _ =>
  }

  /** What an operation needs to know before it takes a frame. */
  lemma DirectoryTaken(w: World, d: nat)
    requires Inv(w) && d in w.live
    ensures Shape(w) && d !in w.free && w.role.Keys !! w.free
  {
    assert DirOk(w, d);
  }

  /** Only directories in existence own frames. */
  lemma NothingOwned(w: World, d: nat)
    requires Inv(w) && d !in w.live
    ensures Owned(w, d) == {}
  {
    forall f | f in w.role ensures !OwnedBy(w.role[f], d, f) {
      assert RoleOk(w, f);
    }
  }

  /** A new directory in frame `d`, a copy of the kernel's. */
  ghost function Cloned(w: World, d: nat): World
    requires w.kernel < |w.mem| && d < |w.mem|
  {
    w.(mem := w.mem[d := w.mem[w.kernel]], live := w.live + {d}, role := w.role[d := Directory], free := w.free - {d})
  }

  lemma ClonedInv(w: World, d: nat)
    requires Inv(w) && d in w.free
    ensures Inv(Cloned(w, d))
    ensures d !in w.live && Owned(Cloned(w, d), d) == {d}
  {
    var w' := Cloned(w, d);
    assert d !in w.role;
    forall e | e in w'.live ensures DirOk(w', e) {
      if e != d {
        assert DirOk(w, e);
        forall i | 0 <= i < ENTRIES ensures PdeOk(w', e, i) {
          assert PdeOk(w, e, i);
        }
      }
    }
    forall f | f in w'.role ensures RoleOk(w', f) {
      if f != d {
        RoleCarries(w, w', f);
      }
    }
    NothingOwned(w, d);
  }

  /** A clone changes no translation, and starts with those of the kernel directory. */
  lemma ClonedTranslates(w: World, d: nat, g: nat, k: nat, l: nat)
    requires Inv(w) && d in w.free && Watched(w, g) && k < ENTRIES && l < ENTRIES
    ensures var mem' := Cloned(w, d).mem;
            && SameAt(w.mem, mem', g, k, l)
            && d < |mem'| && k < |mem'[d]| && Translate(mem', d, k, l) == Translate(w.mem, w.kernel, k, l)
  {
    TableFrame(w, g, k);
    TableFrame(w, w.kernel, k);
  }

  /** The table that backs entry `i` of directory `d`, empty if there is none. */
  ghost function TableCopy(w: World, d: nat, i: nat): Frame
    requires Shape(w) && d < |w.mem| && i < ENTRIES
    requires w.mem[d][i].Present() ==> w.mem[d][i].frame < |w.mem|
  {
    if w.mem[d][i].Present() then w.mem[w.mem[d][i].frame] else ZeroFrame()
  }

  /** Entry `i` of directory `d` gets its own table in frame `t`. */
  ghost function Privatised(w: World, d: nat, i: nat, t: nat): World
    requires Shape(w) && d < |w.mem| && i < ENTRIES && t < |w.mem|
    requires w.mem[d][i].Present() ==> w.mem[d][i].frame < |w.mem|
  {
    w.(mem := w.mem[t := TableCopy(w, d, i)][d := w.mem[d][i := Entry(t, USER_RW)]],
       role := w.role[t := Table(d, i)], free := w.free - {t})
  }

  /** The table behind an entry of a watched directory is never itself a directory. */
  lemma TableFrame(w: World, e: nat, k: nat)
    requires Inv(w) && Watched(w, e) && k < ENTRIES
    ensures e < |w.mem| && |w.mem[e]| == ENTRIES
    ensures w.mem[e][k].Present() ==>
              var g := w.mem[e][k].frame;
              g < |w.mem| && |w.mem[g]| == ENTRIES && g != w.kernel && g in w.role &&
              (w.role[g] == Kernel || w.role[g] == Table(e, k))
  {
    if e in w.live {
      assert DirOk(w, e);
      assert PdeOk(w, e, k);
    }
    assert w.mem[w.kernel][k].Present() ==> KernelTable(w, w.mem[w.kernel][k].frame);
  }

  /** A shared entry is the kernel's, so it has no user bit and its table none either. */
  lemma SharedEntry(w: World, d: nat, i: nat)
    requires Inv(w) && d in w.live && i < ENTRIES
    ensures d < |w.mem| && d != w.kernel
    ensures w.mem[d][i].Present() ==> w.mem[d][i].frame < |w.mem| && w.mem[d][i].frame in w.role
    ensures !Private(w.mem[d][i]) ==> NoUser(TableCopy(w, d, i))
  {
    assert DirOk(w, d);
    assert PdeOk(w, d, i);
  }

  lemma PrivatisedRoles(w: World, d: nat, i: nat, t: nat)
    requires Inv(w) && d in w.live && i < ENTRIES && t in w.free
    requires d < |w.mem| && (w.mem[d][i].Present() ==> w.mem[d][i].frame < |w.mem|)
    requires !Private(w.mem[d][i])
    ensures forall f :: f in Privatised(w, d, i, t).role ==> RoleOk(Privatised(w, d, i, t), f)
  {
    var w' := Privatised(w, d, i, t);
    SharedEntry(w, d, i);
    assert DirOk(w, d);
    forall f | f in w'.role ensures RoleOk(w', f) {
      if f == t {
        forall j | 0 <= j < ENTRIES ensures PteOk(w', t, d, i, j) {
          assert !TableCopy(w, d, i)[j].User();
        }
      } else {
        assert RoleOk(w, f);
        match w.role[f]
        case Table(e, k) =>
          assert DirOk(w, e);
          assert !(e == d && k == i);
          forall j | 0 <= j < ENTRIES ensures PteOk(w', f, e, k, j) {
            assert PteOk(w, f, e, k, j);
          }
        case Page(e, k, j) =>
          assert DirOk(w, e);
        case _ =>
      }
    }
  }

  lemma PrivatisedInv(w: World, d: nat, i: nat, t: nat)
    requires Inv(w) && d in w.live && i < ENTRIES && t in w.free
    requires d < |w.mem| && (w.mem[d][i].Present() ==> w.mem[d][i].frame < |w.mem|)
    requires !Private(w.mem[d][i])
    ensures Inv(Privatised(w, d, i, t))
  {
    var w' := Privatised(w, d, i, t);
    SharedEntry(w, d, i);
    PrivatisedRoles(w, d, i, t);
    assert t !in w.role;
    forall e | e in w'.live ensures DirOk(w', e) {
      assert DirOk(w, e);
      forall k | 0 <= k < ENTRIES ensures PdeOk(w', e, k) {
        assert PdeOk(w, e, k);
      }
    }
  }

  /** Giving a directory its own table changes no translation anywhere. */
  lemma PrivatisedInvisible(w: World, d: nat, i: nat, t: nat, e: nat, k: nat, l: nat)
    requires Inv(w) && d in w.live && i < ENTRIES && t in w.free
    requires d < |w.mem| && (w.mem[d][i].Present() ==> w.mem[d][i].frame < |w.mem|)
    requires Watched(w, e) && e < |w.mem| && k < ENTRIES && l < ENTRIES
    ensures Translate(Privatised(w, d, i, t).mem, e, k, l) == Translate(w.mem, e, k, l)
  {
    TableFrame(w, d, i);
    TableFrame(w, e, k);
    assert DirOk(w, d);
  }

  /** Entry `j` of the private table behind entry `i` of directory `d` becomes `e`. */
  ghost function PteSet(w: World, d: nat, i: nat, j: nat, e: Entry): World
    requires Shape(w) && d < |w.mem| && i < ENTRIES && j < ENTRIES && w.mem[d][i].frame < |w.mem|
  {
    var t := w.mem[d][i].frame;
    var was := w.mem[t][j];
    var kept := if Returnable(was, |w.mem|) then w.role - {was.frame} else w.role;
    w.(mem := w.mem[t := w.mem[t][j := e]],
       role := if Returnable(e, |w.mem|) then kept[e.frame := Page(d, i, j)] else kept)
  }

  /** The frame to be mapped is a device frame, or was taken from the allocator and is not in use. */
  ghost predicate Mappable(w: World, frame: nat) {
    0 < frame < |w.mem| ==> frame !in w.free && frame !in w.role
  }

  lemma PteSetRoles(w: World, d: nat, i: nat, j: nat, e: Entry)
    requires Inv(w) && d in w.live && i < ENTRIES && j < ENTRIES
    requires d < |w.mem| && Private(w.mem[d][i]) && w.mem[d][i].frame < |w.mem|
    requires Private(e) && Mappable(w, e.frame)
    ensures forall f :: f in PteSet(w, d, i, j, e).role ==> RoleOk(PteSet(w, d, i, j, e), f)
  {
    var w' := PteSet(w, d, i, j, e);
    var t := w.mem[d][i].frame;
    assert DirOk(w, d) && PdeOk(w, d, i);
    assert RoleOk(w, t) && PteOk(w, t, d, i, j);
    forall f | f in w'.role ensures RoleOk(w', f) {
      if f in w.role && w'.role[f] == w.role[f] {
        assert RoleOk(w, f);
        match w.role[f]
        case Table(g, k) =>
          assert DirOk(w, g);
          forall l | 0 <= l < ENTRIES ensures PteOk(w', f, g, k, l) {
            assert PteOk(w, f, g, k, l);
          }
        case Page(g, k, l) =>
          assert DirOk(w, g);
        case _ =>
      }
    }
  }

  lemma PteSetInv(w: World, d: nat, i: nat, j: nat, e: Entry)
    requires Inv(w) && d in w.live && i < ENTRIES && j < ENTRIES
    requires d < |w.mem| && Private(w.mem[d][i]) && w.mem[d][i].frame < |w.mem|
    requires Private(e) && Mappable(w, e.frame)
    ensures Inv(PteSet(w, d, i, j, e))
  {
    var w' := PteSet(w, d, i, j, e);
    var t := w.mem[d][i].frame;
    PteSetRoles(w, d, i, j, e);
    assert DirOk(w, d) && PdeOk(w, d, i);
    assert RoleOk(w, t) && PteOk(w, t, d, i, j);
    forall g | g in w'.live ensures DirOk(w', g) {
      assert DirOk(w, g);
      forall k | 0 <= k < ENTRIES ensures PdeOk(w', g, k) {
        assert PdeOk(w, g, k);
      }
    }
  }

  /** Writing a private table entry changes the translation of that page only. */
  lemma PteSetOnly(w: World, d: nat, i: nat, j: nat, e: Entry, g: nat, k: nat, l: nat)
    requires Inv(w) && d in w.live && i < ENTRIES && j < ENTRIES
    requires d < |w.mem| && Private(w.mem[d][i]) && w.mem[d][i].frame < |w.mem|
    requires Watched(w, g) && g < |w.mem| && k < ENTRIES && l < ENTRIES
    ensures Translate(PteSet(w, d, i, j, e).mem, g, k, l) ==
              if g == d && k == i && l == j then Shown(e)
              else Translate(w.mem, g, k, l)
  {
    TableFrame(w, g, k);
    assert DirOk(w, d) && PdeOk(w, d, i);
  }

  /** The frames of `d` change by the page mapped and the page replaced; other directories keep theirs. */
  lemma PteSetOwned(w: World, d: nat, i: nat, j: nat, e: Entry, g: nat)
    requires Inv(w) && d in w.live && i < ENTRIES && j < ENTRIES
    requires d < |w.mem| && Private(w.mem[d][i]) && w.mem[d][i].frame < |w.mem|
    requires Private(e) && Mappable(w, e.frame)
    ensures var was := w.mem[w.mem[d][i].frame][j];
            Owned(PteSet(w, d, i, j, e), g) ==
              if g != d then Owned(w, g)
              else Owned(w, d) - (if Returnable(was, |w.mem|) then {was.frame} else {})
                               + (if Returnable(e, |w.mem|) then {e.frame} else {})
  {
    var t := w.mem[d][i].frame;
    assert DirOk(w, d) && PdeOk(w, d, i);
    assert RoleOk(w, t) && PteOk(w, t, d, i, j);
  }

  /** Directory `d` and everything it owns go back to the allocator. */
  ghost function TornDown(w: World, d: nat): World {
    w.(live := w.live - {d},
       role := map f | f in w.role && !OwnedBy(w.role[f], d, f) :: w.role[f],
       free := w.free + Owned(w, d))
  }

  lemma TornDownInv(w: World, d: nat)
    requires Inv(w) && d in w.live
    ensures Inv(TornDown(w, d))
  {
    var w' := TornDown(w, d);
    forall g | g in w'.live ensures DirOk(w', g) {
      assert DirOk(w, g);
      forall k | 0 <= k < ENTRIES ensures PdeOk(w', g, k) {
        assert PdeOk(w, g, k);
      }
    }
    forall f | f in w'.role ensures RoleOk(w', f) {
      assert RoleOk(w, f);
      match w.role[f]
      case Table(g, k) =>
        forall l | 0 <= l < ENTRIES ensures PteOk(w', f, g, k, l) {
          assert PteOk(w, f, g, k, l);
        }
      case _ =>
    }
  }

  /** Tearing one directory down leaves every other directory's frames alone. */
  lemma TornDownOwned(w: World, d: nat)
    ensures forall g {:trigger Owned(w, g)} :: g != d ==> Owned(TornDown(w, d), g) == Owned(w, g)
  {
  }

  // ---------------------------------------------------------------- mapping a user page

  /** paging_map_in with the user flag; `t` is the frame used if a private table is needed. */
  ghost function Mapped(w: World, d: nat, i: nat, j: nat, e: Entry, t: nat): World
    requires Inv(w) && d in w.live && i < ENTRIES && j < ENTRIES && t < |w.mem|
  {
    TableFrame(w, d, i);
    PteSet(Prepared(w, d, i, t), d, i, j, e)
  }

  /** The frame that page (`i`, `j`) of `d` would hand back at teardown, if any. */
  ghost function Replaced(w: World, d: nat, i: nat, j: nat): set<nat>
    requires Inv(w) && d in w.live && i < ENTRIES && j < ENTRIES
  {
    TableFrame(w, d, i);
    if Private(w.mem[d][i]) && Returnable(w.mem[w.mem[d][i].frame][j], |w.mem|)
    then {w.mem[w.mem[d][i].frame][j].frame} else {}
  }

  /** The state in which the table entry is written. */
  ghost function Prepared(w: World, d: nat, i: nat, t: nat): World
    requires Inv(w) && d in w.live && i < ENTRIES && t < |w.mem|
  {
    TableFrame(w, d, i);
    if Private(w.mem[d][i]) then w else Privatised(w, d, i, t)
  }

  lemma PreparedOk(w: World, d: nat, i: nat, t: nat)
    requires Inv(w) && d in w.live && i < ENTRIES && t < |w.mem|
    requires Private(TableEntry(w, d, i)) || t in w.free
    ensures var w1 := Prepared(w, d, i, t);
            Inv(w1) && w1.live == w.live && w1.kernel == w.kernel && |w1.mem| == |w.mem|
            && Private(TableEntry(w1, d, i)) && TableEntry(w1, d, i).frame < |w.mem|
            && SameTranslations(w, w1.mem)
            && w1.free + Owned(w1, d) == w.free + Owned(w, d)
            && (forall g :: g != d ==> Owned(w1, g) == Owned(w, g))
            && (forall f :: Mappable(w, f) ==> Mappable(w1, f))
            && (forall j: nat :: j < ENTRIES ==> Replaced(w1, d, i, j) == Replaced(w, d, i, j))
  {
    TableFrame(w, d, i);
    if Private(w.mem[d][i]) {
      forall g: nat, k: nat, l: nat | Watched(w, g) && k < ENTRIES && l < ENTRIES
        ensures SameAt(w.mem, w.mem, g, k, l)
      {
        TableFrame(w, g, k);
      }
    } else {
      PrivatisedInv(w, d, i, t);
      PrivatisedOwned(w, d, i, t);
      forall g: nat, k: nat, l: nat | Watched(w, g) && k < ENTRIES && l < ENTRIES
        ensures SameAt(w.mem, Privatised(w, d, i, t).mem, g, k, l)
      {
        TableFrame(w, g, k);
        PrivatisedInvisible(w, d, i, t, g, k, l);
      }
    }
  }

  ghost function TableEntry(w: World, d: nat, i: nat): Entry
    requires Inv(w) && d in w.live && i < ENTRIES
  {
    TableFrame(w, d, i);
    w.mem[d][i]
  }

  lemma PrivatisedOwned(w: World, d: nat, i: nat, t: nat)
    requires Inv(w) && d in w.live && i < ENTRIES && t in w.free
    requires d < |w.mem| && (w.mem[d][i].Present() ==> w.mem[d][i].frame < |w.mem|)
    requires !Private(w.mem[d][i])
    ensures Owned(Privatised(w, d, i, t), d) == Owned(w, d) + {t}
    ensures forall g :: g != d ==> Owned(Privatised(w, d, i, t), g) == Owned(w, g)
    ensures Inv(Privatised(w, d, i, t))
    ensures forall j: nat :: j < ENTRIES ==> Replaced(Privatised(w, d, i, t), d, i, j) == {}
  {
    var w' := Privatised(w, d, i, t);
    PrivatisedInv(w, d, i, t);
    SharedEntry(w, d, i);
    assert t !in w.role && DirOk(w, d);
    forall g | g != d ensures Owned(w', g) == Owned(w, g) {
    }
    forall j: nat | j < ENTRIES ensures Replaced(w', d, i, j) == {} {
      assert !TableCopy(w, d, i)[j].User();
    }
  }

  /**
   Address-space isolation and conservation of frames for one user mapping: the
   page gets its frame, nothing else translates differently in any directory, and
   the directory gains exactly the frames the allocator lost.
   */
  lemma MapIsolation(w: World, d: nat, i: nat, j: nat, e: Entry, t: nat)
    requires Inv(w) && d in w.live && i < ENTRIES && j < ENTRIES && t < |w.mem|
    requires Private(TableEntry(w, d, i)) || t in w.free
    requires Private(e) && Mappable(w, e.frame)
    ensures var w' := Mapped(w, d, i, j, e, t);
            && Inv(w') && w'.live == w.live
            && Isolated(w, w'.mem, d, i, j)
            && d < |w'.mem| && i < |w'.mem[d]| && Translate(w'.mem, d, i, j) == Some(e)
            && w'.free + Owned(w', d) ==
                 w.free + Owned(w, d) - Replaced(w, d, i, j) + (if Returnable(e, |w.mem|) then {e.frame} else {})
            && (forall g :: g != d ==> Owned(w', g) == Owned(w, g))
  {
    var w1 := Prepared(w, d, i, t);
    var w' := Mapped(w, d, i, j, e, t);
    PreparedOk(w, d, i, t);
    TableFrame(w1, d, i);
    assert w' == PteSet(w1, d, i, j, e);
    PteSetInv(w1, d, i, j, e);
    PteSetOnly(w1, d, i, j, e, d, i, j);
    forall g: nat, k: nat, l: nat | Watched(w, g) && k < ENTRIES && l < ENTRIES && !(g == d && k == i && l == j)
      ensures SameAt(w.mem, w'.mem, g, k, l)
    {
      TableFrame(w1, g, k);
      PteSetOnly(w1, d, i, j, e, g, k, l);
      assert SameAt(w.mem, w1.mem, g, k, l);
    }
    forall g ensures Owned(w', g) == if g != d then Owned(w, g) else
        Owned(w1, d) - Replaced(w, d, i, j) + (if Returnable(e, |w.mem|) then {e.frame} else {}) {
      PteSetOwned(w1, d, i, j, e, g);
    }
    ReplacedTaken(w1, d, i, j);
  }

  lemma ReplacedTaken(w: World, d: nat, i: nat, j: nat)
    requires Inv(w) && d in w.live && i < ENTRIES && j < ENTRIES
    ensures Replaced(w, d, i, j) !! w.free
  {
    TableFrame(w, d, i);
    if Private(w.mem[d][i]) {
      assert DirOk(w, d) && PdeOk(w, d, i);
      assert RoleOk(w, w.mem[d][i].frame);
      assert PteOk(w, w.mem[d][i].frame, d, i, j);
    }
  }

  // ---------------------------------------------------------------- whole runs

  /** A paging state together with the frames that callers have taken and not yet mapped. */
  datatype Memory = Memory(w: World, hand: set<nat>)

  datatype Op =
    | Take(frame: nat)                                                  // pmm_alloc_page by a caller
    | GiveBack(frame: nat)                                              // pmm_free_page by a caller
    | Clone(frame: nat)                                                 // paging_clone_directory
    | MapPage(dir: nat, pde: nat, pte: nat, entry: Entry, table: nat)   // paging_map_in with the user flag
    | Free(dir: nat)                                                    // paging_free_directory

  ghost predicate Good(m: Memory) {
    Inv(m.w) && m.hand !! m.w.free && m.hand !! m.w.role.Keys && forall f :: f in m.hand ==> 0 < f < |m.w.mem|
  }

  /** The operation succeeds; a page is mapped once, to a frame in hand or to a device frame. */
  ghost predicate Enabled(m: Memory, op: Op)
    requires Good(m)
  {
    match op
    case Take(f) => f in m.w.free
    case GiveBack(f) => f in m.hand
    case Clone(f) => f in m.w.free
    case MapPage(d, i, j, e, t) =>
      && d in m.w.live && i < ENTRIES && j < ENTRIES && t < |m.w.mem|
      && (Private(TableEntry(m.w, d, i)) || t in m.w.free)
      && Private(e) && (0 < e.frame < |m.w.mem| ==> e.frame in m.hand)
      && Replaced(m.w, d, i, j) == {}
    case Free(d) => d in m.w.live
  }

  ghost function Apply(m: Memory, op: Op): Memory
    requires Good(m) && Enabled(m, op)
  {
    match op
    case Take(f) => Memory(m.w.(free := m.w.free - {f}), m.hand + {f})
    case GiveBack(f) => Memory(m.w.(free := m.w.free + {f}), m.hand - {f})
    case Clone(f) => Memory(Cloned(m.w, f), m.hand)
    case MapPage(d, i, j, e, t) => Memory(Mapped(m.w, d, i, j, e, t), m.hand - {e.frame})
    case Free(d) => Memory(TornDown(m.w, d), m.hand)
  }

  /** The frames in use on behalf of process directories. */
  ghost function Used(w: World): set<nat> {
    set f | f in w.role && w.role[f] != Kernel
  }

  /** Every frame the allocator, the callers or some process directory holds. */
  ghost function Pool(m: Memory): set<nat> {
    m.w.free + m.hand + Used(m.w)
  }

  lemma FreeChangeInv(w: World, free': set<nat>)
    requires Inv(w) && 0 !in free' && free' !! w.role.Keys && forall f :: f in free' ==> f < |w.mem|
    ensures Inv(w.(free := free'))
  {
    var w' := w.(free := free');
    forall d | d in w'.live ensures DirOk(w', d) {
      assert DirOk(w, d);
      forall i | 0 <= i < ENTRIES ensures PdeOk(w', d, i) {
        assert PdeOk(w, d, i);
      }
    }
    forall f | f in w'.role ensures RoleOk(w', f) {
      RoleCarries(w, w', f);
    }
  }

  lemma PreparedUsed(w: World, d: nat, i: nat, t: nat)
    requires Inv(w) && d in w.live && i < ENTRIES && t < |w.mem|
    requires Private(TableEntry(w, d, i)) || t in w.free
    ensures var w1 := Prepared(w, d, i, t);
            && w1.free + Used(w1) == w.free + Used(w)
            && w1.free <= w.free && w1.role.Keys <= w.role.Keys + w.free
  {
    TableFrame(w, d, i);
  }

  lemma MappedUsed(w: World, d: nat, i: nat, j: nat, e: Entry, t: nat)
    requires Inv(w) && d in w.live && i < ENTRIES && j < ENTRIES && t < |w.mem|
    requires Private(TableEntry(w, d, i)) || t in w.free
    requires Private(e) && Mappable(w, e.frame) && Replaced(w, d, i, j) == {}
    ensures var w' := Mapped(w, d, i, j, e, t);
            var got := if Returnable(e, |w.mem|) then {e.frame} else {};
            && w'.free + Used(w') == w.free + Used(w) + got
            && w'.free <= w.free && w'.role.Keys <= w.role.Keys + w.free + got && |w'.mem| == |w.mem|
  {
    var w1 := Prepared(w, d, i, t);
    PreparedOk(w, d, i, t);
    PreparedUsed(w, d, i, t);
    TableFrame(w1, d, i);
    assert Replaced(w1, d, i, j) == {};
    var w' := PteSet(w1, d, i, j, e);
    if Returnable(e, |w.mem|) {
      assert w'.role == w1.role[e.frame := Page(d, i, j)];
      assert Used(w') == Used(w1) + {e.frame};
    } else {
      assert w'.role == w1.role;
    }
  }

  lemma MapPool(m: Memory, op: Op)
    requires Good(m) && Enabled(m, op) && op.MapPage?
    ensures Good(Apply(m, op)) && Pool(Apply(m, op)) == Pool(m)
  {
    hide Inv, Mapped;
    MapIsolation(m.w, op.dir, op.pde, op.pte, op.entry, op.table);
    MappedUsed(m.w, op.dir, op.pde, op.pte, op.entry, op.table);
  }

  /** Each operation keeps the invariant and neither loses nor invents a frame. */
  lemma OpConserves(m: Memory, op: Op)
    requires Good(m) && Enabled(m, op)
    ensures Good(Apply(m, op)) && Pool(Apply(m, op)) == Pool(m)
  {
    match op
    case Take(f) => FreeChangeInv(m.w, m.w.free - {f});
    case GiveBack(f) => FreeChangeInv(m.w, m.w.free + {f});
    case Clone(f) => ClonedInv(m.w, f);
    case MapPage(_, _, _, _, _) => MapPool(m, op);
    case Free(d) => TornDownInv(m.w, d);
  }

  ghost predicate Runs(m: Memory, ops: seq<Op>)
    decreases |ops|
  {
    ops == [] || (Good(m) && Enabled(m, ops[0]) && Runs(Apply(m, ops[0]), ops[1..]))
  }

  ghost function After(m: Memory, ops: seq<Op>): Memory
    requires Runs(m, ops)
    decreases |ops|
  {
    if ops == [] then m else After(Apply(m, ops[0]), ops[1..])
  }

  lemma {:induction false} RunConserves(m: Memory, ops: seq<Op>)
    requires Good(m) && Runs(m, ops)
    ensures Good(After(m, ops)) && Pool(After(m, ops)) == Pool(m)
    decreases |ops|
  {
    if ops != [] {
      OpConserves(m, ops[0]);
      RunConserves(Apply(m, ops[0]), ops[1..]);
    }
  }

  /** The operation maps page (`i`, `j`) of directory `g`, or frees the directory. */
  predicate Touches(op: Op, g: nat, i: nat, j: nat) {
    match op
    case MapPage(d, k, l, _, _) => d == g && k == i && l == j
    case Free(d) => d == g
    case _ => false
  }

  lemma OpIsolation(m: Memory, op: Op, g: nat, i: nat, j: nat)
    requires Good(m) && Enabled(m, op) && Watched(m.w, g) && i < ENTRIES && j < ENTRIES && !Touches(op, g, i, j)
    ensures Watched(Apply(m, op).w, g) && SameAt(m.w.mem, Apply(m, op).w.mem, g, i, j)
  {
    hide Inv, Replaced;
    match op
    case Clone(f) => ClonedTranslates(m.w, f, g, i, j);
    case MapPage(d, k, l, e, t) => MapIsolation(m.w, d, k, l, e, t);
    case _ => WatchedShape(m.w, g);
  }

  lemma WatchedShape(w: World, g: nat)
    requires Inv(w) && Watched(w, g)
    ensures g < |w.mem| && |w.mem[g]| == ENTRIES
  {
    if g in w.live { assert DirOk(w, g); }
  }

  /**
   Isolation over whole runs: whatever else is cloned, mapped and freed, a page of a live
   directory or of the kernel's keeps its translation until that page is mapped or that directory freed.
   */
  lemma {:induction false} RunIsolation(m: Memory, ops: seq<Op>, g: nat, i: nat, j: nat)
    requires Good(m) && Runs(m, ops) && Watched(m.w, g) && i < ENTRIES && j < ENTRIES
    requires forall n :: 0 <= n < |ops| ==> !Touches(ops[n], g, i, j)
    ensures Watched(After(m, ops).w, g) && SameAt(m.w.mem, After(m, ops).w.mem, g, i, j)
    decreases |ops|
  {
    hide Inv, Apply, Enabled;
    WatchedShape(m.w, g);
    if ops != [] {
      OpConserves(m, ops[0]);
      OpIsolation(m, ops[0], g, i, j);
      RunIsolation(Apply(m, ops[0]), ops[1..], g, i, j);
    }
  }

  /**
   Teardown conservation: after any run that ends with no process directory and no
   frame in hand, the free frames are exactly those of the start.
   */
  lemma TeardownConserves(m: Memory, ops: seq<Op>)
    requires Good(m) && m.w.live == {} && m.hand == {} && Runs(m, ops)
    requires After(m, ops).w.live == {} && After(m, ops).hand == {}
    ensures After(m, ops).w.free == m.w.free && |After(m, ops).w.free| == |m.w.free|
  {
    RunConserves(m, ops);
    OnlyKernel(m.w);
    OnlyKernel(After(m, ops).w);
  }

  lemma OnlyKernel(w: World)
    requires Inv(w) && w.live == {}
    ensures forall f :: f in w.role ==> w.role[f] == Kernel
  {
    forall f | f in w.role ensures w.role[f] == Kernel {
      assert RoleOk(w, f);
    }
  }

  // ---------------------------------------------------------------- access by user code

  /** User code may read the page: both of its entries say so (section 4.6 of the Intel SDM, volume 3A). */
  predicate UserReads(mem: seq<Frame>, d: nat, i: nat, j: nat)
    requires d < |mem| && i < |mem[d]|
  {
    var e := mem[d][i];
    Private(e) && e.frame < |mem| && j < |mem[e.frame]| && Private(mem[e.frame][j])
  }

  predicate UserWrites(mem: seq<Frame>, d: nat, i: nat, j: nat)
    requires d < |mem| && i < |mem[d]|
  {
    UserReads(mem, d, i, j) && mem[d][i].flags.writable && mem[mem[d][i].frame][j].flags.writable
  }

  /** The rights to a page are those its table entry gives; the kernel directory gives none. */
  lemma Access(w: World, d: nat, i: nat, j: nat)
    requires Inv(w) && Watched(w, d) && i < ENTRIES && j < ENTRIES
    ensures d < |w.mem| && |w.mem[d]| == ENTRIES
    ensures var e := Translate(w.mem, d, i, j);
            && (UserReads(w.mem, d, i, j) <==> e.Some? && e.value.User())
            && (UserWrites(w.mem, d, i, j) <==> e.Some? && e.value.User() && e.value.flags.writable)
    ensures d == w.kernel ==> !UserReads(w.mem, d, i, j)
  {
    TableFrame(w, d, i);
    assert w.mem[w.kernel][i].Present() ==> KernelTable(w, w.mem[w.kernel][i].frame);
    if d in w.live {
      assert DirOk(w, d) && PdeOk(w, d, i);
    }
  }

  /** A user mapping gives user code that page, writable if it says so, and no right to any other. */
  lemma MapAccess(w: World, d: nat, i: nat, j: nat, e: Entry, t: nat, g: nat, k: nat, l: nat)
    requires Inv(w) && d in w.live && i < ENTRIES && j < ENTRIES && t < |w.mem|
    requires Private(TableEntry(w, d, i)) || t in w.free
    requires Private(e) && Mappable(w, e.frame)
    requires Watched(w, g) && k < ENTRIES && l < ENTRIES
    ensures var mem' := Mapped(w, d, i, j, e, t).mem;
            var here := g == d && k == i && l == j;
            && g < |w.mem| && |w.mem[g]| == ENTRIES && g < |mem'| && |mem'[g]| == ENTRIES
            && UserReads(mem', g, k, l) == (here || UserReads(w.mem, g, k, l))
            && UserWrites(mem', g, k, l) == if here then e.flags.writable else UserWrites(w.mem, g, k, l)
  {
    hide Inv, UserReads, UserWrites, Translate, Owned, Replaced;
    MapIsolation(w, d, i, j, e, t);
    var w' := Mapped(w, d, i, j, e, t);
    Access(w, g, k, l);
    Access(w', g, k, l);
    if !(g == d && k == i && l == j) {
      assert SameAt(w.mem, w'.mem, g, k, l);
    }
  }

  // ---------------------------------------------------------------- mapping without the user flag

  /** What a mapping without the user flag leaves: memory and the free frames. */
  datatype Outcome = Outcome(mem: seq<Frame>, free: set<nat>)

  /**
   paging_map_in without the user flag.  A missing table is made in frame `t` and entered
   without the user bit; any other is written through, whoever shares it.
   */
  ghost function KernelMapped(w: World, d: nat, i: nat, j: nat, e: Entry, t: nat): Outcome
    requires Inv(w) && d in w.live && i < ENTRIES && j < ENTRIES && t < |w.mem|
  {
    TableFrame(w, d, i);
    if w.mem[d][i].Present() then
      var tt := w.mem[d][i].frame;
      Outcome(w.mem[tt := w.mem[tt][j := e]], w.free)
    else
      Outcome(w.mem[t := ZeroFrame()[j := e]][d := w.mem[d][i := Entry(t, KERNEL_RW)]], w.free - {t})
  }

  /** The operation can go through: the table is there, or `t` is a frame for it. */
  ghost predicate KernelMappable(w: World, d: nat, i: nat, j: nat, e: Entry, t: nat) {
    && Inv(w) && d in w.live && i < ENTRIES && j < ENTRIES && t < |w.mem| && !e.User()
    && (TableEntry(w, d, i).Present() || t in w.free)
  }

  /** The page is mapped; the table was missing, is private, or already said the same. */
  ghost predicate StaysInside(w: World, d: nat, i: nat, j: nat, e: Entry)
    requires Inv(w) && d in w.live && i < ENTRIES
  {
    || !TableEntry(w, d, i).Present()
    || Private(TableEntry(w, d, i))
    || Translate(w.mem, w.kernel, i, j) == Shown(e)
  }

  lemma KernelMappedAt(w: World, d: nat, i: nat, j: nat, e: Entry, t: nat, g: nat, k: nat, l: nat)
    requires KernelMappable(w, d, i, j, e, t) && Watched(w, g) && k < ENTRIES && l < ENTRIES
    ensures var mem' := KernelMapped(w, d, i, j, e, t).mem;
            && g < |w.mem| == |mem'| && |w.mem[g]| == |mem'[g]| == ENTRIES
            && (StaysInside(w, d, i, j, e) && !(g == d && k == i && l == j) ==>
                  Translate(mem', g, k, l) == Translate(w.mem, g, k, l))
            && (g == d && k == i && l == j ==> Translate(mem', g, k, l) == Shown(e))
            && (g == w.kernel && k == i && l == j && TableEntry(w, d, i).Present() && !Private(TableEntry(w, d, i)) ==>
                  Translate(mem', g, k, l) == Shown(e))
  {
    TableFrame(w, d, i);
    TableFrame(w, g, k);
    assert DirOk(w, d) && PdeOk(w, d, i);
    if g in w.live { assert DirOk(w, g); }
  }

  /**
   Such a mapping changes no other translation exactly when it stays inside; the page itself
   always gets its frame.
   */
  lemma KernelFlagIsolation(w: World, d: nat, i: nat, j: nat, e: Entry, t: nat)
    requires KernelMappable(w, d, i, j, e, t)
    ensures Isolated(w, KernelMapped(w, d, i, j, e, t).mem, d, i, j) <==> StaysInside(w, d, i, j, e)
    ensures var mem' := KernelMapped(w, d, i, j, e, t).mem;
            d < |mem'| && i < |mem'[d]| && Translate(mem', d, i, j) == Shown(e)
  {
    hide Inv, KernelMapped, StaysInside;
    var mem' := KernelMapped(w, d, i, j, e, t).mem;
    KernelMappedAt(w, d, i, j, e, t, d, i, j);
    KernelMappedAt(w, d, i, j, e, t, w.kernel, i, j);
    if StaysInside(w, d, i, j, e) {
      forall g: nat, k: nat, l: nat | Watched(w, g) && k < ENTRIES && l < ENTRIES && !(g == d && k == i && l == j)
        ensures SameAt(w.mem, mem', g, k, l)
      {
        KernelMappedAt(w, d, i, j, e, t, g, k, l);
      }
    } else {
      GoesOutside(w, d, i, j, e);
      assert !SameAt(w.mem, mem', w.kernel, i, j);
    }
  }

  lemma GoesOutside(w: World, d: nat, i: nat, j: nat, e: Entry)
    requires Inv(w) && d in w.live && i < ENTRIES && !StaysInside(w, d, i, j, e)
    ensures d != w.kernel && TableEntry(w, d, i).Present() && !Private(TableEntry(w, d, i))
    ensures Translate(w.mem, w.kernel, i, j) != Shown(e)
  {
    assert DirOk(w, d);
  }

  // ---------------------------------------------------------------- what teardown finds

  /** Freeing directory `d` hands back frame `f`: the directory, a private table, or a page in one. */
  ghost predicate Reclaims(mem: seq<Frame>, d: nat, f: nat)
    requires d < |mem| && |mem[d]| == ENTRIES
  {
    f == d || exists i: nat :: i < ENTRIES && ReclaimsAt(mem, mem[d][i], f)
  }

  ghost predicate ReclaimsAt(mem: seq<Frame>, pde: Entry, f: nat) {
    Private(pde) && (f == pde.frame || (pde.frame < |mem| && exists j: nat :: ReclaimsPage(mem, pde.frame, j, f)))
  }

  ghost predicate ReclaimsPage(mem: seq<Frame>, t: nat, j: nat, f: nat)
    requires t < |mem|
  {
    j < |mem[t]| && Returnable(mem[t][j], |mem|) && mem[t][j].frame == f
  }

  /** As long as the invariant holds, that is what the directory owns. */
  lemma ReclaimsOwned(w: World, d: nat, f: nat)
    requires Inv(w) && d in w.live
    ensures d < |w.mem| && |w.mem[d]| == ENTRIES && (Reclaims(w.mem, d, f) <==> f in Owned(w, d))
  {
    assert DirOk(w, d);
    if f in Owned(w, d) {
      assert RoleOk(w, f);
      OwnedReclaimed(w, d, f);
    }
    if Reclaims(w.mem, d, f) && f != d {
      var i: nat :| i < ENTRIES && ReclaimsAt(w.mem, w.mem[d][i], f);
      PrivateRole(w, d, i);
      if f != w.mem[d][i].frame {
        var j: nat :| ReclaimsPage(w.mem, w.mem[d][i].frame, j, f);
        assert RoleOk(w, w.mem[d][i].frame) && PteOk(w, w.mem[d][i].frame, d, i, j);
      }
    }
  }

  lemma PrivateRole(w: World, d: nat, i: nat)
    requires Inv(w) && d in w.live && i < ENTRIES && d < |w.mem| && |w.mem[d]| == ENTRIES && Private(w.mem[d][i])
    ensures w.mem[d][i].frame < |w.mem| && IsRole(w, w.mem[d][i].frame, Table(d, i))
  {
    assert DirOk(w, d) && PdeOk(w, d, i);
  }

  lemma OwnedReclaimed(w: World, d: nat, f: nat)
    requires Inv(w) && d in w.live && f in Owned(w, d) && RoleOk(w, f) && d < |w.mem| && |w.mem[d]| == ENTRIES
    ensures Reclaims(w.mem, d, f)
  {
    match w.role[f]
    case Table(_, i) => assert ReclaimsAt(w.mem, w.mem[d][i], f);
    case Page(_, i, j) =>
      assert ReclaimsPage(w.mem, w.mem[d][i].frame, j, f);
      assert ReclaimsAt(w.mem, w.mem[d][i], f);
    case _ =>
  }

  /** The frames that the allocator has, or gets back when directory `g` is freed. */
  ghost predicate Recoverable(mem: seq<Frame>, free: set<nat>, g: nat, f: nat)
    requires g < |mem| && |mem[g]| == ENTRIES
  {
    f in free || Reclaims(mem, g, f)
  }

  /** The frame that a mapping without the user flag puts out of reach of teardown, if any. */
  ghost function Forgotten(w: World, d: nat, i: nat, j: nat, t: nat): set<nat>
    requires Inv(w) && d in w.live && i < ENTRIES && j < ENTRIES
  {
    if TableEntry(w, d, i).Present() then Replaced(w, d, i, j) else {t}
  }

  /** Entries of private tables that the mapping does not write hand back what they did. */
  lemma KernelMapKeeps(w: World, d: nat, i: nat, j: nat, e: Entry, t: nat, g: nat, k: nat, f: nat)
    requires KernelMappable(w, d, i, j, e, t) && g in w.live && k < ENTRIES && !(g == d && k == i)
    ensures var mem' := KernelMapped(w, d, i, j, e, t).mem;
            && g < |w.mem| == |mem'| && |w.mem[g]| == |mem'[g]| == ENTRIES
            && (ReclaimsAt(mem', mem'[g][k], f) <==> ReclaimsAt(w.mem, w.mem[g][k], f))
  {
    TableFrame(w, d, i);
    TableFrame(w, g, k);
    assert DirOk(w, d) && DirOk(w, g) && PdeOk(w, d, i);
    var mem' := KernelMapped(w, d, i, j, e, t).mem;
    assert mem'[g][k] == w.mem[g][k];
    if Private(w.mem[g][k]) {
      PrivateRole(w, g, k);
      var tt := w.mem[g][k].frame;
      assert mem'[tt] == w.mem[tt];
      assert forall l: nat :: ReclaimsPage(mem', tt, l, f) <==> ReclaimsPage(w.mem, tt, l, f);
    }
  }

  /** The entry it does write. */
  lemma KernelMapDrops(w: World, d: nat, i: nat, j: nat, e: Entry, t: nat, f: nat)
    requires KernelMappable(w, d, i, j, e, t)
    ensures var mem' := KernelMapped(w, d, i, j, e, t).mem;
            && d < |w.mem| == |mem'| && |w.mem[d]| == |mem'[d]| == ENTRIES
            && (ReclaimsAt(mem', mem'[d][i], f) <==> ReclaimsAt(w.mem, w.mem[d][i], f) && f !in Replaced(w, d, i, j))
  {
    TableFrame(w, d, i);
    assert DirOk(w, d) && PdeOk(w, d, i);
    var mem' := KernelMapped(w, d, i, j, e, t).mem;
    if Private(w.mem[d][i]) {
      PrivateRole(w, d, i);
      var tt := w.mem[d][i].frame;
      assert RoleOk(w, tt);
      assert f in Replaced(w, d, i, j) ==> PteOk(w, tt, d, i, j);
      forall l: nat
        ensures ReclaimsPage(mem', tt, l, f) <==> ReclaimsPage(w.mem, tt, l, f) && l != j
        ensures ReclaimsPage(w.mem, tt, l, f) ==> (f in Replaced(w, d, i, j) <==> l == j)
      {
        assert l < ENTRIES ==> PteOk(w, tt, d, i, l);
      }
    }
  }

  /** A frame once in the way of page (`i`, `j`) is handed back from there only. */
  lemma ReplacedOnce(w: World, d: nat, i: nat, j: nat, g: nat, k: nat, f: nat)
    requires Inv(w) && d in w.live && g in w.live && i < ENTRIES && j < ENTRIES && k < ENTRIES
    requires f in Replaced(w, d, i, j)
    ensures g < |w.mem| && |w.mem[g]| == ENTRIES && f != g && (ReclaimsAt(w.mem, w.mem[g][k], f) ==> g == d && k == i)
  {
    TableFrame(w, d, i);
    TableFrame(w, g, k);
    assert DirOk(w, d) && DirOk(w, g);
    PrivateRole(w, d, i);
    assert RoleOk(w, w.mem[d][i].frame) && PteOk(w, w.mem[d][i].frame, d, i, j);
    if ReclaimsAt(w.mem, w.mem[g][k], f) {
      PrivateRole(w, g, k);
      if f != w.mem[g][k].frame {
        var l: nat :| ReclaimsPage(w.mem, w.mem[g][k].frame, l, f);
        assert RoleOk(w, w.mem[g][k].frame) && PteOk(w, w.mem[g][k].frame, g, k, l);
      }
    }
  }

  /** What teardown of any directory finds afterwards: all it found before, but for a page that was replaced. */
  lemma KernelMapReclaims(w: World, d: nat, i: nat, j: nat, e: Entry, t: nat, g: nat, f: nat)
    requires KernelMappable(w, d, i, j, e, t) && g in w.live
    ensures var mem' := KernelMapped(w, d, i, j, e, t).mem;
            && g < |w.mem| == |mem'| && |w.mem[g]| == |mem'[g]| == ENTRIES
            && (Reclaims(mem', g, f) <==> Reclaims(w.mem, g, f) && f !in Replaced(w, d, i, j))
  {
    hide Inv, KernelMapped, ReclaimsAt, Replaced;
    var mem' := KernelMapped(w, d, i, j, e, t).mem;
    KernelMapSizes(w, d, i, j, e, t, g);
    forall k: nat | k < ENTRIES
      ensures ReclaimsAt(mem', mem'[g][k], f) <==> ReclaimsAt(w.mem, w.mem[g][k], f) && f !in Replaced(w, d, i, j)
      ensures f in Replaced(w, d, i, j) ==> f != g
    {
      if f in Replaced(w, d, i, j) { ReplacedOnce(w, d, i, j, g, k, f); }
      if g == d && k == i {
        KernelMapDrops(w, d, i, j, e, t, f);
      } else {
        KernelMapKeeps(w, d, i, j, e, t, g, k, f);
      }
    }
    if f in Replaced(w, d, i, j) { ReplacedOnce(w, d, i, j, g, 0, f); }
  }

  lemma KernelMapSizes(w: World, d: nat, i: nat, j: nat, e: Entry, t: nat, g: nat)
    requires KernelMappable(w, d, i, j, e, t) && g in w.live
    ensures var mem' := KernelMapped(w, d, i, j, e, t).mem;
            && Inv(w) && d in w.live && i < ENTRIES && j < ENTRIES
            && g < |w.mem| == |mem'| && |w.mem[g]| == |mem'[g]| == ENTRIES
  {
    KernelMappedAt(w, d, i, j, e, t, g, 0, 0);
  }

  /**
   Conservation for a mapping without the user flag: what the allocator has or gets back from
   the directory loses exactly `Forgotten`.  So nothing is lost if and only if the table was
   there and the page it had is not one to hand back; a table made for the mapping is always lost.
   */
  lemma KernelFlagConserves(w: World, d: nat, i: nat, j: nat, e: Entry, t: nat, f: nat)
    requires KernelMappable(w, d, i, j, e, t)
    ensures var r := KernelMapped(w, d, i, j, e, t);
            && d < |w.mem| == |r.mem| && |w.mem[d]| == |r.mem[d]| == ENTRIES
            && (Recoverable(r.mem, r.free, d, f) <==>
                  Recoverable(w.mem, w.free, d, f) && f !in Forgotten(w, d, i, j, t))
            && (f in Forgotten(w, d, i, j, t) ==> Recoverable(w.mem, w.free, d, f))
  {
    KernelMapReclaims(w, d, i, j, e, t, d, f);
    ReclaimsOwned(w, d, f);
    ReplacedTaken(w, d, i, j);
    TableFrame(w, d, i);
    hide Reclaims;
    if f in Replaced(w, d, i, j) { ReplacedRecovered(w, d, i, j, f); }
    if f in w.free { FreeNotOwned(w, d, f); }
  }

  lemma FreeNotOwned(w: World, d: nat, f: nat)
    requires Inv(w) && f in w.free
    ensures f !in Owned(w, d)
  {
  }

  lemma ReplacedRecovered(w: World, d: nat, i: nat, j: nat, f: nat)
    requires Inv(w) && d in w.live && i < ENTRIES && j < ENTRIES && f in Replaced(w, d, i, j)
    ensures d < |w.mem| && |w.mem[d]| == ENTRIES && Reclaims(w.mem, d, f)
  {
    TableFrame(w, d, i);
    assert ReclaimsPage(w.mem, w.mem[d][i].frame, j, f);
    assert ReclaimsAt(w.mem, w.mem[d][i], f);
  }

  // ---------------------------------------------------------------- a mapping that goes outside

  /** Frame 1 is the kernel directory, 2 its only table, 3 a process directory cloned from it. */
  function SharedFrame(): (fr: Frame)
    ensures |fr| == ENTRIES && fr[0] == Entry(2, KERNEL_RW) && forall i :: 1 <= i < ENTRIES ==> fr[i] == ZeroFrame()[i]
  {
    ZeroFrame()[0 := Entry(2, KERNEL_RW)]
  }

  function SharedWorld(): World {
    World([ZeroFrame(), SharedFrame(), ZeroFrame(), SharedFrame()], 1, {3},
          map[1 := Kernel, 2 := Kernel, 3 := Directory], {})
  }

  lemma SharedInv()
    ensures Inv(SharedWorld())
  {
    var w := SharedWorld();
    assert forall i :: 0 <= i < ENTRIES ==> !SharedFrame()[i].User() && !ZeroFrame()[i].User();
    assert KernelTable(w, 2);
    forall i | 0 <= i < ENTRIES ensures PdeOk(w, 3, i) {
    }
    assert DirOk(w, 3);
  }

  /** Mapping page 0 of the process to frame 7 without the user flag maps page 0 of the kernel too. */
  lemma KernelFlagEscapes()
    ensures var w, e := SharedWorld(), Entry(7, KERNEL_RW);
            && KernelMappable(w, 3, 0, 0, e, 0) && Watched(w, 1)
            && Translate(w.mem, 1, 0, 0) == None && !Isolated(w, KernelMapped(w, 3, 0, 0, e, 0).mem, 3, 0, 0)
            && var mem' := KernelMapped(w, 3, 0, 0, e, 0).mem;
               1 < |mem'| && 0 < |mem'[1]| && Translate(mem', 1, 0, 0) == Some(e)
  {
    SharedInv();
    var w, e := SharedWorld(), Entry(7, KERNEL_RW);
    hide Inv, Isolated;
    assert Translate(w.mem, 1, 0, 0) == None;
    KernelFlagIsolation(w, 3, 0, 0, e, 0);
    KernelMappedAt(w, 3, 0, 0, e, 0, 1, 0, 0);
  }

  // ---------------------------------------------------------------- the lower entries of a clone

  /** Directory entries below this one are for user space. */
  const KERNEL_PDE_START := 768

  ghost predicate LowEmpty(mem: seq<Frame>, d: nat) {
    d < |mem| && |mem[d]| == ENTRIES && forall i :: 0 <= i < KERNEL_PDE_START ==> !mem[d][i].Present()
  }

  /**
   A clone gives user code nothing, and its lower entries are empty if and only if those of the
   kernel directory are.
   */
  lemma ClonedLow(w: World, d: nat)
    requires Inv(w) && d in w.free
    ensures var mem' := Cloned(w, d).mem;
            && (LowEmpty(mem', d) <==> LowEmpty(w.mem, w.kernel))
            && d < |mem'| && |mem'[d]| == ENTRIES
            && forall i :: 0 <= i < ENTRIES ==> !(mem'[d][i].Present() && mem'[d][i].User())
  {
    var fr := w.mem[w.kernel];
    assert Cloned(w, d).mem[d] == fr;
    forall i | 0 <= i < ENTRIES ensures !(fr[i].Present() && fr[i].User()) {
      TableFrame(w, w.kernel, i);
    }
  }

  /** Frame 3 is free. */
  function UnsharedWorld(): World {
    World([ZeroFrame(), SharedFrame(), ZeroFrame(), ZeroFrame()], 1, {}, map[1 := Kernel, 2 := Kernel], {3})
  }

  /** A clone whose lower entries are not empty. */
  lemma ClonedLowNot()
    ensures Inv(UnsharedWorld()) && 3 in UnsharedWorld().free && !LowEmpty(Cloned(UnsharedWorld(), 3).mem, 3)
  {
    var w := UnsharedWorld();
    assert forall i :: 0 <= i < ENTRIES ==> !SharedFrame()[i].User() && !ZeroFrame()[i].User();
    assert KernelTable(w, 2);
    assert Cloned(w, 3).mem[3] == SharedFrame();
  }
}
