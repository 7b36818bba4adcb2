/**
 The paging code itself (src/arch/x86/cpu/paging.c): it edits frames in place,
 entry by entry, and takes and returns frames of the allocator.  Directories are
 named by their frame number; frame 0 stands for the null address.
 */
module Mmu {
  import opened Pmm
  import opened Paging

  function PageDirIndex(virt: nat): (i: nat)
    ensures i < ENTRIES
  {
    (virt / 0x400000) % ENTRIES
  }

  function PageTableIndex(virt: nat): (j: nat)
    ensures j < ENTRIES
  {
    (virt / 0x1000) % ENTRIES
  }

  class PageTables {
    const pmm: FrameAllocator
    const mem: array<Frame>
    const kernel: nat
    ghost var live: set<nat>
    ghost var role: map<nat, Role>

    ghost function W(): World
      reads this, pmm, mem
    {
      World(mem[..], kernel, live, role, pmm.free)
    }

    ghost predicate Valid()
      reads this, pmm, pmm.bitmap, mem
    {
      pmm.Valid() && mem as object != pmm.bitmap && mem.Length == pmm.totalPages && Inv(W())
    }

    /** The state paging_init leaves: `frames` holds the kernel directory and its tables. */
    constructor (allocator: FrameAllocator, memory: array<Frame>, directory: nat, ghost frames: set<nat>)
      requires allocator.Valid() && 0 !in allocator.free && memory.Length == allocator.totalPages
      requires forall f :: 0 <= f < memory.Length ==> |memory[f]| == ENTRIES
      requires memory as object != allocator.bitmap && directory in frames
      requires forall f :: f in frames ==> 0 < f < memory.Length && f !in allocator.free && NoUser(memory[f])
      requires forall i :: 0 <= i < ENTRIES && memory[directory][i].Present() ==>
                 memory[directory][i].frame in frames && memory[directory][i].frame != directory
      ensures Valid() && live == {} && pmm == allocator && mem == memory && kernel == directory
    {
      pmm, mem, kernel := allocator, memory, directory;
      live := {};
      role := map f | f in frames :: Kernel;
      new;
      pmm.FreeInRange();
    }

    /** paging_get_physical_in: the physical address, or 0. */
    method GetPhysicalIn(d: nat, virt: nat) returns (phys: nat)
      requires Valid() && Watched(W(), d)
      ensures d < mem.Length && |mem[d]| == ENTRIES
      ensures phys == match Translate(mem[..], d, PageDirIndex(virt), PageTableIndex(virt))
                      case None => 0
                      case Some(e) => e.frame * PAGE_SIZE + virt % PAGE_SIZE
    {
      var i, j := PageDirIndex(virt), PageTableIndex(virt);
      TableFrame(W(), d, i);
      if !mem[d][i].Present() {
        return 0;
      }
      var table := mem[d][i].frame;
      if !mem[table][j].Present() {
        return 0;
      }
      return mem[table][j].frame * PAGE_SIZE + virt % PAGE_SIZE;
    }

    /** Word-by-word copy of frame `from` over frame `to`. */
    method CopyFrame(from: nat, to: nat)
      requires from < mem.Length && to < mem.Length && from != to
      requires |mem[from]| == ENTRIES && |mem[to]| == ENTRIES
      modifies mem
      ensures mem[..] == old(mem[..])[to := old(mem[from])]
    {
      var i := 0;
      while i < ENTRIES
        invariant 0 <= i <= ENTRIES
        invariant |mem[to]| == ENTRIES
        invariant mem[to][..i] == old(mem[from])[..i]
        invariant forall f :: 0 <= f < mem.Length && f != to ==> mem[f] == old(mem[f])
      {
        mem[to] := mem[to][i := mem[from][i]];
        i := i + 1;
      }
      assert mem[to] == old(mem[from]);
    }

    /** paging_clone_directory: 0 when no frame is free. */
    method CloneDirectory() returns (d: nat)
      requires Valid()
      modifies this`live, this`role, pmm, pmm.bitmap, mem
      ensures Valid()
      ensures old(pmm.free) == {} ==> d == 0 && W() == old(W())
      ensures old(pmm.free) != {} ==>
                && d in old(pmm.free) && d !in old(live) && live == old(live) + {d}
                && W() == Cloned(old(W()), d) && Owned(W(), d) == {d}
    {
      ghost var w := W();
      pmm.FreeInRange();
      var page := pmm.AllocPage();
      if page == 0 {
        return 0;
      }
      d := page / PAGE_SIZE;
      assert |w.mem[d]| == ENTRIES && |w.mem[kernel]| == ENTRIES;
      CopyFrame(kernel, d);
      live := live + {d};
      role := role[d := Directory];
      ClonedInv(w, d);
    }
  
    /** The first half of paging_map_in for a user mapping: make sure the table is private. */
    method MakePrivate(d: nat, i: nat) returns (ok: bool, ghost t: nat)
      requires Valid() && d in live && i < ENTRIES
      modifies this`role, pmm, pmm.bitmap, mem
      ensures Valid() && pmm.free <= old(pmm.free)
      ensures ok <==> Private(TableEntry(old(W()), d, i)) || old(pmm.free) != {}
      ensures !ok ==> W() == old(W())
      ensures ok ==> t < mem.Length && (Private(TableEntry(old(W()), d, i)) || t in old(pmm.free))
      ensures ok ==> W() == Prepared(old(W()), d, i, t)
    {
      hide Inv, FrameAllocator.Valid;
      ghost var w := W();
      TableFrame(w, d, i);
      DirectoryTaken(w, d);
      t := 0;
      pmm.FreeInRange();
      if mem[d][i].Present() && mem[d][i].User() {
        return true, t;
      }
      SharedEntry(w, d, i);
      var page := pmm.AllocPage();
      if page == 0 {
        return false, t;
      }
      var table := page / PAGE_SIZE;
      t := table;
      assert |w.mem[t]| == ENTRIES;
      if !mem[d][i].Present() {
        mem[table] := ZeroFrame();
        mem[d] := mem[d][i := Entry(table, KERNEL_RW)];
        mem[d] := mem[d][i := mem[d][i].(flags := mem[d][i].flags.(user := true))];
      } else {
        assert |w.mem[w.mem[d][i].frame]| == ENTRIES;
        CopyFrame(mem[d][i].frame, table);
        mem[d] := mem[d][i := Entry(table, USER_RW)];
      }
      role := role[t := Table(d, i)];
      assert mem[d] == w.mem[d][i := Entry(t, USER_RW)];
      assert mem[t] == TableCopy(w, d, i);
      assert mem[..] == w.mem[t := mem[t]][d := mem[d]];
      PrivatisedInv(w, d, i, t);
      ok := true;
    }

    /** paging_map_in with the user and present flags. */
    method MapUser(d: nat, virt: nat, frame: nat, flags: EntryFlags) returns (ok: bool, ghost t: nat)
      requires Valid() && d in live && flags.present && flags.user && Mappable(W(), frame)
      modifies this`role, pmm, pmm.bitmap, mem
      ensures Valid() && live == old(live)
      ensures ok <==> Private(TableEntry(old(W()), d, PageDirIndex(virt))) || old(pmm.free) != {}
      ensures !ok ==> W() == old(W())
      ensures ok ==> t < mem.Length && (Private(TableEntry(old(W()), d, PageDirIndex(virt))) || t in old(pmm.free))
      ensures ok ==> W() == Mapped(old(W()), d, PageDirIndex(virt), PageTableIndex(virt), Entry(frame, flags), t)
      ensures ok ==> Isolated(old(W()), mem[..], d, PageDirIndex(virt), PageTableIndex(virt))
      ensures ok ==> d < mem.Length && |mem[d]| == ENTRIES
                     && Translate(mem[..], d, PageDirIndex(virt), PageTableIndex(virt)) == Some(Entry(frame, flags))
      ensures ok ==> pmm.free + Owned(W(), d) ==
                       old(pmm.free + Owned(W(), d)) - Replaced(old(W()), d, PageDirIndex(virt), PageTableIndex(virt))
                       + (if 0 < frame < mem.Length then {frame} else {})
      ensures ok ==> forall g :: g != d ==> Owned(W(), g) == old(Owned(W(), g))
    {
      hide Inv, Owned, Isolated, Replaced, FrameAllocator.Valid;
      ghost var w := W();
      var i, j := PageDirIndex(virt), PageTableIndex(virt);
      ok, t := MakePrivate(d, i);
      if !ok {
        return;
      }
      ghost var e := Entry(frame, flags);
      ghost var w1 := W();
      PreparedOk(w, d, i, t);
      TableFrame(w1, d, i);
      MapIsolation(w, d, i, j, e, t);
      var table := mem[d][i].frame;
      mem[table] := mem[table][j := Entry(frame, flags)];
      role := PteSet(w1, d, i, j, e).role;
      assert mem[..] == PteSet(w1, d, i, j, e).mem;
      assert W() == Mapped(w, d, i, j, e, t);
    }

    /**
     paging_map_in without the user flag.  When the table is missing it is made, but entered
     like a kernel table, so the invariant of the class holds afterwards only in the other case.
     */
    method MapKernel(d: nat, virt: nat, frame: nat, flags: EntryFlags) returns (ok: bool, ghost t: nat)
      requires Valid() && d in live && !flags.user
      modifies pmm, pmm.bitmap, mem
      ensures pmm.Valid()
      ensures ok <==> TableEntry(old(W()), d, PageDirIndex(virt)).Present() || old(pmm.free) != {}
      ensures !ok ==> W() == old(W())
      ensures ok ==> KernelMappable(old(W()), d, PageDirIndex(virt), PageTableIndex(virt), Entry(frame, flags), t)
      ensures ok ==> Outcome(mem[..], pmm.free) ==
                       KernelMapped(old(W()), d, PageDirIndex(virt), PageTableIndex(virt), Entry(frame, flags), t)
      ensures ok ==> (Isolated(old(W()), mem[..], d, PageDirIndex(virt), PageTableIndex(virt)) <==>
                      StaysInside(old(W()), d, PageDirIndex(virt), PageTableIndex(virt), Entry(frame, flags)))
    {
      hide Inv, Isolated, StaysInside, FrameAllocator.Valid;
      ghost var w := W();
      var i, j := PageDirIndex(virt), PageTableIndex(virt);
      ghost var e := Entry(frame, flags);
      TableFrame(w, d, i);
      DirectoryTaken(w, d);
      t := 0;
      pmm.FreeInRange();
      if !mem[d][i].Present() {
        var page := pmm.AllocPage();
        if page == 0 {
          return false, t;
        }
        var table := page / PAGE_SIZE;
        t := table;
        mem[table] := ZeroFrame();
        mem[d] := mem[d][i := Entry(table, KERNEL_RW)];
      }
      KernelFlagIsolation(w, d, i, j, e, t);
      var table := mem[d][i].frame;
      mem[table] := mem[table][j := Entry(frame, flags)];
      assert mem[..] == KernelMapped(w, d, i, j, e, t).mem;
      ok := true;
    }

    // ---------------------------------------------------------------- paging_free_directory

    /** One step of the inner loop: hand back the frame of a user entry that the allocator owns. */
    method FreeEntry(e: Entry) returns (panicked: bool)
      requires pmm.Valid()
      modifies pmm, pmm.bitmap
      ensures pmm.Valid()
      ensures panicked <==> Returnable(e, pmm.totalPages) && e.frame in old(pmm.free)
      ensures !panicked ==> pmm.free == old(pmm.free) + if Returnable(e, pmm.totalPages) then {e.frame} else {}
    {
      panicked := false;
      if e.Present() && e.User() {
        if e.frame != 0 && e.frame < pmm.totalPages {
          var r := pmm.FreePage(Address(e.frame));
          panicked := !r.Freed?;
        }
      }
    }

    /** The inner loop over a private table, and the table's own frame. */
    method FreeTable(d: nat, i: nat, ghost w: World) returns (panicked: bool)
      requires pmm.Valid() && mem as object != pmm.bitmap && mem.Length == pmm.totalPages
      requires Inv(w) && d in w.live && i < ENTRIES && mem[..] == w.mem
      requires Private(TableEntry(w, d, i))
      requires pmm.free == w.free + Before(w, d, i, 0)
      modifies pmm, pmm.bitmap
      ensures pmm.Valid() && !panicked
      ensures pmm.free == w.free + Before(w, d, i + 1, 0)
    {
      hide Inv, Before, FrameAllocator.Valid;
      BeforeTable(w, d, i);
      var t := mem[d][i].frame;
      var table := mem[t];
      assert table == w.mem[t] && |table| == ENTRIES;
      var j := 0;
      while j < ENTRIES
        invariant 0 <= j <= ENTRIES && pmm.Valid()
        invariant pmm.free == w.free + Before(w, d, i, j)
      {
        BeforePage(w, d, i, j);
        panicked := FreeEntry(table[j]);
        if panicked {
          return;
        }
        j := j + 1;
      }
      var r := pmm.FreePage(Address(t));
      panicked := !r.Freed?;
    }

    /** The outer loop over the entries of a directory. */
    method FreeTables(d: nat, ghost w: World) returns (panicked: bool)
      requires pmm.Valid() && mem as object != pmm.bitmap && mem.Length == pmm.totalPages
      requires Inv(w) && d in w.live && mem[..] == w.mem && pmm.free == w.free
      modifies pmm, pmm.bitmap
      ensures pmm.Valid() && !panicked
      ensures pmm.free == w.free + Before(w, d, ENTRIES, 0)
    {
      hide Inv, Before, FrameAllocator.Valid;
      panicked := false;
      BeforeNone(w, d);
      var dir := mem[d];
      assert dir == w.mem[d] && |dir| == ENTRIES;
      var i := 0;
      while i < ENTRIES
        invariant 0 <= i <= ENTRIES && pmm.Valid() && !panicked
        invariant pmm.free == w.free + Before(w, d, i, 0)
      {
        if !dir[i].Present() || !dir[i].User() {
          BeforeShared(w, d, i);
        } else {
          panicked := FreeTable(d, i, w);
        }
        i := i + 1;
      }
    }

    /** paging_free_directory: never meets the allocator's double-free or range panic. */
    method FreeDirectory(d: nat) returns (panicked: bool)
      requires Valid() && (d == 0 || d == kernel || d in live)
      modifies this`live, this`role, pmm, pmm.bitmap
      ensures Valid() && !panicked
      ensures W() == if d == 0 || d == kernel then old(W()) else TornDown(old(W()), d)
      ensures forall g :: g != d ==> Owned(W(), g) == Owned(old(W()), g)
    {
      hide Inv, Before, Owned, TornDown, FrameAllocator.Valid;
      if d == 0 || d == kernel {
        return false;
      }
      ghost var w := W();
      panicked := FreeTables(d, w);
      BeforeAll(w, d);
      TornDownParts(w, d);
      TornDownInv(w, d);
      TornDownOwned(w, d);
      live := live - {d};
      role := TornDown(w, d).role;
      assert pmm.Valid();
      var r := pmm.FreePage(Address(d));
      panicked := !r.Freed?;
      assert pmm.free == w.free + Owned(w, d);
      assert W() == TornDown(w, d);
    }
  }

  lemma TornDownParts(w: World, d: nat)
    ensures var w' := TornDown(w, d);
            w' == World(w.mem, w.kernel, w.live - {d}, w'.role, w.free + Owned(w, d))
  {
  }

  /** The role comes before position (`i`, `j`) of the teardown loops. */
  ghost predicate Earlier(r: Role, d: nat, i: nat, j: nat) {
    match r
    case Table(g, k) => g == d && k < i
    case Page(g, k, l) => g == d && (k < i || (k == i && l < j))
    case _ => false
  }

  /** The frames of `d` handed back when the teardown loops stand at (`i`, `j`). */
  ghost function Before(w: World, d: nat, i: nat, j: nat): set<nat> {
    set f | f in w.role && Earlier(w.role[f], d, i, j)
  }

  lemma BeforeNone(w: World, d: nat)
    requires Inv(w) && d in w.live
    ensures Before(w, d, 0, 0) == {}
    ensures d < |w.mem| && |w.mem[d]| == ENTRIES
  {
    assert DirOk(w, d);
  }

  lemma BeforePage(w: World, d: nat, i: nat, j: nat)
    requires Inv(w) && d in w.live && i < ENTRIES && j < ENTRIES && Private(TableEntry(w, d, i))
    ensures var e := w.mem[d][i];
            d < |w.mem| && e.frame < |w.mem| && |w.mem[e.frame]| == ENTRIES
    ensures var e := w.mem[w.mem[d][i].frame][j];
            if Returnable(e, |w.mem|)
            then Before(w, d, i, j + 1) == Before(w, d, i, j) + {e.frame} && e.frame !in w.free + Before(w, d, i, j)
            else Before(w, d, i, j + 1) == Before(w, d, i, j)
  {
    TableFrame(w, d, i);
    var t := w.mem[d][i].frame;
    assert DirOk(w, d) && PdeOk(w, d, i);
    assert RoleOk(w, t) && PteOk(w, t, d, i, j);
    forall f | f in w.role && w.role[f] == Page(d, i, j)
      ensures w.mem[t][j].frame == f && Returnable(w.mem[t][j], |w.mem|)
    {
      assert RoleOk(w, f);
    }
  }

  lemma BeforeTable(w: World, d: nat, i: nat)
    requires Inv(w) && d in w.live && i < ENTRIES && Private(TableEntry(w, d, i))
    ensures var t := TableEntry(w, d, i).frame;
            t < |w.mem| && t !in w.free + Before(w, d, i, ENTRIES) &&
            Before(w, d, i + 1, 0) == Before(w, d, i, ENTRIES) + {t}
    ensures d < |w.mem| && |w.mem[d]| == ENTRIES && |w.mem[TableEntry(w, d, i).frame]| == ENTRIES
  {
    TableFrame(w, d, i);
    var t := w.mem[d][i].frame;
    assert DirOk(w, d) && PdeOk(w, d, i);
    forall f | f in w.role
      ensures Earlier(w.role[f], d, i + 1, 0) <==> Earlier(w.role[f], d, i, ENTRIES) || f == t
    {
      assert RoleOk(w, f);
    }
  }

  lemma BeforeShared(w: World, d: nat, i: nat)
    requires Inv(w) && d in w.live && i < ENTRIES && !Private(TableEntry(w, d, i))
    ensures Before(w, d, i + 1, 0) == Before(w, d, i, 0)
  {
    forall f | f in w.role
      ensures Earlier(w.role[f], d, i + 1, 0) <==> Earlier(w.role[f], d, i, 0)
    {
      assert RoleOk(w, f);
    }
  }

  lemma BeforeAll(w: World, d: nat)
    requires Inv(w) && d in w.live
    ensures Owned(w, d) == Before(w, d, ENTRIES, 0) + {d}
    ensures d !in w.free + Before(w, d, ENTRIES, 0) && 0 < d < |w.mem|
  {
    assert DirOk(w, d);
    forall f | f in w.role
      ensures OwnedBy(w.role[f], d, f) <==> Earlier(w.role[f], d, ENTRIES, 0) || f == d
    {
      assert RoleOk(w, f);
    }
  }
}
