/**
 What ext2_rename does to the directory tree (src/fs/ext2/ext2_file.c).  Nothing in the code
 stops a directory from being moved below itself: the move succeeds, and the directory with all
 that is below it can then no longer be reached from the root.
 */
module Ext2Reach {
  import opened Bits
  import opened Words
  import opened Ext2Layout
  import opened Ext2Space
  import opened Ext2Tree
  import opened Ext2Files
  import opened Ext2DirScan
  import opened Ext2Names
  import opened Ext2Dir
  import opened Ext2DirAdd
  import opened Ext2Move

  // ---------------------------------------------------------------- walking down

  predicate Dots(n: seq<byte>) {
    n == DOT || n == DOTDOT
  }

  /** Directory `j` stands under the name `n` in directory `i`. */
  predicate Child(b: Book, i: nat, n: seq<byte>, j: nat) {
    i in b && j in b && n in b[i].names && b[i].names[n].ino == j && !Dots(n)
  }

  ghost predicate Edge(b: Book, i: nat, j: nat) {
    exists n :: Child(b, i, n, j)
  }

  ghost predicate Walk(b: Book, path: seq<nat>) {
    |path| > 0 && forall k :: 0 <= k < |path| - 1 ==> Edge(b, path[k], path[k + 1])
  }

  ghost predicate Leads(b: Book, path: seq<nat>, i: nat, j: nat) {
    Walk(b, path) && path[0] == i && path[|path| - 1] == j
  }

  ghost predicate Reaches(b: Book, i: nat, j: nat) {
    exists path :: Leads(b, path, i, j)
  }

  lemma ReachesSelf(b: Book, i: nat)
    ensures Reaches(b, i, i)
  {
    assert Leads(b, [i], i, i);
  }

  lemma ReachesStep(b: Book, i: nat, j: nat, k: nat)
    requires Reaches(b, i, j) && Edge(b, j, k)
    ensures Reaches(b, i, k)
  {
    var path :| Leads(b, path, i, j);
    assert Leads(b, path + [k], i, k);
  }

  /** No edge leaves `s`. */
  ghost predicate Closed(b: Book, s: set<nat>) {
    forall i, j :: i in s && Edge(b, i, j) ==> j in s
  }

  lemma {:induction false} WalkClosed(b: Book, s: set<nat>, path: seq<nat>)
    requires Walk(b, path) && Closed(b, s) && path[0] in s
    ensures path[|path| - 1] in s
  {
    if |path| > 1 {
      var front := path[..|path| - 1];
      forall k | 0 <= k < |front| - 1 ensures Edge(b, front[k], front[k + 1]) {
        assert Edge(b, path[k], path[k + 1]);
      }
      WalkClosed(b, s, front);
      assert Edge(b, path[|path| - 2], path[|path| - 1]);
    }
  }

  lemma ReachedClosed(b: Book, s: set<nat>, i: nat, j: nat)
    requires Reaches(b, i, j) && Closed(b, s) && i in s
    ensures j in s
  {
    var path :| Leads(b, path, i, j);
    WalkClosed(b, s, path);
  }

  /** What is reached in some steps is reached by a last one. */
  lemma LastEdge(b: Book, i: nat, j: nat) returns (h: nat)
    requires Reaches(b, i, j) && i != j
    ensures Reaches(b, i, h) && Edge(b, h, j)
  {
    var path :| Leads(b, path, i, j);
    h := path[|path| - 2];
    assert Edge(b, path[|path| - 2], path[|path| - 1]);
    var front := path[..|path| - 1];
    forall k | 0 <= k < |front| - 1 ensures Edge(b, front[k], front[k + 1]) {
      assert Edge(b, path[k], path[k + 1]);
    }
    assert Leads(b, front, i, h);
  }

  // ---------------------------------------------------------------- a tree and a rename

  /** Every directory has at most one name, and the root has none. */
  ghost predicate Rooted(b: Book, root: nat) {
    && root in b
    && (forall i, n :: !Child(b, i, n, root))
    && forall i, n, i', n', j :: Child(b, i, n, j) && Child(b, i', n', j) ==> i == i' && n == n'
  }

  /** Directory `c` has lost the name `n1` in `p1` and got the name `n2` in `p2`; no other name differs. */
  ghost predicate Renamed(b: Book, b2: Book, p1: nat, n1: seq<byte>, p2: nat, n2: seq<byte>, c: nat) {
    && p2 in b && b2.Keys == b.Keys && Child(b, p1, n1, c) && !Child(b, p2, n2, c) && !Dots(n2)
    && forall i, n, j ::
      Child(b2, i, n, j) <==> (Child(b, i, n, j) && !(i == p1 && n == n1)) || (i == p2 && n == n2 && j == c)
  }

  /** A rename leaves every directory one name at most. */
  lemma StaysRooted(b: Book, b2: Book, root: nat, p1: nat, n1: seq<byte>, p2: nat, n2: seq<byte>, c: nat)
    requires Rooted(b, root) && Renamed(b, b2, p1, n1, p2, n2, c)
    ensures Rooted(b2, root)
  {
    hide Child;
    assert c != root;
  }

  /** An edge that does not end at the moved directory is in both trees. */
  lemma EdgeKept(b: Book, b2: Book, root: nat, p1: nat, n1: seq<byte>, p2: nat, n2: seq<byte>, c: nat, i: nat, j: nat)
    requires Rooted(b, root) && Renamed(b, b2, p1, n1, p2, n2, c)
    ensures j != c ==> (Edge(b2, i, j) <==> Edge(b, i, j))
    ensures j == c ==> (Edge(b2, i, j) <==> i == p2) && (Edge(b, i, j) <==> i == p1)
  {
    hide Child;
    if j == c {
      assert Child(b2, p2, n2, c) && Child(b, p1, n1, c);
    } else if Edge(b, i, j) {
      var n :| Child(b, i, n, j);
      UnlikeFirst(b, p1, n1, c, i, n, j);
      assert Child(b2, i, n, j);
    }
  }

  lemma UnlikeFirst(b: Book, p1: nat, n1: seq<byte>, c: nat, i: nat, n: seq<byte>, j: nat)
    requires Child(b, p1, n1, c) && Child(b, i, n, j) && j != c
    ensures !(i == p1 && n == n1)
  {
  }

  /** No directory is reached that was not reached before. */
  lemma NoneGained(b: Book, b2: Book, root: nat, p1: nat, n1: seq<byte>, p2: nat, n2: seq<byte>, c: nat, x: nat)
    requires Rooted(b, root) && Renamed(b, b2, p1, n1, p2, n2, c) && Reaches(b, root, p1)
    requires Reaches(b2, root, x)
    ensures Reaches(b, root, x)
  {
    hide Reaches, Edge, Rooted, Renamed;
    var s := set y | y in Below(b, root) && Reaches(b, root, y);
    forall i, j | i in s && Edge(b2, i, j) ensures j in s {
      EdgeKept(b, b2, root, p1, n1, p2, n2, c, i, j);
      EdgeKept(b, b2, root, p1, n1, p2, n2, c, p1, c);
      ReachesStep(b, root, if j == c then p1 else i, j);
      EdgeIn(b, if j == c then p1 else i, j);
    }
    ReachesSelf(b, root);
    ReachedClosed(b2, s, root, x);
  }

  /** All that can be reached from `i`. */
  function Below(b: Book, i: nat): set<nat> {
    b.Keys + {i}
  }

  lemma EdgeIn(b: Book, i: nat, j: nat)
    requires Edge(b, i, j)
    ensures i in b && j in b
  {
  }

  /** What is not below the moved directory is reached as before. */
  lemma OutsideKept(b: Book, b2: Book, root: nat, p1: nat, n1: seq<byte>, p2: nat, n2: seq<byte>, c: nat, x: nat)
    requires Rooted(b, root) && Renamed(b, b2, p1, n1, p2, n2, c)
    requires Reaches(b, root, x) && !Reaches(b, c, x)
    ensures Reaches(b2, root, x)
  {
    hide Reaches, Edge, Rooted, Renamed;
    var s := set y | y in Below(b, root) && (Reaches(b, c, y) || Reaches(b2, root, y));
    forall i, j | i in s && Edge(b, i, j) ensures j in s {
      EdgeIn(b, i, j);
      if Reaches(b, c, i) {
        ReachesStep(b, c, i, j);
      } else {
        ReachesSelf(b, c);
        EdgeKept(b, b2, root, p1, n1, p2, n2, c, i, j);
        if j != c { ReachesStep(b2, root, i, j); }
      }
    }
    ReachesSelf(b2, root);
    ReachedClosed(b, s, root, x);
  }

  /** If the new parent is not below the moved directory, that is reached under its new name, with all below it. */
  lemma AllKept(b: Book, b2: Book, root: nat, p1: nat, n1: seq<byte>, p2: nat, n2: seq<byte>, c: nat, x: nat)
    requires Rooted(b, root) && Renamed(b, b2, p1, n1, p2, n2, c)
    requires Reaches(b, root, p2) && !Reaches(b, c, p2) && Reaches(b, root, x)
    ensures Reaches(b2, root, x)
  {
    hide Reaches, Edge, Rooted, Renamed;
    OutsideKept(b, b2, root, p1, n1, p2, n2, c, p2);
    EdgeKept(b, b2, root, p1, n1, p2, n2, c, p2, c);
    ReachesStep(b2, root, p2, c);
    var s := set y | y in Below(b, root) && Reaches(b2, root, y);
    forall i, j | i in s && Edge(b, i, j) ensures j in s {
      EdgeIn(b, i, j);
      EdgeKept(b, b2, root, p1, n1, p2, n2, c, i, j);
      if j != c { ReachesStep(b2, root, i, j); }
    }
    ReachesSelf(b2, root);
    ReachedClosed(b, s, root, x);
  }

  /** If the new parent is below the moved directory, no path from the root leads there any more. */
  lemma CutOff(b: Book, b2: Book, root: nat, p1: nat, n1: seq<byte>, p2: nat, n2: seq<byte>, c: nat, x: nat)
    requires Rooted(b, root) && Renamed(b, b2, p1, n1, p2, n2, c)
    requires Reaches(b, c, p2) && Reaches(b, c, x)
    ensures !Reaches(b2, root, x)
  {
    RootApart(b, root, p1, n1, c);
    hide Reaches, Edge, Rooted, Renamed, Child;
    if Reaches(b2, root, x) {
      var s := set y | y in Below(b2, root) && !Reaches(b, c, y);
      forall i, j | i in s && Edge(b2, i, j) ensures j in s {
        EdgeIn(b2, i, j);
        EdgeKept(b, b2, root, p1, n1, p2, n2, c, i, j);
        if Reaches(b, c, j) {
          var h := LastEdge(b, c, j);
          OneParent(b, root, h, i, j);
        }
      }
      ReachedClosed(b2, s, root, x);
    }
  }

  lemma OneParent(b: Book, root: nat, h: nat, i: nat, j: nat)
    requires Rooted(b, root) && Edge(b, h, j) && Edge(b, i, j)
    ensures h == i
  {
    hide Child;
    var n :| Child(b, h, n, j);
    var n' :| Child(b, i, n', j);
  }

  lemma RootApart(b: Book, root: nat, p1: nat, n1: seq<byte>, c: nat)
    requires Rooted(b, root) && Child(b, p1, n1, c)
    ensures !Reaches(b, c, root)
  {
    hide Reaches, Child;
    if Reaches(b, c, root) {
      var _ := LastEdge(b, c, root);
    }
  }

  /** Exactly which directories can be reached after a rename. */
  lemma ReachedAfter(b: Book, b2: Book, root: nat, p1: nat, n1: seq<byte>, p2: nat, n2: seq<byte>, c: nat, x: nat)
    requires Rooted(b, root) && Renamed(b, b2, p1, n1, p2, n2, c) && Reaches(b, root, p1) && Reaches(b, root, p2)
    ensures Reaches(b2, root, x) <==> Reaches(b, root, x) && !(Reaches(b, c, p2) && Reaches(b, c, x))
  {
    hide Reaches, Edge, Rooted, Renamed;
    if Reaches(b2, root, x) {
      NoneGained(b, b2, root, p1, n1, p2, n2, c, x);
      if Reaches(b, c, p2) && Reaches(b, c, x) { CutOff(b, b2, root, p1, n1, p2, n2, c, x); }
    } else if Reaches(b, root, x) {
      if !Reaches(b, c, x) {
        OutsideKept(b, b2, root, p1, n1, p2, n2, c, x);
      } else if !Reaches(b, c, p2) {
        AllKept(b, b2, root, p1, n1, p2, n2, c, x);
      }
    }
  }

  /** Every directory that could be reached still can. */
  ghost predicate KeepsAll(b: Book, b2: Book, root: nat) {
    forall x :: Reaches(b, root, x) ==> Reaches(b2, root, x)
  }

  /** A rename keeps every directory within reach exactly if the new parent is not below the moved one. */
  lemma KeepsAllExactly(b: Book, b2: Book, root: nat, p1: nat, n1: seq<byte>, p2: nat, n2: seq<byte>, c: nat)
    requires Rooted(b, root) && Renamed(b, b2, p1, n1, p2, n2, c) && Reaches(b, root, p1) && Reaches(b, root, p2)
    ensures KeepsAll(b, b2, root) <==> !Reaches(b, c, p2)
  {
    hide Reaches, Rooted;
    forall x ensures Reaches(b2, root, x) <==> Reaches(b, root, x) && !(Reaches(b, c, p2) && Reaches(b, c, x)) {
      ReachedAfter(b, b2, root, p1, n1, p2, n2, c, x);
    }
    ReachesSelf(b, c);
    assert Edge(b, p1, c);
    ReachesStep(b, root, p1, c);
  }

  // ---------------------------------------------------------------- ext2_rename on the disk

  lemma ShiftedTree(b: Book, p1: nat, n1: seq<byte>, p2: nat, n2: seq<byte>, c: nat, bs: nat, grown: bool)
    requires Child(b, p1, n1, c) && p2 in b && n2 !in b[p2].names && p1 != p2 && !Dots(n2)
    ensures Renamed(b, Shifted(b, p1, n1, p2, n2, c, bs, grown), p1, n1, p2, n2, c)
  {
    var b2 := Shifted(b, p1, n1, p2, n2, c, bs, grown);
    forall i, n, j
      ensures
        Child(b2, i, n, j) <==> (Child(b, i, n, j) && !(i == p1 && n == n1)) || (i == p2 && n == n2 && j == c)
    {
      if i in b && !Dots(n) { NewNameAt(b, p1, n1, p2, n2, c, i, n); }
    }
  }

  lemma NewNameAt(b: Book, p1: nat, n1: seq<byte>, p2: nat, n2: seq<byte>, c: nat, i: nat, n: seq<byte>)
    requires Child(b, p1, n1, c) && p2 in b && n2 !in b[p2].names && p1 != p2 && i in b && !Dots(n)
    ensures var m := NewNames(b, p1, n1, p2, n2, c, i);
            if i == p2 && n == n2 then n in m && m[n] == b[p1].names[n1]
            else if i == p1 && n == n1 then n !in m
            else (n in m <==> n in b[i].names) && (n in m ==> m[n] == b[i].names[n])
  {
  }

  /** The names that one directory or two bind after an entry has moved. */
  ghost predicate MovedNames(b: Book, b2: Book, p1: nat, n1: seq<byte>, p2: nat, n2: seq<byte>) {
    && b2.Keys == b.Keys && p1 in b && p2 in b && n1 in b[p1].names && n2 !in b[p2].names
    && (forall j :: j in b && j != p1 && j != p2 ==> b2[j].names == b[j].names)
    && if p1 == p2 then b2[p1].names == (b[p1].names - {n1})[n2 := b[p1].names[n1]]
       else b2[p1].names == b[p1].names - {n1} && b2[p2].names == b[p2].names[n2 := b[p1].names[n1]]
  }

  lemma MovedChild(b: Book, b2: Book, p1: nat, n1: seq<byte>, p2: nat, n2: seq<byte>, c: nat, i: nat, n: seq<byte>,
                   j: nat)
    requires MovedNames(b, b2, p1, n1, p2, n2) && Child(b, p1, n1, c) && !Dots(n2)
    ensures Child(b2, i, n, j) <==> (Child(b, i, n, j) && !(i == p1 && n == n1)) || (i == p2 && n == n2 && j == c)
  {
  }

  lemma MovedRenamed(b: Book, b2: Book, p1: nat, n1: seq<byte>, p2: nat, n2: seq<byte>, c: nat)
    requires MovedNames(b, b2, p1, n1, p2, n2) && Child(b, p1, n1, c) && !Dots(n2)
    ensures Renamed(b, b2, p1, n1, p2, n2, c)
  {
    assert !Child(b, p2, n2, c) && p2 in b && b2.Keys == b.Keys;
    hide Child, MovedNames;
    forall i, n, j
      ensures
        Child(b2, i, n, j) <==> (Child(b, i, n, j) && !(i == p1 && n == n1)) || (i == p2 && n == n2 && j == c)
    {
      MovedChild(b, b2, p1, n1, p2, n2, c, i, n, j);
    }
  }

  lemma MovedBook(geo: Geo, d: seq<byte>, sup: seq<byte>, d2: seq<byte>, sup2: seq<byte>, files: set<nat>, p1: nat,
                  n1: seq<byte>, p2: nat, n2: seq<byte>)
    requires DirState(geo, d, sup, files, p1) && DirState(geo, d, sup, files, p2)
    requires Moved(geo, d, d2, sup2, files, p1, n1, p2, n2)
    ensures MovedNames(BookOf(geo, d, files), BookOf(geo, d2, files), p1, n1, p2, n2)
  {
    hide DirMap, Links, AnyRoom, Accounts, FilesOk, Layout, Shape, Sized, DirOk, Kept, IsDir;
    BookAt(geo, d, sup, files, p1);
    BookAt(geo, d, sup, files, p2);
    BookAt(geo, d2, sup2, files, p1);
    BookAt(geo, d2, sup2, files, p2);
    forall j | j in files && j != p1 && j != p2
      ensures IsDir(geo, d2, j) <==> IsDir(geo, d, j)
      ensures DirMap(geo, d2, j) == DirMap(geo, d, j)
    {
      KeptNode(geo, d, d2, j);
    }
  }

  /** ext2_rename of a directory has succeeded. */
  ghost predicate RenameGood(geo: Geo, d: seq<byte>, sup: seq<byte>, d2: seq<byte>, sup2: seq<byte>, files: set<nat>,
                             p1: nat, n1: seq<byte>, p2: nat, n2: seq<byte>, c: nat) {
    && DirState(geo, d, sup, files, p1) && DirState(geo, d, sup, files, p2)
    && (forall j :: j in files ==> Inode(geo, j)) && Child(BookOf(geo, d, files), p1, n1, c)
    && n2 !in DirMap(geo, d, p2)
    && if Reparents(geo, d, p1, n1, p2) then Reparented(geo, d, d2, sup2, files, p1, n1, p2, n2, c)
       else Moved(geo, d, d2, sup2, files, p1, n1, p2, n2)
  }

  lemma GoodTree(geo: Geo, d: seq<byte>, sup: seq<byte>, d2: seq<byte>, sup2: seq<byte>, files: set<nat>, p1: nat,
                 n1: seq<byte>, p2: nat, n2: seq<byte>, c: nat)
    requires RenameGood(geo, d, sup, d2, sup2, files, p1, n1, p2, n2, c) && !Dots(n2)
    ensures Volume(geo, d2) && Renamed(BookOf(geo, d, files), BookOf(geo, d2, files), p1, n1, p2, n2, c)
  {
    hide DirMap, Links, AnyRoom, Accounts, FilesOk, Layout, Shape, Sized, DirOk, Kept, Renamed, Shifted, BookOf, IsDir,
      MovedNames;
    if Reparents(geo, d, p1, n1, p2) {
      BookAt(geo, d, sup, files, p2);
      ShiftedTree(BookOf(geo, d, files), p1, n1, p2, n2, c, geo.bs, !AnyRoom(geo, d, p2, |n2|));
    } else {
      MovedBook(geo, d, sup, d2, sup2, files, p1, n1, p2, n2);
      MovedRenamed(BookOf(geo, d, files), BookOf(geo, d2, files), p1, n1, p2, n2, c);
    }
  }

  /**
   After ext2_rename of a directory: every directory still has one name at most, and all that were
   within reach of the root still are, exactly if the new parent is not below the directory; if it
   is, exactly the directory and what is below it are lost.
   */
  lemma RenameReach(geo: Geo, d: seq<byte>, sup: seq<byte>, d2: seq<byte>, sup2: seq<byte>, files: set<nat>, root: nat,
                    p1: nat, n1: seq<byte>, p2: nat, n2: seq<byte>, c: nat)
    requires RenameGood(geo, d, sup, d2, sup2, files, p1, n1, p2, n2, c) && !Dots(n2)
    requires Rooted(BookOf(geo, d, files), root)
    requires Reaches(BookOf(geo, d, files), root, p1) && Reaches(BookOf(geo, d, files), root, p2)
    ensures Volume(geo, d2) && Rooted(BookOf(geo, d2, files), root)
    ensures KeepsAll(BookOf(geo, d, files), BookOf(geo, d2, files), root) <==>
              !Reaches(BookOf(geo, d, files), c, p2)
    ensures forall x ::
              Reaches(BookOf(geo, d2, files), root, x) <==>
                Reaches(BookOf(geo, d, files), root, x) &&
                !(Reaches(BookOf(geo, d, files), c, p2) && Reaches(BookOf(geo, d, files), c, x))
  {
    GoodTree(geo, d, sup, d2, sup2, files, p1, n1, p2, n2, c);
    hide *;
    var b, b2 := BookOf(geo, d, files), BookOf(geo, d2, files);
    StaysRooted(b, b2, root, p1, n1, p2, n2, c);
    KeepsAllExactly(b, b2, root, p1, n1, p2, n2, c);
    forall x ensures Reaches(b2, root, x) <==> Reaches(b, root, x) && !(Reaches(b, c, p2) && Reaches(b, c, x)) {
      ReachedAfter(b, b2, root, p1, n1, p2, n2, c, x);
    }
  }

  // ---------------------------------------------------------------- a directory moved below itself

  const A: seq<byte> := [97]
  const X: seq<byte> := [120]
  const Y: seq<byte> := [121]
  const ONE := Meta(1024, 2, [])

  /** The root, /a and /a/x. */
  function ThreeDeep(): Book {
    map[2 := Node(map[DOT := Target(2, FT_DIR), DOTDOT := Target(2, FT_DIR), A := Target(11, FT_DIR)], 3, ONE),
        11 := Node(map[DOT := Target(11, FT_DIR), DOTDOT := Target(2, FT_DIR), X := Target(12, FT_DIR)], 3, ONE),
        12 := Node(map[DOT := Target(12, FT_DIR), DOTDOT := Target(11, FT_DIR)], 2, ONE)]
  }

  lemma ThreeDeepChild(i: nat, n: seq<byte>, j: nat)
    ensures Child(ThreeDeep(), i, n, j) <==> (i == 2 && n == A && j == 11) || (i == 11 && n == X && j == 12)
  {
  }

  lemma ThreeDeepRooted()
    ensures Rooted(ThreeDeep(), 2)
  {
    hide Child;
    forall i, n, j
      ensures Child(ThreeDeep(), i, n, j) <==> (i == 2 && n == A && j == 11) || (i == 11 && n == X && j == 12)
    {
      ThreeDeepChild(i, n, j);
    }
  }

  lemma ThreeDeepReached()
    ensures Reaches(ThreeDeep(), 2, 11) && Reaches(ThreeDeep(), 2, 12) && Reaches(ThreeDeep(), 11, 12)
    ensures Reaches(ThreeDeep(), 11, 11)
  {
    hide Reaches, Child;
    var b := ThreeDeep();
    ThreeDeepChild(2, A, 11);
    ThreeDeepChild(11, X, 12);
    ReachesSelf(b, 2);
    ReachesSelf(b, 11);
    ReachesStep(b, 2, 2, 11);
    ReachesStep(b, 2, 11, 12);
    ReachesStep(b, 11, 11, 12);
  }

  /** /a renamed to /a/x/y: the root keeps neither, and /a and /a/x hold each other. */
  lemma BelowItself()
    ensures Rooted(ThreeDeep(), 2) && Reaches(ThreeDeep(), 2, 11) && Reaches(ThreeDeep(), 2, 12)
    ensures var b2 := Shifted(ThreeDeep(), 2, A, 12, Y, 11, 1024, false);
            && b2[2] == Node(map[DOT := Target(2, FT_DIR), DOTDOT := Target(2, FT_DIR)], 2, ONE)
            && b2[11].names[DOTDOT].ino == 12 && b2[12].names[Y].ino == 11 && b2[12].links == 3
            && !Reaches(b2, 2, 11) && !Reaches(b2, 2, 12)
  {
    hide Reaches, Rooted, Renamed, Child;
    var b := ThreeDeep();
    ThreeDeepRooted();
    ThreeDeepReached();
    ThreeDeepChild(2, A, 11);
    ShiftedTree(b, 2, A, 12, Y, 11, 1024, false);
    var b2 := Shifted(b, 2, A, 12, Y, 11, 1024, false);
    CutOff(b, b2, 2, 2, A, 12, Y, 11, 11);
    CutOff(b, b2, 2, 2, A, 12, Y, 11, 12);
    assert b2[2].names == map[DOT := Target(2, FT_DIR), DOTDOT := Target(2, FT_DIR)];
  }
}
