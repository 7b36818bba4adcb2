/**
 A directory as a finite map: the list of its names in use, read as a map from names to
 inode and type, under insertion, removal and exchange of one entry.
 */
module Ext2Names {
  import opened Bits
  import opened Ext2DirBlock
  import opened Ext2DirScan

  datatype Target = Target(ino: nat, ftype: byte)

  predicate Unique(list: seq<Binding>) {
    forall j, k :: 0 <= j < k < |list| ==> list[j].name != list[k].name
  }

  /** The map that a list of entries stands for. */
  function MapOf(list: seq<Binding>): map<seq<byte>, Target> {
    if list == [] then map[]
    else
      var e := list[|list| - 1];
      MapOf(list[..|list| - 1])[e.name := Target(e.ino, e.ftype)]
  }

  /** A name is in the map exactly when some entry has it. */
  lemma {:induction false} MapDomain(list: seq<Binding>, name: seq<byte>)
    ensures name in MapOf(list) <==> !Unnamed(list, name)
  {
    if list != [] {
      var init, e := list[..|list| - 1], list[|list| - 1];
      MapDomain(init, name);
      if !Unnamed(init, name) {
        var k :| 0 <= k < |init| && init[k].name == name;
        assert list[k].name == name;
      }
    }
  }

  /** Each entry is what the map says, names being different. */
  lemma {:induction false} MapAt(list: seq<Binding>, k: nat)
    requires Unique(list) && k < |list|
    ensures list[k].name in MapOf(list) && MapOf(list)[list[k].name] == Target(list[k].ino, list[k].ftype)
  {
    var init := list[..|list| - 1];
    if k < |list| - 1 {
      MapAt(init, k);
      assert init[k] == list[k] && list[k].name != list[|list| - 1].name;
    }
  }

  /** The map is determined by the entries, in whatever order. */
  lemma MapEqual(list: seq<Binding>, m: map<seq<byte>, Target>)
    requires Unique(list) && forall name :: name in m <==> !Unnamed(list, name)
    requires forall k :: 0 <= k < |list| ==> list[k].name in m && m[list[k].name] == Target(list[k].ino, list[k].ftype)
    ensures MapOf(list) == m
  {
    hide MapOf, Unique;
    forall name ensures name in MapOf(list) <==> name in m {
      MapDomain(list, name);
    }
    forall name | name in m ensures MapOf(list)[name] == m[name] {
      var k :| 0 <= k < |list| && list[k].name == name;
      MapAt(list, k);
    }
  }

  /** An entry with a new name keeps the names different. */
  lemma InsertUnique(a: seq<Binding>, c: seq<Binding>, e: Binding, k: int)
    requires Unique(a) && InsertedAt(a, c, e, k) && Unnamed(a, e.name)
    ensures Unique(c) && c[k] == e
    ensures forall n :: 0 <= n < |a| ==> c[if n < k then n else n + 1] == a[n]
  {
    forall i, j | 0 <= i < j < |c| ensures c[i].name != c[j].name {
      assert c[i] == if i < k then a[i] else if i == k then e else a[i - 1];
      assert c[j] == if j < k then a[j] else if j == k then e else a[j - 1];
    }
  }

  /** Names stay different under insertion if and only if the new one is not there yet. */
  lemma InsertFresh(a: seq<Binding>, c: seq<Binding>, e: Binding, k: int)
    requires Unique(a) && InsertedAt(a, c, e, k)
    ensures Unique(c) <==> Unnamed(a, e.name)
  {
    if Unnamed(a, e.name) {
      InsertUnique(a, c, e, k);
    } else {
      var n :| 0 <= n < |a| && a[n].name == e.name;
      assert c[k] == e && c[if n < k then n else n + 1] == a[n];
    }
  }

  /** Insertion adds one fresh binding; all others survive. */
  lemma MapInserted(a: seq<Binding>, c: seq<Binding>, e: Binding, k: int)
    requires Unique(a) && InsertedAt(a, c, e, k) && Unnamed(a, e.name)
    ensures Unique(c) && MapOf(c) == MapOf(a)[e.name := Target(e.ino, e.ftype)]
  {
    InsertUnique(a, c, e, k);
    var m := MapOf(a)[e.name := Target(e.ino, e.ftype)];
    forall name ensures name in m <==> !Unnamed(c, name) {
      MapDomain(a, name);
      if name == e.name {
        assert c[k].name == name;
      } else if !Unnamed(a, name) {
        var n :| 0 <= n < |a| && a[n].name == name;
        assert c[if n < k then n else n + 1].name == name;
      }
    }
    forall n | 0 <= n < |c| ensures c[n].name in m && m[c[n].name] == Target(c[n].ino, c[n].ftype) {
      if n != k {
        var n0 := if n < k then n else n - 1;
        assert c[n] == a[n0];
        MapAt(a, n0);
      }
    }
    MapEqual(c, m);
  }

  /** Removal deletes one binding; all others survive. */
  lemma MapDeleted(a: seq<Binding>, c: seq<Binding>, k: int)
    requires Unique(a) && DeletedAt(a, c, k)
    ensures Unique(c) && MapOf(c) == MapOf(a) - {a[k].name} && Unnamed(c, a[k].name)
  {
    assert a == c[..k] + [a[k]] + c[k..];
    assert InsertedAt(c, a, a[k], k);
    forall i, j | 0 <= i < j < |c| ensures c[i].name != c[j].name {
      assert c[i] == a[if i < k then i else i + 1] && c[j] == a[if j < k then j else j + 1];
    }
    forall n | 0 <= n < |c| ensures c[n].name != a[k].name {
      assert c[n] == a[if n < k then n else n + 1];
    }
    MapInserted(c, a, a[k], k);
    MapDomain(c, a[k].name);
  }

  /** Exchanging an entry under a new name is removing the old one and adding the new. */
  lemma MapExchanged(a: seq<Binding>, c: seq<Binding>, k: int, e: Binding)
    requires Unique(a) && ExchangedAt(a, c, k, e) && (Unnamed(a, e.name) || e.name == a[k].name)
    ensures Unique(c) && MapOf(c) == (MapOf(a) - {a[k].name})[e.name := Target(e.ino, e.ftype)]
  {
    var m := a[..k] + a[k + 1..];
    MapDeleted(a, m, k);
    assert InsertedAt(m, c, e, k);
    forall n | 0 <= n < |m| ensures m[n].name != e.name {
      assert m[n] == a[if n < k then n else n + 1];
    }
    MapInserted(m, c, e, k);
  }

  /** Renaming in place, and adding under the new name before removing the old one, give the same map. */
  lemma RenameEither(m: map<seq<byte>, Target>, old1: seq<byte>, new1: seq<byte>)
    requires old1 in m && new1 !in m
    ensures (m - {old1})[new1 := m[old1]] == m[new1 := m[old1]] - {old1}
  {
  }
}
