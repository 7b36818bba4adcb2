/**
 Bitmaps packed eight to a byte, as both the page-frame allocator and the ext2
 driver keep them.  Bit `i` lives in byte `i / 8` at position `i % 8`.
 */
module Bits {

  type byte = x: int | 0 <= x < 256

  /** b & (1 << k), as a truth value. */
  predicate Has(b: nat, k: nat) {
    if k == 0 then b % 2 == 1 else Has(b / 2, k - 1)
  }

  predicate Bit(s: seq<byte>, i: nat)
    requires i < 8 * |s|
  {
    Has(s[i / 8], i % 8)
  }

  /** b | (1 << k), or b & ~(1 << k). */
  function WithBit(b: nat, k: nat, v: bool): nat {
    if k == 0 then b - b % 2 + (if v then 1 else 0) else 2 * WithBit(b / 2, k - 1, v) + b % 2
  }

  function Pow2(n: nat): nat {
    if n == 0 then 1 else 2 * Pow2(n - 1)
  }

  lemma {:induction false} WithBitBound(b: nat, k: nat, v: bool, n: nat)
    requires k < n && b < Pow2(n)
    ensures WithBit(b, k, v) < Pow2(n)
  {
    var m := Pow2(n - 1);
    HalfBound(b, m);
    if k > 0 {
      WithBitBound(b / 2, k - 1, v, n - 1);
      assert WithBit(b, k, v) == 2 * WithBit(b / 2, k - 1, v) + b % 2;
    }
  }

  lemma HalfBound(b: nat, m: nat)
    requires b < 2 * m
    ensures b / 2 < m && b - b % 2 + 1 < 2 * m && b % 2 < 2
  {
  }

  lemma {:induction false} WithBitAt(b: nat, k: nat, v: bool, j: nat)
    ensures Has(WithBit(b, k, v), j) <==> if j == k then v else Has(b, j)
  {
    var c := WithBit(b, k, v);
    if k == 0 {
      assert j > 0 ==> c / 2 == b / 2;
    } else {
      assert c % 2 == b % 2 && c / 2 == WithBit(b / 2, k - 1, v);
      if j > 0 {
        WithBitAt(b / 2, k - 1, v, j - 1);
      }
    }
  }

  function ByteWithBit(b: byte, k: nat, v: bool): byte
    requires k < 8
  {
    assert Pow2(8) == 256 by { assert Pow2(4) == 16; }
    WithBitBound(b, k, v, 8);
    WithBit(b, k, v)
  }

  function SetBit(s: seq<byte>, i: nat, v: bool): seq<byte>
    requires i < 8 * |s|
  {
    s[i / 8 := ByteWithBit(s[i / 8], i % 8, v)]
  }

  lemma SamePlace(i: nat, j: nat)
    requires i / 8 == j / 8 && i % 8 == j % 8
    ensures i == j
  {
    assert i == 8 * (i / 8) + i % 8;
  }

  /** Writing one bit sets exactly that bit. */
  lemma SetBitAt(s: seq<byte>, i: nat, v: bool, j: nat)
    requires i < 8 * |s| && j < 8 * |s|
    ensures Bit(SetBit(s, i, v), j) <==> if j == i then v else Bit(s, j)
  {
    var x, k := i / 8, i % 8;
    var y, l := j / 8, j % 8;
    if x == y {
      WithBitAt(s[x], k, v, l);
      if k == l { SamePlace(i, j); }
    }
  }

  function ByteFlags(b: byte): (f: seq<bool>)
    ensures |f| == 8
  {
    seq(8, k requires 0 <= k => Has(b, k))
  }

  /** The bitmap read as truth values. */
  function Flags(s: seq<byte>): (f: seq<bool>)
    ensures |f| == 8 * |s|
  {
    if s == [] then [] else Flags(s[..|s| - 1]) + ByteFlags(s[|s| - 1])
  }

  lemma {:induction false} FlagsAt(s: seq<byte>, i: nat)
    requires i < 8 * |s|
    ensures Flags(s)[i] == Bit(s, i)
    decreases |s|
  {
    var init := s[..|s| - 1];
    if i < 8 * |init| {
      FlagsAt(init, i);
      assert init[i / 8] == s[i / 8];
    } else {
      var k := i - 8 * |init|;
      assert i / 8 == |init| && i % 8 == k;
      assert ByteFlags(s[|s| - 1])[k] == Has(s[|s| - 1], k);
    }
  }

  lemma SetBitFlagAt(s: seq<byte>, i: nat, v: bool, j: nat)
    requires i < 8 * |s| && j < 8 * |s|
    ensures Flags(SetBit(s, i, v))[j] == if j == i then v else Flags(s)[j]
  {
    SetBitAt(s, i, v, j);
    FlagsAt(s, j);
    FlagsAt(SetBit(s, i, v), j);
  }

  lemma UpdatedAt(f: seq<bool>, g: seq<bool>, i: nat, v: bool)
    requires i < |f| == |g|
    requires forall j: nat :: j < |f| ==> g[j] == if j == i then v else f[j]
    ensures g == f[i := v]
  {
  }

  /** Writing one bit of the bytes updates one truth value. */
  lemma SetBitFlags(s: seq<byte>, i: nat, v: bool)
    requires i < 8 * |s|
    ensures Flags(SetBit(s, i, v)) == Flags(s)[i := v]
  {
    forall j: nat | j < 8 * |s|
      ensures Flags(SetBit(s, i, v))[j] == if j == i then v else Flags(s)[j]
    {
      SetBitFlagAt(s, i, v, j);
    }
    UpdatedAt(Flags(s), Flags(SetBit(s, i, v)), i, v);
  }

  /** The indices below `n` whose flag is `v`. */
  ghost function Where(f: seq<bool>, n: nat, v: bool): set<nat>
    requires n <= |f|
  {
    set i: nat | i < n && f[i] == v
  }

  lemma WhereUpdate(f: seq<bool>, i: nat, v: bool, n: nat)
    requires i < n <= |f|
    ensures Where(f[i := v], n, v) == Where(f, n, v) + {i}
    ensures Where(f[i := v], n, !v) == Where(f, n, !v) - {i}
  {
  }

  lemma WhereGrows(f: seq<bool>, i: nat, v: bool)
    requires i < |f|
    ensures |Where(f, i + 1, v)| == |Where(f, i, v)| + if f[i] == v then 1 else 0
  {
    var below, upTo := Where(f, i, v), Where(f, i + 1, v);
    if f[i] == v {
      assert upTo == below + {i};
    } else {
      assert upTo == below;
    }
  }
}
