/**
 Little-endian numbers inside byte sequences, and the replacement of a stretch of
 bytes.  Shared by the heap's block headers and the on-disk structures of ext2.
 */
module Words {
  import opened Bits

  const LIMIT16 := 0x1_0000
  const LIMIT32 := 0x1_0000_0000

  function Get16(s: seq<byte>, o: nat): (v: nat)
    requires o + 2 <= |s|
    ensures v < LIMIT16
  {
    var b0: int, b1: int := s[o], s[o + 1];
    b0 + 256 * b1
  }

  function Get32(s: seq<byte>, o: nat): (v: nat)
    requires o + 4 <= |s|
    ensures v < LIMIT32
  {
    var b0: int, b1: int, b2: int, b3: int := s[o], s[o + 1], s[o + 2], s[o + 3];
    b0 + 256 * b1 + 65536 * b2 + 16777216 * b3
  }

  function Bytes16(v: nat): (t: seq<byte>)
    requires v < LIMIT16
    ensures |t| == 2
  {
    [v % 256, v / 256]
  }

  function Bytes32(v: nat): (t: seq<byte>)
    requires v < LIMIT32
    ensures |t| == 4
  {
    [v % 256, v / 256 % 256, v / 65536 % 256, v / 16777216]
  }

  lemma Bytes16Value(v: nat)
    requires v < LIMIT16
    ensures Get16(Bytes16(v), 0) == v
  {
  }

  lemma Bytes32Value(v: nat)
    requires v < LIMIT32
    ensures Get32(Bytes32(v), 0) == v
  {
    assert v / 256 / 256 == v / 65536;
    assert v / 65536 / 256 == v / 16777216;
  }

  /** `s` with the bytes from `o` on replaced by `t`. */
  function Splice(s: seq<byte>, o: nat, t: seq<byte>): (r: seq<byte>)
    requires o + |t| <= |s|
    ensures |r| == |s|
    ensures r[o..o + |t|] == t
    ensures forall x :: 0 <= x < |s| && !(o <= x < o + |t|) ==> r[x] == s[x]
  {
    s[..o] + t + s[o + |t|..]
  }

  /** A stretch that does not meet the replaced one keeps its bytes. */
  lemma SpliceThere(s: seq<byte>, o: nat, t: seq<byte>)
    requires o + |t| <= |s|
    ensures Splice(s, o, t)[o..o + |t|] == t
  {
  }

  lemma SpliceElsewhere(s: seq<byte>, o: nat, t: seq<byte>, lo: nat, hi: nat)
    requires o + |t| <= |s| && lo <= hi <= |s| && (hi <= o || o + |t| <= lo)
    ensures Splice(s, o, t)[lo..hi] == s[lo..hi]
  {
  }

  lemma Get32Local(s: seq<byte>, r: seq<byte>, o: nat, p: nat)
    requires o + 4 <= |s| && p + 4 <= |r| && s[o..o + 4] == r[p..p + 4]
    ensures Get32(s, o) == Get32(r, p)
  {
    var t, u := s[o..o + 4], r[p..p + 4];
    assert t[0] == u[0] && t[1] == u[1] && t[2] == u[2] && t[3] == u[3];
  }

  lemma Get16Local(s: seq<byte>, r: seq<byte>, o: nat, p: nat)
    requires o + 2 <= |s| && p + 2 <= |r| && s[o..o + 2] == r[p..p + 2]
    ensures Get16(s, o) == Get16(r, p)
  {
    var t, u := s[o..o + 2], r[p..p + 2];
    assert t[0] == u[0] && t[1] == u[1];
  }

  function Put32(s: seq<byte>, o: nat, v: nat): (r: seq<byte>)
    requires o + 4 <= |s| && v < LIMIT32
    ensures |r| == |s|
  {
    Splice(s, o, Bytes32(v))
  }

  function Put16(s: seq<byte>, o: nat, v: nat): (r: seq<byte>)
    requires o + 2 <= |s| && v < LIMIT16
    ensures |r| == |s|
  {
    Splice(s, o, Bytes16(v))
  }

  lemma Put32Get(s: seq<byte>, o: nat, v: nat)
    requires o + 4 <= |s| && v < LIMIT32
    ensures Get32(Put32(s, o, v), o) == v
  {
    Bytes32Value(v);
    assert Put32(s, o, v)[o..o + 4] == Bytes32(v)[0..0 + 4];
    Get32Local(Put32(s, o, v), Bytes32(v), o, 0);
  }

  lemma Put16Get(s: seq<byte>, o: nat, v: nat)
    requires o + 2 <= |s| && v < LIMIT16
    ensures Get16(Put16(s, o, v), o) == v
  {
    Bytes16Value(v);
    assert Put16(s, o, v)[o..o + 2] == Bytes16(v)[0..0 + 2];
    Get16Local(Put16(s, o, v), Bytes16(v), o, 0);
  }

  /** Writing back what is there changes nothing. */
  lemma Put16Same(s: seq<byte>, o: nat)
    requires o + 2 <= |s|
    ensures Put16(s, o, Get16(s, o)) == s
  {
    var v, b0: int, b1: int := Get16(s, o), s[o], s[o + 1];
    assert v % 256 == b0 && v / 256 == b1;
    assert Bytes16(v) == [s[o], s[o + 1]] == s[o..o + 2];
  }

  lemma Put32Same(s: seq<byte>, o: nat)
    requires o + 4 <= |s|
    ensures Put32(s, o, Get32(s, o)) == s
  {
    var v := Get32(s, o);
    Digits(v, s[o], s[o + 1], s[o + 2], s[o + 3]);
    assert Bytes32(v) == [s[o], s[o + 1], s[o + 2], s[o + 3]] == s[o..o + 4];
  }

  lemma Digits(v: nat, b0: int, b1: int, b2: int, b3: int)
    requires 0 <= b0 < 256 && 0 <= b1 < 256 && 0 <= b2 < 256 && 0 <= b3 < 256
    requires v == b0 + 256 * b1 + 65536 * b2 + 16777216 * b3
    ensures v % 256 == b0 && v / 256 % 256 == b1 && v / 65536 % 256 == b2 && v / 16777216 == b3
  {
    assert v == b0 + 256 * (b1 + 256 * b2 + 65536 * b3);
    assert v / 256 == b1 + 256 * (b2 + 256 * b3);
    assert v / 65536 == b2 + 256 * b3;
  }

  /** Numbers that do not meet a written one keep their value. */
  lemma Put16Elsewhere(s: seq<byte>, o: nat, v: nat, p: nat)
    requires o + 2 <= |s| && v < LIMIT16
    ensures p + 2 <= |s| && (p + 2 <= o || o + 2 <= p) ==> Get16(Put16(s, o, v), p) == Get16(s, p)
    ensures p + 4 <= |s| && (p + 4 <= o || o + 2 <= p) ==> Get32(Put16(s, o, v), p) == Get32(s, p)
  {
  }

  lemma Put32Elsewhere(s: seq<byte>, o: nat, v: nat, p: nat)
    requires o + 4 <= |s| && v < LIMIT32
    ensures p + 2 <= |s| && (p + 2 <= o || o + 4 <= p) ==> Get16(Put32(s, o, v), p) == Get16(s, p)
    ensures p + 4 <= |s| && (p + 4 <= o || o + 4 <= p) ==> Get32(Put32(s, o, v), p) == Get32(s, p)
  {
  }
}
