/** Little-endian numbers, C strings and the text form of inode numbers. */
module Encoding {
  import opened Bytes

  /** The low `k` bytes of `n`, least significant first. */
  function Le(n: nat, k: nat): (s: seq<byte>)
    ensures |s| == k
    decreases k
  {
    if k == 0 then [] else [n % 0x100] + Le(n / 0x100, k - 1)
  }

  function Pow256(k: nat): (p: nat)
    ensures p > 0
  {
    if k == 0 then 1 else 0x100 * Pow256(k - 1)
  }

  lemma {:induction false} LeInverse(n: nat, k: nat)
    requires n < Pow256(k)
    ensures LittleEndian(Le(n, k)) == n
    decreases k
  {
    if k > 0 {
      assert Le(n, k)[1..] == Le(n / 0x100, k - 1);
      LeInverse(n / 0x100, k - 1);
    }
  }

  lemma Powers()
    ensures Pow256(4) == 0x1_0000_0000 && Pow256(8) == 0x1_0000_0000_0000_0000
  {
    assert Pow256(1) == 0x100 && Pow256(2) == 0x1_0000 && Pow256(3) == 0x100_0000;
    assert Pow256(5) == 0x100_0000_0000 && Pow256(6) == 0x1_0000_0000_0000;
    assert Pow256(7) == 0x100_0000_0000_0000;
  }

  /** What a 32-bit signed load finds in the first four bytes. */
  function Int32(s: seq<byte>): int
    requires |s| >= 4
  {
    var n := LittleEndian(s[..4]);
    if n < 0x8000_0000 then n else n - 0x1_0000_0000
  }

  lemma Int32Of(n: nat, s: seq<byte>)
    requires |s| >= 4 && s[..4] == Le(n, 4) && n < 0x8000_0000
    ensures Int32(s) == n
  {
    Powers();
    LeInverse(n, 4);
  }

  lemma Int32Ones(s: seq<byte>)
    requires |s| >= 4 && s[..4] == [0xff, 0xff, 0xff, 0xff]
    ensures Int32(s) == -1
  {
    var f: seq<byte> := [0xff, 0xff, 0xff, 0xff];
    assert f[1..] == [0xff, 0xff, 0xff] && f[1..][1..] == [0xff, 0xff] && f[1..][1..][1..] == [0xff];
    assert LittleEndian([0xff]) == 0xff;
    assert LittleEndian(f[1..][1..]) == 0xffff;
    assert LittleEndian(f[1..]) == 0xff_ffff;
    assert LittleEndian(f) == 0xffff_ffff;
  }

  /** The bytes up to the first NUL. */
  function CString(s: seq<byte>): seq<byte> {
    if s == [] || s[0] == 0 then [] else [s[0]] + CString(s[1..])
  }

  predicate NulFree(s: seq<byte>) { 0 !in s }

  lemma {:induction false} CStringWhole(s: seq<byte>)
    requires NulFree(s)
    ensures CString(s) == s
  {
    if s != [] {
      CStringWhole(s[1..]);
    }
  }

  function Hex(d: nat): char
    requires d < 16
  {
    "0123456789abcdef"[d]
  }

  function HexByte(b: byte): string { [Hex(b / 16), Hex(b % 16)] }

  function HexBytes(s: seq<byte>): string {
    if s == [] then "" else HexByte(s[0]) + HexBytes(s[1..])
  }

  function Dashed(groups: seq<seq<byte>>): string {
    if |groups| <= 1 then (if groups == [] then "" else HexBytes(groups[0]))
    else HexBytes(groups[0]) + "-" + Dashed(groups[1..])
  }

  function Groups(u: Uuid): seq<seq<byte>> { [u[..4], u[4..6], u[6..8], u[8..10], u[10..]] }

  /** `uuid_to_string`. */
  function UuidText(u: Uuid): string { Dashed(Groups(u)) }

  lemma HexInjective(a: nat, b: nat)
    requires a < 16 && b < 16 && Hex(a) == Hex(b)
    ensures a == b
  {
    var t := "0123456789abcdef";
    assert forall i, j :: 0 <= i < j < 16 ==> t[i] != t[j];
  }

  lemma {:induction false} HexBytesLength(s: seq<byte>)
    ensures |HexBytes(s)| == 2 * |s|
  {
    if s != [] {
      HexBytesLength(s[1..]);
    }
  }

  lemma {:induction false} HexBytesInjective(s: seq<byte>, t: seq<byte>)
    requires |s| == |t| && HexBytes(s) == HexBytes(t)
    ensures s == t
  {
    if s != [] {
      var a, b := HexBytes(s), HexBytes(t);
      assert a[0] == b[0] && a[1] == b[1] && a[2..] == HexBytes(s[1..]) && b[2..] == HexBytes(t[1..]);
      HexInjective(s[0] / 16, t[0] / 16);
      HexInjective(s[0] % 16, t[0] % 16);
      HexBytesInjective(s[1..], t[1..]);
    }
  }

  lemma {:induction false} DashedInjective(a: seq<seq<byte>>, b: seq<seq<byte>>)
    requires |a| == |b| && forall i :: 0 <= i < |a| ==> |a[i]| == |b[i]|
    requires Dashed(a) == Dashed(b)
    ensures a == b
  {
    if |a| == 1 {
      HexBytesInjective(a[0], b[0]);
    } else if |a| > 1 {
      var h := HexBytes(a[0]);
      HexBytesLength(a[0]);
      HexBytesLength(b[0]);
      assert Dashed(a)[..|h|] == h && Dashed(b)[..|h|] == HexBytes(b[0]);
      assert Dashed(a)[|h| + 1..] == Dashed(a[1..]) && Dashed(b)[|h| + 1..] == Dashed(b[1..]);
      HexBytesInjective(a[0], b[0]);
      DashedInjective(a[1..], b[1..]);
    }
  }

  /** Different directories have different objects. */
  lemma UuidTextInjective(u: Uuid, v: Uuid)
    requires UuidText(u) == UuidText(v)
    ensures u == v
  {
    DashedInjective(Groups(u), Groups(v));
    assert forall k :: 0 <= k < 5 ==> Groups(u)[k] == Groups(v)[k];
    assert Groups(u)[0] == u[..4] && Groups(u)[1] == u[4..6] && Groups(u)[2] == u[6..8] && Groups(u)[3] == u[8..10] &&
        Groups(u)[4] == u[10..];
    assert u == u[..4] + u[4..6] + u[6..8] + u[8..10] + u[10..];
    assert v == v[..4] + v[4..6] + v[6..8] + v[8..10] + v[10..];
  }
}
