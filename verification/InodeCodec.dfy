/** The INODE object: the fixed part of an inode as `inode` writes it, and what loading it gives back. */
module InodeCodec {
  import opened Bytes
  import opened Encoding
  import opened Transactions
  import ObjectNames
  import opened Striping
  import opened RadosIo
  import opened DentryCodec
  import TxCodec

  // Writing

  /** The low `k` bytes of a signed number. */
  function Word(n: int, k: nat): (s: seq<byte>)
    ensures |s| == k
  {
    Le(n % Pow256(k), k)
  }

  /** The fields before the inode number. */
  function HeadBytes(a: Attrs): (s: seq<byte>)
    ensures |s| == 12
  {
    Le(a.mode, 4) + Le(a.uid, 4) + Le(a.gid, 4)
  }

  /** The fields after it, padding included; a time is one sixteen-byte number here. */
  function TailBytes(i: Inode): (s: seq<byte>)
    ensures |s| == 76
  {
    Zeros(4) + Le(i.attrs.nlink, 8) + Word(i.attrs.size, 8) + Word(i.attrs.atime, 16) + Word(i.mtime, 16) +
    Word(i.ctime, 16) + Zeros(8)
  }

  /** `serialize`: the fixed part of an inode as it lies in memory. */
  function CoreOf(i: Inode): (c: TxCodec.Core)
    ensures TxCodec.CoreIno(c) == i.attrs.ino
  {
    var c := HeadBytes(i.attrs) + i.attrs.ino + TailBytes(i);
    assert c[12..28] == i.attrs.ino;
    c
  }

  // Reading

  /** The signed number in these bytes. */
  function Signed(s: seq<byte>): int {
    var n := LittleEndian(s);
    if 2 * n < Pow256(|s|) then n else n - Pow256(|s|)
  }

  /** `deserialize`. */
  function DecodeCore(c: TxCodec.Core): Inode {
    Inode(Attrs(c[12..28], LittleEndian(c[..4]), LittleEndian(c[4..8]), LittleEndian(c[8..12]),
                LittleEndian(c[32..40]), Signed(c[40..48]), Signed(c[48..64])),
          Signed(c[64..80]), Signed(c[80..96]))
  }

  predicate Fits32(n: nat) { n < 0x1_0000_0000 }

  /** A number that a signed field of `k` bytes can hold. */
  predicate FitsSigned(n: int, k: nat) { 0 <= 2 * n + Pow256(k) && 2 * n < Pow256(k) }

  /** Every field is of its C type. */
  predicate Typed(i: Inode) {
    && Fits32(i.attrs.mode) && Fits32(i.attrs.uid) && Fits32(i.attrs.gid)
    && i.attrs.nlink < Pow256(8) && FitsSigned(i.attrs.size, 8)
    && FitsSigned(i.attrs.atime, 16) && FitsSigned(i.mtime, 16) && FitsSigned(i.ctime, 16)
  }

  lemma Multiples(k: int, p: int)
    requires p > 0
    ensures k >= 1 ==> k * p >= p
    ensures k <= -1 ==> k * p <= -p
  {
  }

  lemma RemainderIs(n: int, p: int, q: int, r: int)
    requires 0 <= r < p && n == q * p + r
    ensures n % p == r
  {
    var k := n / p - q;
    assert n == n / p * p + n % p;
    assert k * p == r - n % p;
    Multiples(k, p);
  }

  lemma Remainder(n: int, p: int)
    requires p > 0 && -p <= 2 * n < p
    ensures n % p == if n >= 0 then n else n + p
  {
    if n >= 0 {
      RemainderIs(n, p, 0, n);
    } else {
      RemainderIs(n, p, -1, n + p);
    }
  }

  lemma WordInverse(n: int, k: nat)
    requires FitsSigned(n, k)
    ensures Signed(Word(n, k)) == n
  {
    Remainder(n, Pow256(k));
    LeInverse(n % Pow256(k), k);
  }

  lemma HeadParts(a: seq<byte>, b: seq<byte>, c: seq<byte>)
    requires |a| == |b| == |c| == 4
    ensures var s := a + b + c; s[..4] == a && s[4..8] == b && s[8..12] == c
  {
  }

  lemma TailParts(z: seq<byte>, a: seq<byte>, b: seq<byte>, c: seq<byte>, d: seq<byte>, e: seq<byte>, end: seq<byte>)
    requires |z| == 4 && |a| == |b| == 8 && |c| == |d| == |e| == 16
    ensures var s := z + a + b + c + d + e + end;
            s[4..12] == a && s[12..20] == b && s[20..36] == c && s[36..52] == d && s[52..68] == e
  {
    var front := z + a + b + c;
    var s := front + d + e + end;
    assert s[..52] == front + d;
    assert front[4..12] == a && front[12..20] == b && front[20..36] == c;
    assert s[4..12] == front[4..12] && s[12..20] == front[12..20] && s[20..36] == front[20..36];
  }

  lemma Between(a: seq<byte>, b: seq<byte>, c: seq<byte>, lo: nat, hi: nat)
    requires lo <= hi
    ensures hi <= |a| ==> (a + b + c)[lo..hi] == a[lo..hi]
    ensures |a| + |b| <= lo && hi <= |a + b + c| ==>
              (a + b + c)[lo..hi] == c[lo - |a| - |b|..hi - |a| - |b|]
  {
  }

  /** Where the fields lie. */
  lemma CoreParts(i: Inode)
    ensures var c := CoreOf(i); var a := i.attrs;
            && c[..4] == Le(a.mode, 4) && c[4..8] == Le(a.uid, 4) && c[8..12] == Le(a.gid, 4)
            && c[12..28] == a.ino && c[32..40] == Le(a.nlink, 8) && c[40..48] == Word(a.size, 8)
            && c[48..64] == Word(a.atime, 16) && c[64..80] == Word(i.mtime, 16) && c[80..96] == Word(i.ctime, 16)
  {
    var head, ino, tail := HeadBytes(i.attrs), i.attrs.ino, TailBytes(i);
    HeadParts(Le(i.attrs.mode, 4), Le(i.attrs.uid, 4), Le(i.attrs.gid, 4));
    TailParts(Zeros(4), Le(i.attrs.nlink, 8), Word(i.attrs.size, 8), Word(i.attrs.atime, 16), Word(i.mtime, 16),
              Word(i.ctime, 16), Zeros(8));
    Fields(head, ino, tail);
  }

  lemma Fields(head: seq<byte>, ino: seq<byte>, tail: seq<byte>)
    requires |head| == 12 && |ino| == 16 && |tail| == 76
    ensures var c := head + ino + tail;
            && c[..4] == head[..4] && c[4..8] == head[4..8] && c[8..12] == head[8..12] && c[12..28] == ino
            && c[32..40] == tail[4..12] && c[40..48] == tail[12..20] && c[48..64] == tail[20..36]
            && c[64..80] == tail[36..52] && c[80..96] == tail[52..68]
  {
    Between(head, ino, tail, 0, 4);
    Between(head, ino, tail, 4, 8);
    Between(head, ino, tail, 8, 12);
    Between(head, ino, tail, 32, 40);
    Between(head, ino, tail, 40, 48);
    Between(head, ino, tail, 48, 64);
    Between(head, ino, tail, 64, 80);
    Between(head, ino, tail, 80, 96);
  }

  /** Round trip: the 104 bytes say every field of the inode. */
  lemma CoreRoundTrip(i: Inode)
    requires Typed(i)
    ensures DecodeCore(CoreOf(i)) == i
  {
    CoreParts(i);
    Powers();
    LeInverse(i.attrs.mode, 4);
    LeInverse(i.attrs.uid, 4);
    LeInverse(i.attrs.gid, 4);
    LeInverse(i.attrs.nlink, 8);
    WordInverse(i.attrs.size, 8);
    WordInverse(i.attrs.atime, 16);
    WordInverse(i.mtime, 16);
    WordInverse(i.ctime, 16);
  }

  // The object

  function InodeFile(ino: Uuid): ObjectNames.FileId { ObjectNames.FileId(ObjectNames.Inode, UuidText(ino)) }

  /** The INODE object of `ino` begins with the bytes of `i`. */
  ghost predicate InodeHeld(st: FlatStore, ino: Uuid, i: Inode) {
    forall u {:trigger Unfold(u)} :: Unfold(u) && u == OfDisk ==> Begins(FlatOf(st, InodeFile(ino)), CoreOf(i))
  }

  /** The loading constructor of a file that is not a symbolic link; `None` is `no_entry`. */
  method LoadInode(store: Store, ino: Uuid) returns (r: Option<Inode>)
    requires store.Valid()
    ensures r.None? <==> InodeFile(ino) !in store.flat
    ensures forall i :: InodeHeld(store.flat, ino, i) && Typed(i) ==> r == Some(i)
  {
    var buf := new byte[104](_ => 0);
    var got := store.Read(InodeFile(ino), buf, 104, 0);
    store.Present(InodeFile(ino), 0);
    if got.NoSuchObject? {
      forall i
        ensures !InodeHeld(store.flat, ino, i)
      {
        MissingInode(store.flat, ino, i);
      }
      return None;
    }
    ghost var bytes := buf[..];
    r := Some(DecodeCore(buf[..]));
    forall i | InodeHeld(store.flat, ino, i) && Typed(i)
      ensures DecodeCore(bytes) == i
    {
      HeldDecodes(store.flat, ino, i, bytes);
    }
  }

  lemma MissingInode(st: FlatStore, ino: Uuid, i: Inode)
    requires InodeFile(ino) !in st
    ensures !InodeHeld(st, ino, i)
  {
    assert Unfold(OfDisk);
  }

  /** What stands at the front of a file is what a read of as many bytes finds. */
  lemma HeldDecodes(st: FlatStore, ino: Uuid, i: Inode, buf: TxCodec.Core)
    requires InodeHeld(st, ino, i) && Typed(i)
    requires forall k :: 0 <= k < |Slice(FlatOf(st, InodeFile(ino)), 0, 104)| ==>
               buf[k] == Slice(FlatOf(st, InodeFile(ino)), 0, 104)[k]
    ensures DecodeCore(buf) == i
  {
    assert Unfold(OfDisk);
    CoreRead(FlatOf(st, InodeFile(ino)), buf, CoreOf(i));
    CoreRoundTrip(i);
  }

  lemma CoreRead(f: seq<byte>, buf: TxCodec.Core, core: TxCodec.Core)
    requires Begins(f, core) && forall k :: 0 <= k < |Slice(f, 0, 104)| ==> buf[k] == Slice(f, 0, 104)[k]
    ensures buf == core
  {
  }
}
