/** The journal record of a transaction: `serialize` and `deserialize`. */
module TxCodec {
  import opened Bytes
  import opened Encoding
  import opened Transactions

  /** `REG_INODE_SIZE`, the size of the fixed part of an inode; the inode number is at byte 12. */
  type Core = s: seq<byte> | |s| == 104 witness seq(104, i => 0)

  function CoreIno(c: Core): Uuid { c[12..28] }

  /** The recorded fields of a transaction, inodes as their fixed parts. */
  datatype RawTx = RawTx(self: Option<Core>, dentries: map<Name, Entry>, files: map<Uuid, Option<Core>>)

  datatype Dent = Dent(name: Name, entry: Entry)

  datatype File = File(ino: Uuid, inode: Option<Core>)

  const ONES: seq<byte> := [0xff, 0xff, 0xff, 0xff]

  function SelfBytes(self: Option<Core>): seq<byte> {
    if self.Some? then Le(104, 4) + self.value else ONES
  }

  function DentBytes(d: Dent): seq<byte> {
    [if d.entry.alive then 1 else 0] + Le(|d.name|, 4) + d.name + d.entry.ino
  }

  function DentsBytes(ds: seq<Dent>): seq<byte> {
    if ds == [] then [] else DentBytes(ds[0]) + DentsBytes(ds[1..])
  }

  function FileBytes(f: File): seq<byte> {
    if f.inode.Some? then Le(104, 4) + f.inode.value else []
  }

  function FilesBytes(fs: seq<File>): seq<byte> {
    if fs == [] then [] else FileBytes(fs[0]) + FilesBytes(fs[1..])
  }

  /** Everything after the self inode. */
  function Rest(ds: seq<Dent>, fs: seq<File>): seq<byte> {
    DentsBytes(ds) + ([0xff] + (FilesBytes(fs) + ONES))
  }

  function Body(self: Option<Core>, ds: seq<Dent>, fs: seq<File>): seq<byte> {
    [1] + (SelfBytes(self) + Rest(ds, fs))
  }

  /** The record of a transaction whose maps are visited in these orders. */
  function RecordBytes(self: Option<Core>, ds: seq<Dent>, fs: seq<File>): seq<byte> {
    Le(4 + |Body(self, ds, fs)|, 4) + Body(self, ds, fs)
  }

  /** What `deserialize` does: restore, return -1 for a cleared valid byte, throw, or leave the buffer. */
  datatype Restored = Restored(tx: RawTx) | Invalid | Duplicate | OutOfRange

  function DecodeFiles(s: seq<byte>, self: Option<Core>, dentries: map<Name, Entry>,
                       files: map<Uuid, Option<Core>>): Restored
    decreases |s|
  {
    if |s| < 4 then OutOfRange
    else
      var n := Int32(s);
      if n == -1 then Restored(RawTx(self, dentries, files))
      else if |s| < 108 then OutOfRange
      else if CoreIno(s[4..108]) in files then Duplicate
      else if n < 0 || 4 + n > |s| then OutOfRange
      else DecodeFiles(s[4 + n..], self, dentries, files[CoreIno(s[4..108]) := Some(s[4..108])])
  }

  function DecodeDents(s: seq<byte>, self: Option<Core>, dentries: map<Name, Entry>): Restored
    decreases |s|
  {
    if s == [] then OutOfRange
    else if s[0] == 0xff then DecodeFiles(s[1..], self, dentries, map[])
    else if |s| < 5 then OutOfRange
    else
      var n := Int32(s[1..]);
      if n < 0 || 5 + n + 16 > |s| then OutOfRange
      else if s[5..5 + n] in dentries then Duplicate
      else DecodeDents(s[5 + n + 16..], self, dentries[s[5..5 + n] := Entry(s[0] != 0, s[5 + n..5 + n + 16])])
  }

  /** `stride` is how far the decoder skips past the self inode. */
  function DecodeRecord(raw: seq<byte>, stride: nat): Restored {
    if |raw| < 5 then OutOfRange
    else if raw[4] == 0 then Invalid
    else
      var s := raw[5..];
      if |s| < 4 then OutOfRange
      else if Int32(s) == -1 then DecodeDents(s[4..], None, map[])
      else if |s| < 108 || |s| < 4 + stride then OutOfRange
      else DecodeDents(s[4 + stride..], Some(s[4..108]), map[])
  }

  // The loops

  method SerializeDents(ds: seq<Dent>, before: seq<byte>) returns (vec: seq<byte>)
    ensures vec == before + DentsBytes(ds)
  {
    vec := before;
    assert ds[0..] == ds;
    for k := 0 to |ds|
      invariant vec + DentsBytes(ds[k..]) == before + DentsBytes(ds)
    {
      assert ds[k..][1..] == ds[k + 1..];
      ghost var rest := DentsBytes(ds[k + 1..]);
      assert vec + (DentBytes(ds[k]) + rest) == (vec + DentBytes(ds[k])) + rest;
      vec := vec + DentBytes(ds[k]);
    }
  }

  method SerializeFiles(fs: seq<File>, before: seq<byte>) returns (vec: seq<byte>)
    ensures vec == before + FilesBytes(fs)
  {
    vec := before;
    assert fs[0..] == fs;
    for k := 0 to |fs|
      invariant vec + FilesBytes(fs[k..]) == before + FilesBytes(fs)
    {
      assert fs[k..][1..] == fs[k + 1..];
      ghost var rest := FilesBytes(fs[k + 1..]);
      if fs[k].inode.Some? {
        assert vec + (FileBytes(fs[k]) + rest) == (vec + FileBytes(fs[k])) + rest;
        vec := vec + (Le(104, 4) + fs[k].inode.value);
      } else {
        assert FileBytes(fs[k]) + rest == rest;
      }
    }
  }

  /** The size goes into the first four bytes, which were reserved for it. */
  method PatchSize(vec: seq<byte>) returns (raw: seq<byte>)
    requires |vec| >= 4
    ensures raw == Le(|vec|, 4) + vec[4..]
  {
    var n := |vec|;
    FourBytes(n);
    raw := vec[0 := n % 256];
    raw := raw[1 := n / 256 % 256];
    raw := raw[2 := n / 65536 % 256];
    raw := raw[3 := n / 16777216 % 256];
  }

  lemma Joined(head: seq<byte>, self: seq<byte>, dents: seq<byte>, mark: seq<byte>, files: seq<byte>, end: seq<byte>)
    requires |head| == 5
    ensures head + self + dents + mark + files + end ==
            head[..4] + ([head[4]] + (self + (dents + (mark + (files + end)))))
  {
    assert head == head[..4] + [head[4]];
  }

  /** Four bytes reserved for the size, then the fields. */
  method Collect(self: Option<Core>, ds: seq<Dent>, fs: seq<File>) returns (vec: seq<byte>)
    ensures vec == [0, 0, 0, 0, 1] + SelfBytes(self) + DentsBytes(ds) + [0xff] + FilesBytes(fs) + ONES
  {
    vec := [0, 0, 0, 0, 1] + SelfBytes(self);
    vec := SerializeDents(ds, vec);
    vec := vec + [0xff];
    vec := SerializeFiles(fs, vec);
    vec := vec + ONES;
  }

  /** `serialize`: the size, patched in at the end, is the size of the whole record. */
  method Serialize(self: Option<Core>, ds: seq<Dent>, fs: seq<File>) returns (raw: seq<byte>)
    ensures raw == RecordBytes(self, ds, fs)
  {
    var vec := Collect(self, ds, fs);
    BodyJoined(self, ds, fs, vec);
    raw := PatchSize(vec);
  }

  lemma BodyJoined(self: Option<Core>, ds: seq<Dent>, fs: seq<File>, vec: seq<byte>)
    requires vec == [0, 0, 0, 0, 1] + SelfBytes(self) + DentsBytes(ds) + [0xff] + FilesBytes(fs) + ONES
    ensures |vec| == 4 + |Body(self, ds, fs)| && vec[4..] == Body(self, ds, fs)
  {
    var head: seq<byte> := [0, 0, 0, 0, 1];
    Joined(head, SelfBytes(self), DentsBytes(ds), [0xff], FilesBytes(fs), ONES);
    assert vec == head[..4] + Body(self, ds, fs);
  }

  lemma SizeIsRecorded(self: Option<Core>, ds: seq<Dent>, fs: seq<File>)
    requires |RecordBytes(self, ds, fs)| < 0x8000_0000
    ensures Int32(RecordBytes(self, ds, fs)) == |RecordBytes(self, ds, fs)|
  {
    Int32Of(|RecordBytes(self, ds, fs)|, RecordBytes(self, ds, fs));
  }

  lemma FourBytes(n: nat)
    ensures Le(n, 4) == [n % 256, n / 256 % 256, n / 65536 % 256, n / 16777216 % 256]
  {
    var a, b, c := n / 256, n / 256 / 256, n / 256 / 256 / 256;
    assert Le(c, 1) == [c % 256];
    assert Le(b, 2) == [b % 256, c % 256];
    assert Le(a, 3) == [a % 256, b % 256, c % 256];
    assert b == n / 65536 && c == n / 16777216;
  }

  method DeserializeFiles(s: seq<byte>, self: Option<Core>, dentries: map<Name, Entry>) returns (r: Restored)
    ensures r == DecodeFiles(s, self, dentries, map[])
  {
    var rest, files: map<Uuid, Option<Core>> := s, map[];
    while true
      invariant DecodeFiles(s, self, dentries, map[]) == DecodeFiles(rest, self, dentries, files)
      decreases |rest|
    {
      if |rest| < 4 {
        return OutOfRange;
      }
      var n := Int32(rest);
      if n == -1 {
        return Restored(RawTx(self, dentries, files));
      }
      if |rest| < 108 {
        return OutOfRange;
      }
      var core: Core := rest[4..108];
      if CoreIno(core) in files {
        return Duplicate;
      }
      if n < 0 || 4 + n > |rest| {
        return OutOfRange;
      }
      files := files[CoreIno(core) := Some(core)];
      rest := rest[4 + n..];
    }
  }

  method DeserializeDents(s: seq<byte>, self: Option<Core>) returns (r: Restored)
    ensures r == DecodeDents(s, self, map[])
  {
    var rest, dentries: map<Name, Entry> := s, map[];
    while true
      invariant DecodeDents(s, self, map[]) == DecodeDents(rest, self, dentries)
      decreases |rest|
    {
      if rest == [] {
        return OutOfRange;
      }
      if rest[0] == 0xff {
        r := DeserializeFiles(rest[1..], self, dentries);
        return;
      }
      if |rest| < 5 {
        return OutOfRange;
      }
      var n := Int32(rest[1..]);
      if n < 0 || 5 + n + 16 > |rest| {
        return OutOfRange;
      }
      var name := rest[5..5 + n];
      if name in dentries {
        return Duplicate;
      }
      dentries := dentries[name := Entry(rest[0] != 0, rest[5 + n..5 + n + 16])];
      rest := rest[5 + n + 16..];
    }
  }

  /** `deserialize`. */
  method Deserialize(raw: seq<byte>, stride: nat) returns (r: Restored)
    ensures r == DecodeRecord(raw, stride)
  {
    if |raw| < 5 {
      return OutOfRange;
    }
    if raw[4] == 0 {
      return Invalid;
    }
    var s := raw[5..];
    if |s| < 4 {
      return OutOfRange;
    }
    if Int32(s) == -1 {
      r := DeserializeDents(s[4..], None);
    } else if |s| < 108 || |s| < 4 + stride {
      r := OutOfRange;
    } else {
      r := DeserializeDents(s[4 + stride..], Some(s[4..108]));
    }
  }

  // Round trip

  function WithDents(m: map<Name, Entry>, ds: seq<Dent>): map<Name, Entry>
    decreases |ds|
  {
    if ds == [] then m else WithDents(m[ds[0].name := ds[0].entry], ds[1..])
  }

  function WithFiles(m: map<Uuid, Option<Core>>, fs: seq<File>): map<Uuid, Option<Core>>
    decreases |fs|
  {
    if fs == [] then m
    else WithFiles(if fs[0].inode.Some? then m[fs[0].ino := fs[0].inode] else m, fs[1..])
  }

  predicate DentsOk(m: map<Name, Entry>, ds: seq<Dent>) {
    && (forall i :: 0 <= i < |ds| ==> ds[i].name !in m && |ds[i].name| < 0x8000_0000)
    && (forall i, j :: 0 <= i < j < |ds| ==> ds[i].name != ds[j].name)
  }

  predicate FilesOk(m: map<Uuid, Option<Core>>, fs: seq<File>) {
    && (forall i :: 0 <= i < |fs| ==>
        fs[i].ino !in m && (fs[i].inode.Some? ==> CoreIno(fs[i].inode.value) == fs[i].ino))
    && (forall i, j :: 0 <= i < j < |fs| ==> fs[i].ino != fs[j].ino)
  }

  lemma DentParts(d: Dent, rest: seq<byte>)
    ensures var s := DentBytes(d) + rest; var n := |d.name|;
            && |s| == 5 + n + 16 + |rest| && s[0] == (if d.entry.alive then 1 else 0) && s[1..][..4] == Le(n, 4)
            && s[5..5 + n] == d.name && s[5 + n..5 + n + 16] == d.entry.ino && s[5 + n + 16..] == rest
  {
  }

  lemma DecodeDent(d: Dent, rest: seq<byte>, self: Option<Core>, m: map<Name, Entry>)
    requires d.name !in m && |d.name| < 0x8000_0000
    ensures DecodeDents(DentBytes(d) + rest, self, m) == DecodeDents(rest, self, m[d.name := d.entry])
  {
    DentParts(d, rest);
    Int32Of(|d.name|, (DentBytes(d) + rest)[1..]);
  }

  lemma DentsHead(ds: seq<Dent>, rest: seq<byte>, m: map<Name, Entry>)
    requires ds != [] && DentsOk(m, ds)
    ensures DentsBytes(ds) + rest == DentBytes(ds[0]) + (DentsBytes(ds[1..]) + rest)
    ensures ds[0].name !in m && |ds[0].name| < 0x8000_0000 && DentsOk(m[ds[0].name := ds[0].entry], ds[1..])
  {
    assert forall i :: 0 <= i < |ds[1..]| ==> ds[1..][i] == ds[i + 1];
  }

  lemma {:induction false} DecodeAllDents(ds: seq<Dent>, rest: seq<byte>, self: Option<Core>, m: map<Name, Entry>)
    requires DentsOk(m, ds)
    ensures DecodeDents(DentsBytes(ds) + rest, self, m) == DecodeDents(rest, self, WithDents(m, ds))
    decreases |ds|
  {
    if ds == [] {
      assert DentsBytes(ds) + rest == rest;
    } else {
      DentsHead(ds, rest, m);
      DecodeDent(ds[0], DentsBytes(ds[1..]) + rest, self, m);
      DecodeAllDents(ds[1..], rest, self, m[ds[0].name := ds[0].entry]);
    }
  }

  lemma FileParts(core: Core, rest: seq<byte>)
    ensures var s := Le(104, 4) + core + rest;
            |s| == 108 + |rest| && s[..4] == Le(104, 4) && s[4..108] == core && s[108..] == rest
  {
  }

  lemma DecodeFile(core: Core, rest: seq<byte>, self: Option<Core>, dentries: map<Name, Entry>,
                   files: map<Uuid, Option<Core>>)
    requires CoreIno(core) !in files
    ensures DecodeFiles(Le(104, 4) + core + rest, self, dentries, files) ==
            DecodeFiles(rest, self, dentries, files[CoreIno(core) := Some(core)])
  {
    FileParts(core, rest);
    Int32Of(104, Le(104, 4) + core + rest);
  }

  lemma {:induction false} DecodeAllFiles(fs: seq<File>, self: Option<Core>, dentries: map<Name, Entry>,
                                          files: map<Uuid, Option<Core>>)
    requires FilesOk(files, fs)
    ensures DecodeFiles(FilesBytes(fs) + ONES, self, dentries, files) ==
            Restored(RawTx(self, dentries, WithFiles(files, fs)))
    decreases |fs|
  {
    if fs == [] {
      assert FilesBytes(fs) + ONES == ONES;
      Int32Ones(ONES);
    } else {
      var rest := FilesBytes(fs[1..]) + ONES;
      assert FilesBytes(fs) + ONES == FileBytes(fs[0]) + rest;
      if fs[0].inode.Some? {
        DecodeFile(fs[0].inode.value, rest, self, dentries, files);
        DecodeAllFiles(fs[1..], self, dentries, files[fs[0].ino := fs[0].inode]);
      } else {
        assert FileBytes(fs[0]) + rest == rest;
        DecodeAllFiles(fs[1..], self, dentries, files);
      }
    }
  }

  lemma DecodeRest(ds: seq<Dent>, fs: seq<File>, self: Option<Core>)
    requires DentsOk(map[], ds) && FilesOk(map[], fs)
    ensures DecodeDents(Rest(ds, fs), self, map[]) == Restored(RawTx(self, WithDents(map[], ds), WithFiles(map[], fs)))
  {
    var end := [0xff] + (FilesBytes(fs) + ONES);
    DecodeAllDents(ds, end, self, map[]);
    assert end[0] == 0xff && end[1..] == FilesBytes(fs) + ONES;
    DecodeAllFiles(fs, self, WithDents(map[], ds), map[]);
  }

  lemma RecordParts(self: Option<Core>, ds: seq<Dent>, fs: seq<File>)
    ensures var raw := RecordBytes(self, ds, fs);
            && |raw| >= 9 && raw[4] == 1 && raw[5..] == SelfBytes(self) + Rest(ds, fs)
            && |raw| == 5 + |SelfBytes(self)| + |Rest(ds, fs)|
  {
  }

  lemma DecodeParts(self: Option<Core>, ds: seq<Dent>, fs: seq<File>, stride: nat)
    requires DentsOk(map[], ds) && FilesOk(map[], fs) && (self.Some? ==> stride == 104)
    ensures DecodeRecord(RecordBytes(self, ds, fs), stride) ==
            Restored(RawTx(self, WithDents(map[], ds), WithFiles(map[], fs)))
  {
    RecordParts(self, ds, fs);
    var rest := Rest(ds, fs);
    var s := SelfBytes(self) + rest;
    DecodeRest(ds, fs, self);
    if self.Some? {
      FileParts(self.value, rest);
      Int32Of(104, s);
    } else {
      assert s[..4] == ONES && s[4..] == rest;
      Int32Ones(s);
    }
  }

  ghost predicate VisitsDents(m: map<Name, Entry>, ds: seq<Dent>) {
    && (forall i :: 0 <= i < |ds| ==> ds[i].name in m && m[ds[i].name] == ds[i].entry)
    && (forall n :: n in m ==> exists i :: 0 <= i < |ds| && ds[i].name == n)
    && (forall i, j :: 0 <= i < j < |ds| ==> ds[i].name != ds[j].name)
  }

  ghost predicate VisitsFiles(m: map<Uuid, Option<Core>>, fs: seq<File>) {
    && (forall i :: 0 <= i < |fs| ==> fs[i].ino in m && m[fs[i].ino] == fs[i].inode)
    && (forall n :: n in m ==> exists i :: 0 <= i < |fs| && fs[i].ino == n)
    && (forall i, j :: 0 <= i < j < |fs| ==> fs[i].ino != fs[j].ino)
    && (forall n :: n in m && m[n].Some? ==> CoreIno(m[n].value) == n)
  }

  /** `ds` visits the entries and `fs` the file inodes of `tx`, each inode filed under its own number. */
  ghost predicate Visits(tx: RawTx, ds: seq<Dent>, fs: seq<File>) {
    VisitsDents(tx.dentries, ds) && VisitsFiles(tx.files, fs)
  }

  /** The file inodes a record can carry: those not deleted. */
  function Kept(files: map<Uuid, Option<Core>>): map<Uuid, Option<Core>> {
    map i | i in files && files[i].Some? :: files[i]
  }

  lemma {:induction false} WithDentsAre(m: map<Name, Entry>, ds: seq<Dent>)
    requires forall i, j :: 0 <= i < j < |ds| ==> ds[i].name != ds[j].name
    requires forall i :: 0 <= i < |ds| ==> ds[i].name !in m
    ensures var r := WithDents(m, ds);
            && (forall n :: n in m ==> n in r && r[n] == m[n])
            && (forall i :: 0 <= i < |ds| ==> ds[i].name in r && r[ds[i].name] == ds[i].entry)
            && (forall n :: n in r ==> n in m || exists i :: 0 <= i < |ds| && ds[i].name == n)
    decreases |ds|
  {
    if ds != [] {
      WithDentsAre(m[ds[0].name := ds[0].entry], ds[1..]);
      assert forall i :: 1 <= i < |ds| ==> ds[i] == ds[1..][i - 1];
    }
  }

  lemma {:induction false} WithFilesAre(m: map<Uuid, Option<Core>>, fs: seq<File>)
    requires forall i, j :: 0 <= i < j < |fs| ==> fs[i].ino != fs[j].ino
    requires forall i :: 0 <= i < |fs| ==> fs[i].ino !in m
    ensures var r := WithFiles(m, fs);
            && (forall n :: n in m ==> n in r && r[n] == m[n])
            && (forall i :: 0 <= i < |fs| && fs[i].inode.Some? ==> fs[i].ino in r && r[fs[i].ino] == fs[i].inode)
            && (forall n :: n in r ==> n in m || exists i :: 0 <= i < |fs| && fs[i].ino == n && fs[i].inode.Some?)
    decreases |fs|
  {
    if fs != [] {
      WithFilesAre(if fs[0].inode.Some? then m[fs[0].ino := fs[0].inode] else m, fs[1..]);
      assert forall i :: 1 <= i < |fs| ==> fs[i] == fs[1..][i - 1];
    }
  }

  lemma AllDents(m: map<Name, Entry>, ds: seq<Dent>)
    requires VisitsDents(m, ds)
    ensures WithDents(map[], ds) == m
  {
    WithDentsAre(map[], ds);
    assert WithDents(map[], ds).Keys == m.Keys;
  }

  lemma AllFiles(m: map<Uuid, Option<Core>>, fs: seq<File>)
    requires VisitsFiles(m, fs)
    ensures WithFiles(map[], fs) == Kept(m)
  {
    WithFilesAre(map[], fs);
    var r := WithFiles(map[], fs);
    forall n
      ensures n in r <==> n in m && m[n].Some?
      ensures n in r ==> r[n] == m[n]
    {
      if n in m && m[n].Some? {
        var i :| 0 <= i < |fs| && fs[i].ino == n;
        assert r[fs[i].ino] == fs[i].inode;
      }
    }
  }

  lemma {:induction false} NamesShort(ds: seq<Dent>, i: nat)
    requires i < |ds|
    ensures |ds[i].name| <= |DentsBytes(ds)|
  {
    if i > 0 {
      NamesShort(ds[1..], i - 1);
    }
  }

  /**
   * Round trip: in whatever order the maps are visited, the record restores exactly the entries and exactly the
   * non-null file inodes, if there is no self inode or the decoder skips just its recorded size.
   */
  lemma RoundTrip(tx: RawTx, ds: seq<Dent>, fs: seq<File>, stride: nat)
    requires Visits(tx, ds, fs) && |RecordBytes(tx.self, ds, fs)| < 0x8000_0000
    requires tx.self.Some? ==> stride == 104
    ensures DecodeRecord(RecordBytes(tx.self, ds, fs), stride) == Restored(tx.(files := Kept(tx.files)))
  {
    forall i | 0 <= i < |ds|
      ensures |ds[i].name| < 0x8000_0000
    {
      NamesShort(ds, i);
    }
    AllDents(tx.dentries, ds);
    AllFiles(tx.files, fs);
    DecodeParts(tx.self, ds, fs, stride);
  }

  /** A decoder that skips more than the recorded size cannot even restore a lone self inode. */
  lemma StrideMustMatch(core: Core, stride: nat)
    requires stride >= 104
    ensures DecodeRecord(RecordBytes(Some(core), [], []), stride) == Restored(RawTx(Some(core), map[], map[])) <==>
            stride == 104
    ensures stride != 104 ==> DecodeRecord(RecordBytes(Some(core), [], []), stride) == OutOfRange
  {
    if stride == 104 {
      DecodeParts(Some(core), [], [], stride);
    } else {
      RecordParts(Some(core), [], []);
      var rest := Rest([], []);
      FileParts(core, rest);
      Int32Of(104, SelfBytes(Some(core)) + rest);
      assert rest == [0xff, 0xff, 0xff, 0xff, 0xff];
      var s := SelfBytes(Some(core)) + rest;
      if stride <= 109 {
        assert s[4 + stride..] == rest[stride - 104..];
      }
    }
  }

  /**
   * The zero byte that `checkpoint` writes at the start of a record does not reach its valid byte: the record decodes
   * as before, while the size a walk reads there falls to a multiple of 256.
   */
  lemma MarkMissesValidByte(self: Option<Core>, ds: seq<Dent>, fs: seq<File>, stride: nat)
    requires |RecordBytes(self, ds, fs)| < 0x8000_0000
    ensures var raw := RecordBytes(self, ds, fs);
            && |raw| >= 9 && DecodeRecord(raw[0 := 0], stride) == DecodeRecord(raw, stride)
            && Int32(raw[0 := 0]) == |raw| - |raw| % 0x100
  {
    var raw := RecordBytes(self, ds, fs);
    RecordParts(self, ds, fs);
    SizeIsRecorded(self, ds, fs);
    var marked := raw[0 := 0];
    assert marked[5..] == raw[5..];
    assert marked[..4][1..] == raw[..4][1..];
    assert LittleEndian(raw[..4]) == raw[0] + 0x100 * LittleEndian(raw[..4][1..]);
    assert LittleEndian(marked[..4]) == 0x100 * LittleEndian(raw[..4][1..]);
  }

  lemma KnownDent(d: Dent, tail: seq<byte>, self: Option<Core>, m: map<Name, Entry>)
    requires d.name in m && |d.name| < 0x8000_0000
    ensures DecodeDents(DentBytes(d) + tail, self, m) == Duplicate
  {
    DentParts(d, tail);
    Int32Of(|d.name|, (DentBytes(d) + tail)[1..]);
  }

  /** A record that repeats a name throws, whatever the repeated entry says and whatever follows it. */
  lemma RepeatedName(ds: seq<Dent>, d: Dent, tail: seq<byte>, self: Option<Core>, i: nat)
    requires DentsOk(map[], ds) && |d.name| < 0x8000_0000 && i < |ds| && ds[i].name == d.name
    ensures DecodeDents(DentsBytes(ds) + (DentBytes(d) + tail), self, map[]) == Duplicate
  {
    DecodeAllDents(ds, DentBytes(d) + tail, self, map[]);
    WithDentsAre(map[], ds);
    KnownDent(d, tail, self, WithDents(map[], ds));
  }

  /** So does one that repeats a file inode. */
  lemma RepeatedFile(a: Core, b: Core, tail: seq<byte>, self: Option<Core>, dentries: map<Name, Entry>)
    requires CoreIno(a) == CoreIno(b)
    ensures DecodeFiles(Le(104, 4) + a + (Le(104, 4) + b + tail), self, dentries, map[]) == Duplicate
  {
    var rest := Le(104, 4) + b + tail;
    DecodeFile(a, rest, self, dentries, map[]);
    FileParts(b, tail);
    Int32Of(104, rest);
  }
}
