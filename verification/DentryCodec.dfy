/** The DENTRY object: how `dentry` writes its child list, and that loading gives back the last one synced. */
module DentryCodec {
  import opened Bytes
  import opened Encoding
  import opened Transactions
  import opened ObjectNames
  import opened Striping
  import opened RadosIo

  datatype Child = Child(name: Name, ino: Uuid)

  function EntryBytes(c: Child): seq<byte> {
    Le(|c.name|, 4) + c.name + c.ino
  }

  function EntriesBytes(order: seq<Child>): seq<byte> {
    if order == [] then [] else EntryBytes(order[0]) + EntriesBytes(order[1..])
  }

  /** The bytes of a child list visited in this order. */
  function Image(order: seq<Child>): seq<byte> {
    Le(|order|, 8) + EntriesBytes(order)
  }

  function NameBytes(order: seq<Child>): nat {
    if order == [] then 0 else NameBytes(order[..|order| - 1]) + |order[|order| - 1].name|
  }

  /** `order` is one way of visiting `m`. */
  ghost predicate Lists(order: seq<Child>, m: map<Name, Uuid>) {
    && (forall k :: 0 <= k < |order| ==> order[k].name in m && m[order[k].name] == order[k].ino)
    && (forall n :: n in m ==> exists k :: 0 <= k < |order| && order[k].name == n)
    && (forall i, k :: 0 <= i < k < |order| ==> order[i].name != order[k].name)
  }

  /** `insert` keeps a name that is already there. */
  function Insert(m: map<Name, Uuid>, c: Child): map<Name, Uuid> {
    if c.name in m then m else m[c.name := c.ino]
  }

  function InsertAll(m: map<Name, Uuid>, order: seq<Child>): map<Name, Uuid>
    decreases |order|
  {
    if order == [] then m else InsertAll(Insert(m, order[0]), order[1..])
  }

  /** `n` more entries from the front of `s`, inserted into `m`; `None` when they leave the buffer. */
  function DecodeEntries(s: seq<byte>, n: nat, m: map<Name, Uuid>): Option<map<Name, Uuid>>
    decreases n
  {
    if n == 0 then Some(m)
    else if |s| < 4 then None
    else
      var len := Int32(s);
      if len < 0 || 4 + len + 16 > |s| then None
      else DecodeEntries(s[4 + len + 16..], n - 1, Insert(m, Child(CString(s[4..4 + len]), s[4 + len..4 + len + 16])))
  }

  function Decode(buf: seq<byte>): Option<map<Name, Uuid>> {
    if |buf| < 8 then None else DecodeEntries(buf[8..], LittleEndian(buf[..8]), map[])
  }

  // Writing

  /** `get_total_name_length`. */
  method TotalNameLength(order: seq<Child>) returns (n: nat)
    ensures n == NameBytes(order)
  {
    n := 0;
    for k := 0 to |order|
      invariant n == NameBytes(order[..k])
    {
      assert order[..k + 1][..k] == order[..k];
      n := n + |order[k].name|;
    }
    assert order[..|order|] == order;
  }

  lemma {:induction false} ImageSize(order: seq<Child>)
    ensures |EntriesBytes(order)| == |order| * 4 + NameBytes(order) + |order| * 16
  {
    if order != [] {
      ImageSize(order[1..]);
      NameBytesFront(order);
    }
  }

  lemma {:induction false} NameBytesFront(order: seq<Child>)
    requires order != []
    ensures NameBytes(order) == |order[0].name| + NameBytes(order[1..])
  {
    if |order| > 1 {
      NameBytesFront(order[..|order| - 1]);
      assert order[..|order| - 1][1..] == order[1..][..|order| - 2];
    }
  }

  /** `memcpy` into a buffer. */
  method CopyInto(raw: array<byte>, at: nat, bytes: seq<byte>) returns (next: nat)
    requires at + |bytes| <= raw.Length
    modifies raw
    ensures next == at + |bytes|
    ensures raw[..next] == old(raw[..at]) + bytes
  {
    next := at + |bytes|;
    forall i | at <= i < next {
      raw[i] := bytes[i - at];
    }
  }

  /** One round of the loop of `serialize`. */
  method PutEntry(raw: array<byte>, at: nat, c: Child) returns (next: nat)
    requires at + |EntryBytes(c)| <= raw.Length
    modifies raw
    ensures next == at + |EntryBytes(c)|
    ensures raw[..next] == old(raw[..at]) + EntryBytes(c)
  {
    ghost var before := raw[..at];
    next := CopyInto(raw, at, Le(|c.name|, 4));
    next := CopyInto(raw, next, c.name);
    next := CopyInto(raw, next, c.ino);
    assert before + Le(|c.name|, 4) + c.name + c.ino == before + EntryBytes(c);
  }

  /** `serialize`: the entries fill exactly the `raw_size` bytes computed beforehand; one spare byte follows. */
  method Serialize(order: seq<Child>) returns (raw: array<byte>)
    ensures fresh(raw) && raw.Length == |Image(order)| + 1
    ensures raw[..raw.Length - 1] == Image(order)
  {
    var total := TotalNameLength(order);
    var size := 8 + |order| * 4 + total + |order| * 16;
    ImageSize(order);
    raw := new byte[size + 1](_ => 0);
    var pointer: nat := CopyInto(raw, 0, Le(|order|, 8));
    ghost var image := Image(order);
    assert order[0..] == order;
    for k := 0 to |order|
      invariant fresh(raw) && raw.Length == |image| + 1
      invariant pointer <= |image| && raw[..pointer] + EntriesBytes(order[k..]) == image
    {
      EntriesStep(order, k, raw[..pointer]);
      pointer := PutEntry(raw, pointer, order[k]);
    }
  }

  lemma EntriesStep(order: seq<Child>, k: nat, done: seq<byte>)
    requires k < |order|
    ensures done + EntriesBytes(order[k..]) == (done + EntryBytes(order[k])) + EntriesBytes(order[k + 1..])
  {
    assert order[k..][1..] == order[k + 1..];
  }

  // Reading

  /** `deserialize`. */
  method Deserialize(buf: seq<byte>) returns (r: Option<map<Name, Uuid>>)
    ensures r == Decode(buf)
  {
    if |buf| < 8 {
      return None;
    }
    var pointer, n: nat, m: map<Name, Uuid> := buf[8..], LittleEndian(buf[..8]), map[];
    while n > 0
      invariant Decode(buf) == DecodeEntries(pointer, n, m)
    {
      if |pointer| < 4 {
        return None;
      }
      var len := Int32(pointer);
      if len < 0 || 4 + len + 16 > |pointer| {
        return None;
      }
      m := Insert(m, Child(CString(pointer[4..4 + len]), pointer[4 + len..4 + len + 16]));
      pointer, n := pointer[4 + len + 16..], n - 1;
    }
    r := Some(m);
  }

  lemma EntryParts(c: Child, rest: seq<byte>)
    ensures var s := EntryBytes(c) + rest; var n := |c.name|;
            && |s| == 4 + n + 16 + |rest| && s[..4] == Le(n, 4)
            && s[4..4 + n] == c.name && s[4 + n..4 + n + 16] == c.ino && s[4 + n + 16..] == rest
  {
  }

  lemma DecodeOne(c: Child, rest: seq<byte>, n: nat, m: map<Name, Uuid>)
    requires |c.name| < 0x8000_0000 && NulFree(c.name)
    ensures DecodeEntries(EntryBytes(c) + rest, n + 1, m) == DecodeEntries(rest, n, Insert(m, c))
  {
    EntryParts(c, rest);
    Int32Of(|c.name|, EntryBytes(c) + rest);
    CStringWhole(c.name);
  }

  predicate Short(order: seq<Child>) {
    forall i :: 0 <= i < |order| ==> NulFree(order[i].name) && |order[i].name| < 0x8000_0000
  }

  lemma {:induction false} DecodeFrom(order: seq<Child>, tail: seq<byte>, m: map<Name, Uuid>)
    requires Short(order)
    ensures DecodeEntries(EntriesBytes(order) + tail, |order|, m) == Some(InsertAll(m, order))
    decreases |order|
  {
    if order == [] {
      assert EntriesBytes(order) + tail == tail;
    } else {
      var c, rest := order[0], EntriesBytes(order[1..]) + tail;
      assert EntriesBytes(order) + tail == EntryBytes(c) + rest;
      DecodeOne(c, rest, |order| - 1, m);
      DecodeFrom(order[1..], tail, Insert(m, c));
    }
  }

  lemma {:induction false} NamesShort(order: seq<Child>, i: nat)
    requires i < |order|
    ensures |order[i].name| <= |EntriesBytes(order)|
  {
    if i > 0 {
      NamesShort(order[1..], i - 1);
    }
  }

  /** Of several entries with one name the first stands. */
  lemma {:induction false} FirstStands(m: map<Name, Uuid>, order: seq<Child>, k: nat)
    requires k < |order| && forall i :: 0 <= i < k ==> order[i].name != order[k].name
    ensures var name, all := order[k].name, InsertAll(m, order);
            name in all && all[name] == if name in m then m[name] else order[k].ino
    decreases |order|
  {
    if k > 0 {
      FirstStands(Insert(m, order[0]), order[1..], k - 1);
    } else {
      InsertStays(Insert(m, order[0]), order[1..], order[0].name);
    }
  }

  lemma {:induction false} InsertStays(m: map<Name, Uuid>, order: seq<Child>, name: Name)
    requires name in m
    ensures name in InsertAll(m, order) && InsertAll(m, order)[name] == m[name]
    decreases |order|
  {
    if order != [] {
      InsertStays(Insert(m, order[0]), order[1..], name);
    }
  }

  lemma {:induction false} InsertAllAre(m: map<Name, Uuid>, order: seq<Child>)
    requires forall i, j :: 0 <= i < j < |order| ==> order[i].name != order[j].name
    requires forall i :: 0 <= i < |order| ==> order[i].name !in m
    ensures var r := InsertAll(m, order);
            && (forall n :: n in m ==> n in r && r[n] == m[n])
            && (forall i :: 0 <= i < |order| ==> order[i].name in r && r[order[i].name] == order[i].ino)
            && (forall n :: n in r ==> n in m || exists i :: 0 <= i < |order| && order[i].name == n)
    decreases |order|
  {
    if order != [] {
      InsertAllAre(Insert(m, order[0]), order[1..]);
      assert forall i :: 1 <= i < |order| ==> order[i] == order[1..][i - 1];
    }
  }

  lemma ListsInserts(order: seq<Child>, m: map<Name, Uuid>)
    requires Lists(order, m)
    ensures InsertAll(map[], order) == m
  {
    InsertAllAre(map[], order);
    assert InsertAll(map[], order).Keys == m.Keys;
  }

  /** Round trip: any visiting order, any bytes after the image. */
  lemma DecodeImage(buf: seq<byte>, order: seq<Child>, m: map<Name, Uuid>)
    requires Lists(order, m) && (forall n :: n in m ==> NulFree(n))
    requires |Image(order)| <= Min(|buf|, OBJ_SIZE) && buf[..|Image(order)|] == Image(order)
    ensures Decode(buf) == Some(m)
  {
    var tail := buf[|Image(order)|..];
    assert buf == Image(order) + tail;
    CountDecodes(order);
    ImageParts(Le(|order|, 8), EntriesBytes(order), tail);
    forall i | 0 <= i < |order|
      ensures |order[i].name| < 0x8000_0000
    {
      NamesShort(order, i);
    }
    DecodeFrom(order, tail, map[]);
    ListsInserts(order, m);
  }

  lemma ImageParts(head: seq<byte>, entries: seq<byte>, tail: seq<byte>)
    requires |head| == 8
    ensures var buf := (head + entries) + tail; |buf| >= 8 && buf[..8] == head && buf[8..] == entries + tail
  {
  }

  lemma CountDecodes(order: seq<Child>)
    requires |Image(order)| <= OBJ_SIZE
    ensures LittleEndian(Le(|order|, 8)) == |order|
  {
    Powers();
    ImageSize(order);
    LeInverse(|order|, 8);
  }

  // The object

  function DentryFile(ino: Uuid): FileId { FileId(Dentry, UuidText(ino)) }

  /** The DENTRY object of `ino` begins with an image of `m`; stale bytes may follow. */
  ghost predicate Stored(st: FlatStore, ino: Uuid, m: map<Name, Uuid>) {
    forall u {:trigger Unfold(u)} :: Unfold(u) && u == OfImages ==>
      exists order {:trigger Fits(order, m)} ::
        Fits(order, m) && Begins(FlatOf(st, DentryFile(ino)), Image(order))
  }

  predicate Begins(f: seq<byte>, image: seq<byte>) {
    |image| <= |f| && f[..|image|] == image
  }

  /** `order` visits a child list that fits one object. */
  ghost predicate Fits(order: seq<Child>, m: map<Name, Uuid>) {
    forall u {:trigger Unfold(u)} :: Unfold(u) && u == OfImages ==>
      Lists(order, m) && |Image(order)| <= OBJ_SIZE && forall n :: n in m ==> NulFree(n)
  }

  /** `sync`: whatever was there before, the object begins with the list's image; if that fits, the list is stored. */
  method SyncDentry(store: Store, ino: Uuid, order: seq<Child>, ghost m: map<Name, Uuid>)
    requires store.Valid()
    modifies store
    ensures store.Valid() && Begins(FlatOf(store.flat, DentryFile(ino)), Image(order))
    ensures Fits(order, m) ==> Stored(store.flat, ino, m)
    ensures store.flat - {DentryFile(ino)} == old(store.flat) - {DentryFile(ino)}
    ensures |FlatOf(store.flat, DentryFile(ino))| == Max(|FlatOf(old(store.flat), DentryFile(ino))|, |Image(order)|)
  {
    assert Unfold(OfImages);
    var raw := Serialize(order);
    ghost var before := store.flat;
    var _ := store.Write(DentryFile(ino), raw[..raw.Length - 1], 0);
    assert store.flat == Put(before, DentryFile(ino), Overlay(FlatOf(before, DentryFile(ino)), 0, Image(order)));
    assert Begins(Overlay(FlatOf(before, DentryFile(ino)), 0, Image(order)), Image(order));
  }

  /** The loading constructor; `None` is "Dentry Corrupted". */
  method LoadDentry(store: Store, ino: Uuid, ghost m: map<Name, Uuid>) returns (r: Option<map<Name, Uuid>>)
    requires store.Valid()
    ensures DentryFile(ino) !in store.flat ==> r == None
    ensures Stored(store.flat, ino, m) ==> r == Some(m)
  {
    var buf := new byte[OBJ_SIZE](_ => 0);
    var got := store.Read(DentryFile(ino), buf, OBJ_SIZE, 0);
    store.Present(DentryFile(ino), 0);
    if got.NoSuchObject? {
      assert DentryFile(ino) !in store.flat && Unfold(OfImages);
      return None;
    }
    r := Deserialize(buf[..]);
    ghost var f := FlatOf(store.flat, DentryFile(ino));
    if Stored(store.flat, ino, m) {
      assert Unfold(OfImages);
      ghost var order :| Fits(order, m) && Begins(f, Image(order));
      ReadBegins(f, buf[..], Image(order));
      DecodeImage(buf[..], order, m);
    }
  }

  /** An image at the front of a file is at the front of the buffer read from it. */
  lemma ReadBegins(f: seq<byte>, buf: seq<byte>, image: seq<byte>)
    requires Begins(f, image) && |image| <= OBJ_SIZE && |buf| == OBJ_SIZE
    requires forall i :: 0 <= i < |Slice(f, 0, OBJ_SIZE)| ==> buf[i] == Slice(f, 0, OBJ_SIZE)[i]
    ensures buf[..|image|] == image
  {
  }
}
