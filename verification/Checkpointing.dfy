/** Commit and checkpoint of one transaction on the object store itself: what "durable" means in bytes. */
module Checkpointing {
  import opened Bytes
  import opened Encoding
  import opened Transactions
  import ObjectNames
  import opened Striping
  import opened RadosIo
  import opened DentryCodec
  import opened InodeCodec
  import TxCodec
  import JournalFile
  import opened Stages
  import opened Threads

  type FileId = ObjectNames.FileId

  /** `d` is what the objects of directory `dir` say. */
  ghost predicate OnDisk(st: FlatStore, dir: Uuid, d: Durable) {
    && (if d.dentry.Some? then Stored(st, dir, d.dentry.value) else DentryFile(dir) !in st)
    && (if d.self.Some? then InodeHeld(st, dir, d.self.value) else InodeFile(dir) !in st)
    && (forall i :: i in d.files ==> InodeHeld(st, i, d.files[i]))
  }

  /** Only the files in `fs` may differ. */
  ghost predicate Only(st: FlatStore, st': FlatStore, fs: set<FileId>) {
    forall u {:trigger Unfold(u)} :: Unfold(u) && u == OfDisk ==>
    forall g :: g !in fs ==> (g in st <==> g in st') && FlatOf(st', g) == FlatOf(st, g)
  }

  lemma OnlyPut(st: FlatStore, f: FileId, bytes: seq<byte>)
    ensures Only(st, Put(st, f, bytes), {f})
  {
    assert Unfold(OfDisk);
  }

  lemma OnlyBoth(a: FlatStore, b: FlatStore, c: FlatStore, fs: set<FileId>, gs: set<FileId>)
    requires Only(a, b, fs) && Only(b, c, gs)
    ensures Only(a, c, fs + gs)
  {
    assert Unfold(OfDisk);
  }

  lemma OnlyOne(st: FlatStore, st': FlatStore, f: FileId)
    requires st' - {f} == st - {f}
    ensures Only(st, st', {f})
  {
    assert Unfold(OfDisk);
    forall g | g != f
      ensures (g in st <==> g in st') && FlatOf(st', g) == FlatOf(st, g)
    {
      assert g in st <==> g in st - {f};
      assert g in st' <==> g in st' - {f};
      if g in st {
        assert (st - {f})[g] == (st' - {f})[g];
      }
    }
  }

  lemma InodesApart(a: Uuid, b: Uuid)
    ensures InodeFile(a) == InodeFile(b) <==> a == b
  {
    if UuidText(a) == UuidText(b) {
      UuidTextInjective(a, b);
    }
  }

  /** `inode::sync` of an inode without a link target. */
  method PutInode(store: Store, i: Inode)
    requires store.Valid()
    modifies store
    ensures store.Valid() && InodeHeld(store.flat, i.attrs.ino, i)
    ensures Only(old(store.flat), store.flat, {InodeFile(i.attrs.ino)})
  {
    ghost var st, f := store.flat, InodeFile(i.attrs.ino);
    var _ := store.Write(InodeFile(i.attrs.ino), CoreOf(i), 0);
    FlatOfPut(st, f, Overlay(FlatOf(st, f), 0, CoreOf(i)));
    OnlyPut(st, f, Overlay(FlatOf(st, f), 0, CoreOf(i)));
    assert Begins(Overlay(FlatOf(st, f), 0, CoreOf(i)), CoreOf(i));
  }

  /** The inode files of these numbers. */
  ghost function InodeFiles(inos: set<Uuid>): set<FileId> {
    set i | i in inos :: InodeFile(i)
  }

  ghost predicate FilesHeld(st: FlatStore, files: map<Uuid, Option<Inode>>, rest: set<Uuid>) {
    forall i :: i in files && i !in rest && files[i].Some? ==> InodeHeld(st, i, files[i].value)
  }

  lemma InodeStays(st: FlatStore, st': FlatStore, fs: set<FileId>, ino: Uuid, i: Inode)
    requires InodeHeld(st, ino, i) && Only(st, st', fs) && InodeFile(ino) !in fs
    ensures InodeHeld(st', ino, i)
  {
    assert Unfold(OfDisk);
  }

  lemma FilesStay(st: FlatStore, st': FlatStore, files: map<Uuid, Option<Inode>>, rest: set<Uuid>, ino: Uuid)
    requires FilesHeld(st, files, rest) && ino in rest && Only(st, st', {InodeFile(ino)})
    requires ino in files && files[ino].Some? ==> InodeHeld(st', ino, files[ino].value)
    ensures FilesHeld(st', files, rest - {ino})
  {
    forall i | i in files && i !in rest - {ino} && files[i].Some?
      ensures InodeHeld(st', i, files[i].value)
    {
      if i != ino {
        InodesApart(i, ino);
        InodeStays(st, st', {InodeFile(ino)}, i, files[i].value);
      }
    }
  }

  /** The files whose inodes a transaction carries. */
  function Carried(files: map<Uuid, Option<Inode>>): set<Uuid> {
    set i | i in files && files[i].Some?
  }

  /** One round of the loop below. */
  method PutFile(store: Store, files: map<Uuid, Option<Inode>>, rest: set<Uuid>, ino: Uuid, ghost st: FlatStore)
    requires store.Valid() && ino in rest && ino in files && (files[ino].Some? ==> files[ino].value.attrs.ino == ino)
    requires FilesHeld(store.flat, files, rest) && Only(st, store.flat, InodeFiles(Carried(files) - rest))
    modifies store
    ensures store.Valid() && FilesHeld(store.flat, files, rest - {ino})
    ensures Only(st, store.flat, InodeFiles(Carried(files) - (rest - {ino})))
  {
    ghost var now := store.flat;
    var carried := Carried(files);
    if files[ino].Some? {
      PutInode(store, files[ino].value);
      OnlyBoth(st, now, store.flat, InodeFiles(carried - rest), {InodeFile(ino)});
      assert carried - (rest - {ino}) == carried - rest + {ino};
      InodeFilesMore(carried - rest, ino);
    } else {
      assert carried - (rest - {ino}) == carried - rest;
    }
    FilesStay(now, store.flat, files, rest, ino);
  }

  lemma InodeFilesMore(inos: set<Uuid>, ino: Uuid)
    ensures InodeFiles(inos + {ino}) == InodeFiles(inos) + {InodeFile(ino)}
  {
  }

  /** The file inode loop of `sync`. */
  method PutFiles(store: Store, files: map<Uuid, Option<Inode>>)
    requires store.Valid() && forall i :: i in files && files[i].Some? ==> files[i].value.attrs.ino == i
    modifies store
    ensures store.Valid() && FilesHeld(store.flat, files, {})
    ensures Only(old(store.flat), store.flat, InodeFiles(Carried(files)))
  {
    var rest := files.Keys;
    assert Carried(files) - rest == {} && InodeFiles({}) == {};
    while rest != {}
      invariant store.Valid() && rest <= files.Keys && FilesHeld(store.flat, files, rest)
      invariant Only(old(store.flat), store.flat, InodeFiles(Carried(files) - rest))
    {
      var ino :| ino in rest;
      PutFile(store, files, rest, ino, old(store.flat));
      rest := rest - {ino};
    }
    assert Carried(files) - rest == Carried(files);
  }

  /** A child list in some visiting order. */
  method Visit(m: map<Name, Uuid>) returns (order: seq<Child>)
    ensures Lists(order, m)
  {
    order := [];
    var rest := m.Keys;
    while rest != {}
      invariant rest <= m.Keys
      invariant forall k :: 0 <= k < |order| ==>
                order[k].name in m && order[k].name !in rest && m[order[k].name] == order[k].ino
      invariant forall n :: n in m && n !in rest ==> exists k :: 0 <= k < |order| && order[k].name == n
      invariant forall i, k :: 0 <= i < k < |order| ==> order[i].name != order[k].name
    {
      var n :| n in rest;
      ghost var before := order;
      order := order + [Child(n, m[n])];
      rest := rest - {n};
      forall x | x in m && x !in rest
        ensures exists k :: 0 <= k < |order| && order[k].name == x
      {
        if x == n {
          assert order[|before|].name == x;
        } else {
          var k :| 0 <= k < |before| && before[k].name == x;
          assert order[k].name == x;
        }
      }
    }
  }

  // One checkpoint

  /** The inodes of a transaction are filed under their own numbers, and the directory is none of its files. */
  ghost predicate Keyed(tx: Tx, dir: Uuid) {
    && (tx.self.Some? ==> tx.self.value.attrs.ino == dir)
    && (forall i :: i in tx.files && tx.files[i].Some? ==> tx.files[i].value.attrs.ino == i)
    && dir !in tx.files
  }

  /** A child list that fits one object, whatever order it is visited in. */
  ghost predicate ListFits(m: map<Name, Uuid>) {
    forall order :: Lists(order, m) ==> Fits(order, m)
  }

  ghost function Touched(dir: Uuid, tx: Tx): set<FileId> {
    {DentryFile(dir), InodeFile(dir), JournalFile.JournalFileOf(dir)} + InodeFiles(Carried(tx.files))
  }

  lemma DentryStays(st: FlatStore, st': FlatStore, fs: set<FileId>, dir: Uuid, dentry: Option<map<Name, Uuid>>)
    requires Only(st, st', fs) && DentryFile(dir) !in fs
    requires if dentry.Some? then Stored(st, dir, dentry.value) else DentryFile(dir) !in st
    ensures if dentry.Some? then Stored(st', dir, dentry.value) else DentryFile(dir) !in st'
  {
    assert Unfold(OfDisk);
  }

  lemma SelfStays(st: FlatStore, st': FlatStore, fs: set<FileId>, dir: Uuid, self: Option<Inode>)
    requires Only(st, st', fs) && InodeFile(dir) !in fs
    requires if self.Some? then InodeHeld(st, dir, self.value) else InodeFile(dir) !in st
    ensures if self.Some? then InodeHeld(st', dir, self.value) else InodeFile(dir) !in st'
  {
    assert Unfold(OfDisk);
  }

  /** The self inode, if the transaction has one. */
  method PutSelf(store: Store, dir: Uuid, self: Option<Inode>, ghost before: Option<Inode>)
    requires store.Valid() && (self.Some? ==> self.value.attrs.ino == dir)
    requires if before.Some? then InodeHeld(store.flat, dir, before.value) else InodeFile(dir) !in store.flat
    modifies store
    ensures store.Valid() && Only(old(store.flat), store.flat, {InodeFile(dir)})
    ensures var now := if self.Some? then self else before;
            if now.Some? then InodeHeld(store.flat, dir, now.value) else InodeFile(dir) !in store.flat
  {
    if self.Some? {
      PutInode(store, self.value);
    }
  }

  /** The child list a transaction starts from; `None` is "Dentry Corrupted". */
  method Base(store: Store, dir: Uuid, created: bool, ghost dentry: Option<map<Name, Uuid>>)
    returns (r: Option<map<Name, Uuid>>)
    requires store.Valid()
    requires if dentry.Some? then Stored(store.flat, dir, dentry.value) else DentryFile(dir) !in store.flat
    ensures r == if created then Some(map[]) else dentry
  {
    if created {
      return Some(map[]);
    }
    r := LoadDentry(store, dir, if dentry.Some? then dentry.value else map[]);
  }

  /** The entries of a transaction merged into a child list, and the list written. */
  method PutEntries(store: Store, dir: Uuid, base: map<Name, Uuid>, dentries: map<Name, Entry>)
    requires store.Valid() && ListFits(Overlaid(base, dentries))
    modifies store
    ensures store.Valid() && Stored(store.flat, dir, Overlaid(base, dentries))
    ensures Only(old(store.flat), store.flat, {DentryFile(dir)})
  {
    var entries := new DirEntries(base);
    MergeEntries(entries, dentries);
    var order := Visit(entries.childList);
    ghost var st := store.flat;
    SyncDentry(store, dir, order, entries.childList);
    OnlyOne(st, store.flat, DentryFile(dir));
  }

  lemma KindsApart(dir: Uuid, inos: set<Uuid>)
    ensures DentryFile(dir) !in InodeFiles(inos) && DentryFile(dir) != InodeFile(dir)
    ensures JournalFile.JournalFileOf(dir) != DentryFile(dir)
    ensures forall i :: JournalFile.JournalFileOf(dir) != InodeFile(i)
    ensures dir !in inos ==> InodeFile(dir) !in InodeFiles(inos)
  {
    forall i | i in inos && dir !in inos
      ensures InodeFile(i) != InodeFile(dir)
    {
      InodesApart(i, dir);
    }
  }

  /** Files written by a transaction, the others as they were. */
  lemma FilesAfter(st: FlatStore, st': FlatStore, files: map<Uuid, Inode>, late: map<Uuid, Option<Inode>>,
                   fs: set<FileId>)
    requires (forall i :: i in files ==> InodeHeld(st, i, files[i])) && FilesHeld(st', late, {}) && Only(st, st', fs)
    requires forall i :: i in files && i !in Carried(late) ==> InodeFile(i) !in fs
    ensures forall i :: i in Written(files, late) ==> InodeHeld(st', i, Written(files, late)[i])
  {
    forall i | i in Written(files, late)
      ensures InodeHeld(st', i, Written(files, late)[i])
    {
      if i !in Carried(late) {
        InodeStays(st, st', fs, i, files[i]);
      }
    }
  }

  lemma CarriedApart(inos: set<Uuid>, i: Uuid)
    requires i !in inos
    ensures InodeFile(i) !in InodeFiles(inos)
  {
    forall k | k in inos
      ensures InodeFile(k) != InodeFile(i)
    {
      InodesApart(k, i);
    }
  }

  /** The self inode and the child list; false is "Dentry Corrupted". */
  method SyncList(store: Store, dir: Uuid, tx: Tx, ghost d: Durable) returns (ok: bool)
    requires store.Valid() && OnDisk(store.flat, dir, d) && Keyed(tx, dir) && tx.status != Deleted
    requires Sync(d, tx).Some? ==> ListFits(Sync(d, tx).value.dentry.value)
    modifies store
    ensures store.Valid() && (ok <==> Sync(d, tx).Some?)
    ensures ok ==> var after := Sync(d, tx).value;
                   && Stored(store.flat, dir, after.dentry.value)
                   && (if after.self.Some? then InodeHeld(store.flat, dir, after.self.value)
                       else InodeFile(dir) !in store.flat)
    ensures Only(old(store.flat), store.flat, {InodeFile(dir)} + {DentryFile(dir)})
  {
    ghost var st0, none := store.flat, {DentryFile(dir)};
    KindsApart(dir, {});
    PutSelf(store, dir, tx.self, d.self);
    ghost var st1 := store.flat;
    DentryStays(st0, st1, {InodeFile(dir)}, dir, d.dentry);
    var base := Base(store, dir, tx.status == Created, d.dentry);
    if base.None? {
      OnlySame(st1, none);
      OnlyBoth(st0, st1, st1, {InodeFile(dir)}, none);
      return false;
    }
    PutEntries(store, dir, base.value, tx.dentries);
    SelfStays(st1, store.flat, none, dir, if tx.self.Some? then tx.self else d.self);
    OnlyBoth(st0, st1, store.flat, {InodeFile(dir)}, none);
    ok := true;
  }

  lemma OnlySame(st: FlatStore, fs: set<FileId>)
    ensures Only(st, st, fs)
  {
  }

  /** `sync` on the objects of a directory that is not deleted: self inode, child list, file inodes. */
  method SyncAlive(store: Store, dir: Uuid, tx: Tx, ghost d: Durable) returns (ok: bool)
    requires store.Valid() && OnDisk(store.flat, dir, d) && Keyed(tx, dir) && dir !in d.files && tx.status != Deleted
    requires Sync(d, tx).Some? ==> ListFits(Sync(d, tx).value.dentry.value)
    modifies store
    ensures store.Valid() && (ok <==> Sync(d, tx).Some?)
    ensures ok ==> OnDisk(store.flat, dir, Sync(d, tx).value)
    ensures Only(old(store.flat), store.flat, {InodeFile(dir)} + {DentryFile(dir)} + InodeFiles(Carried(tx.files)))
  {
    ghost var st0, both, files := store.flat, {InodeFile(dir)} + {DentryFile(dir)}, InodeFiles(Carried(tx.files));
    ok := SyncList(store, dir, tx, d);
    ghost var st1 := store.flat;
    if ok {
      PutFiles(store, tx.files);
      SyncedOnDisk(st0, st1, store.flat, dir, tx, d);
    } else {
      OnlySame(st1, files);
    }
    OnlyBoth(st0, st1, store.flat, both, files);
  }

  lemma SyncedOnDisk(st0: FlatStore, st1: FlatStore, st2: FlatStore, dir: Uuid, tx: Tx, d: Durable)
    requires OnDisk(st0, dir, d) && Keyed(tx, dir) && dir !in d.files && tx.status != Deleted && Sync(d, tx).Some?
    requires Only(st0, st1, {InodeFile(dir)} + {DentryFile(dir)}) && Only(st1, st2, InodeFiles(Carried(tx.files)))
    requires FilesHeld(st2, tx.files, {})
    requires var after := Sync(d, tx).value;
             && Stored(st1, dir, after.dentry.value)
             && (if after.self.Some? then InodeHeld(st1, dir, after.self.value) else InodeFile(dir) !in st1)
    ensures OnDisk(st2, dir, Sync(d, tx).value)
  {
    var after, carried := Sync(d, tx).value, Carried(tx.files);
    KindsApart(dir, carried);
    DentryStays(st1, st2, InodeFiles(carried), dir, after.dentry);
    SelfStays(st1, st2, InodeFiles(carried), dir, after.self);
    var fs := {InodeFile(dir)} + {DentryFile(dir)} + InodeFiles(carried);
    OnlyBoth(st0, st1, st2, {InodeFile(dir)} + {DentryFile(dir)}, InodeFiles(carried));
    FilesUntouched(dir, d.files, carried);
    FilesAfter(st0, st2, d.files, tx.files, fs);
  }

  lemma FilesUntouched(dir: Uuid, files: map<Uuid, Inode>, carried: set<Uuid>)
    requires dir !in files
    ensures forall i :: i in files && i !in carried ==>
            InodeFile(i) !in {InodeFile(dir)} + {DentryFile(dir)} + InodeFiles(carried)
  {
    forall i | i in files && i !in carried
      ensures InodeFile(i) !in {InodeFile(dir)} + {DentryFile(dir)} + InodeFiles(carried)
    {
      CarriedApart(carried, i);
      InodesApart(i, dir);
    }
  }

  method RemoveFile(store: Store, f: FileId)
    requires store.Valid()
    modifies store
    ensures store.Valid() && f !in store.flat && Only(old(store.flat), store.flat, {f})
  {
    ghost var st := store.flat;
    store.Remove(f);
    OnlyOne(st, store.flat, f);
  }

  lemma RemovedOnDisk(st: FlatStore, st': FlatStore, dir: Uuid, d: Durable)
    requires OnDisk(st, dir, d) && dir !in d.files && Only(st, st', {InodeFile(dir), DentryFile(dir)})
    requires DentryFile(dir) !in st' && InodeFile(dir) !in st'
    ensures OnDisk(st', dir, d.(dentry := None, self := None))
  {
    forall i | i in d.files
      ensures InodeHeld(st', i, d.files[i])
    {
      InodesApart(i, dir);
      InodeStays(st, st', {InodeFile(dir), DentryFile(dir)}, i, d.files[i]);
    }
  }

  /** `sync` of a deleted directory. */
  method RemoveBoth(store: Store, dir: Uuid, ghost d: Durable)
    requires store.Valid() && OnDisk(store.flat, dir, d) && dir !in d.files
    modifies store
    ensures store.Valid() && OnDisk(store.flat, dir, d.(dentry := None, self := None))
    ensures Only(old(store.flat), store.flat, {InodeFile(dir), DentryFile(dir)})
  {
    ghost var st0 := store.flat;
    RemoveFile(store, InodeFile(dir));
    ghost var st1 := store.flat;
    RemoveFile(store, DentryFile(dir));
    KindsApart(dir, {});
    OnlyBoth(st0, st1, store.flat, {InodeFile(dir)}, {DentryFile(dir)});
    SelfStays(st1, store.flat, {DentryFile(dir)}, dir, None);
    RemovedOnDisk(st0, store.flat, dir, d);
  }

  /**
   * `checkpoint`: `sync` and the mark in the journal. The objects of the directory are then what `Sync` says, or it
   * throws when `Sync` does; nothing but the files of this transaction is touched.
   */
  method Checkpoint(store: Store, dir: Uuid, tx: Transaction, offset: nat, ghost d: Durable) returns (ok: bool)
    requires store.Valid() && OnDisk(store.flat, dir, d) && Keyed(tx.View(), dir) && dir !in d.files
    requires var after := Sync(d, tx.View()); after.Some? && after.value.dentry.Some? ==>
             ListFits(after.value.dentry.value)
    modifies store
    ensures store.Valid() && (ok <==> Sync(d, tx.View()).Some?)
    ensures ok ==> OnDisk(store.flat, dir, Sync(d, tx.View()).value)
    ensures var f := JournalFile.JournalFileOf(dir); var was, now := FlatOf(old(store.flat), f), FlatOf(store.flat, f);
            if ok then Marked(was, now, offset) else now == was
    ensures Only(old(store.flat), store.flat, Touched(dir, tx.View()))
  {
    ghost var st0, fs := store.flat, {InodeFile(dir)} + {DentryFile(dir)} + InodeFiles(Carried(tx.files));
    if tx.status == Deleted {
      RemoveBoth(store, dir, d);
      OnlyWider(st0, store.flat, {InodeFile(dir), DentryFile(dir)}, fs);
      ok := true;
    } else {
      ok := SyncAlive(store, dir, tx.View(), d);
    }
    JournalUntouched(st0, store.flat, dir, Carried(tx.files));
    if ok {
      ghost var st1, after := store.flat, Sync(d, tx.View()).value;
      Mark(store, dir, offset);
      KindsApart(dir, {});
      OnDiskStays(st1, store.flat, dir, after);
      OnlyBoth(st0, st1, store.flat, fs, {JournalFile.JournalFileOf(dir)});
    }
    OnlyWider(st0, store.flat, fs + if ok then {JournalFile.JournalFileOf(dir)} else {}, Touched(dir, tx.View()));
  }

  lemma JournalUntouched(st: FlatStore, st': FlatStore, dir: Uuid, inos: set<Uuid>)
    requires Only(st, st', {InodeFile(dir)} + {DentryFile(dir)} + InodeFiles(inos))
    ensures FlatOf(st', JournalFile.JournalFileOf(dir)) == FlatOf(st, JournalFile.JournalFileOf(dir))
  {
    assert Unfold(OfDisk);
    KindsApart(dir, {});
  }

  lemma OnlyWider(st: FlatStore, st': FlatStore, fs: set<FileId>, gs: set<FileId>)
    requires Only(st, st', fs) && fs <= gs
    ensures Only(st, st', gs)
  {
    assert Unfold(OfDisk);
  }

  /** The journal `now` is `was` with the byte at `offset` cleared. */
  predicate Marked(was: seq<byte>, now: seq<byte>, offset: nat) {
    && |now| == Max(|was|, offset + 1) && now[offset] == 0
    && forall k :: 0 <= k < |was| && k != offset ==> now[k] == was[k]
  }

  /** The zero byte that `checkpoint` writes where the record begins. */
  method Mark(store: Store, dir: Uuid, offset: nat)
    requires store.Valid()
    modifies store
    ensures store.Valid() && Only(old(store.flat), store.flat, {JournalFile.JournalFileOf(dir)})
    ensures var f := JournalFile.JournalFileOf(dir); Marked(FlatOf(old(store.flat), f), FlatOf(store.flat, f), offset)
  {
    ghost var st, f := store.flat, JournalFile.JournalFileOf(dir);
    var _ := store.Write(JournalFile.JournalFileOf(dir), [0], offset);
    OnlyPut(st, f, Overlay(FlatOf(st, f), offset, [0]));
    FlatOfPut(st, f, Overlay(FlatOf(st, f), offset, [0]));
  }

  lemma OnDiskStays(st: FlatStore, st': FlatStore, dir: Uuid, d: Durable)
    requires OnDisk(st, dir, d) && Only(st, st', {JournalFile.JournalFileOf(dir)})
    ensures OnDisk(st', dir, d)
  {
    var fs := {JournalFile.JournalFileOf(dir)};
    KindsApart(dir, {});
    DentryStays(st, st', fs, dir, d.dentry);
    SelfStays(st, st', fs, dir, d.self);
    forall i | i in d.files
      ensures InodeHeld(st', i, d.files[i])
    {
      InodeStays(st, st', fs, i, d.files[i]);
    }
  }

  // One commit

  function RawInode(i: Option<Inode>): Option<TxCodec.Core> {
    if i.Some? then Some(CoreOf(i.value)) else None
  }

  /** What a transaction puts into its journal record. */
  function RawOf(tx: Tx): TxCodec.RawTx {
    TxCodec.RawTx(RawInode(tx.self), tx.dentries, map i | i in tx.files :: RawInode(tx.files[i]))
  }

  method VisitDents(m: map<Name, Entry>) returns (ds: seq<TxCodec.Dent>)
    ensures TxCodec.VisitsDents(m, ds)
  {
    ds := [];
    var rest := m.Keys;
    while rest != {}
      invariant rest <= m.Keys
      invariant forall k :: 0 <= k < |ds| ==> ds[k].name in m && ds[k].name !in rest && m[ds[k].name] == ds[k].entry
      invariant forall n :: n in m && n !in rest ==> exists k :: 0 <= k < |ds| && ds[k].name == n
      invariant forall i, k :: 0 <= i < k < |ds| ==> ds[i].name != ds[k].name
    {
      var n :| n in rest;
      ghost var before := ds;
      ds := ds + [TxCodec.Dent(n, m[n])];
      rest := rest - {n};
      forall x | x in m && x !in rest
        ensures exists k :: 0 <= k < |ds| && ds[k].name == x
      {
        if x == n {
          assert ds[|before|].name == x;
        } else {
          var k :| 0 <= k < |before| && before[k].name == x;
          assert ds[k].name == x;
        }
      }
    }
  }

  method VisitFiles(m: map<Uuid, Option<TxCodec.Core>>) returns (fs: seq<TxCodec.File>)
    requires forall n :: n in m && m[n].Some? ==> TxCodec.CoreIno(m[n].value) == n
    ensures TxCodec.VisitsFiles(m, fs)
  {
    fs := [];
    var rest := m.Keys;
    while rest != {}
      invariant rest <= m.Keys
      invariant forall k :: 0 <= k < |fs| ==> fs[k].ino in m && fs[k].ino !in rest && m[fs[k].ino] == fs[k].inode
      invariant forall n :: n in m && n !in rest ==> exists k :: 0 <= k < |fs| && fs[k].ino == n
      invariant forall i, k :: 0 <= i < k < |fs| ==> fs[i].ino != fs[k].ino
    {
      var n :| n in rest;
      ghost var before := fs;
      fs := fs + [TxCodec.File(n, m[n])];
      rest := rest - {n};
      forall x | x in m && x !in rest
        ensures exists k :: 0 <= k < |fs| && fs[k].ino == x
      {
        if x == n {
          assert fs[|before|].ino == x;
        } else {
          var k :| 0 <= k < |before| && before[k].ino == x;
          assert fs[k].ino == x;
        }
      }
    }
  }

  /** The journal of `dir` has grown by one record of `tx`. */
  ghost predicate Appended(st: FlatStore, st': FlatStore, dir: Uuid, tx: Tx) {
    var f := JournalFile.JournalFileOf(dir);
    exists c: JournalFile.Commit ::
      && c.tx == RawOf(tx) && TxCodec.Visits(c.tx, c.ds, c.fs)
      && FlatOf(st', f) == FlatOf(st, f) + JournalFile.Frame(c)
  }

  // What the record says

  /** The inode read off these bytes, if any, is `i`, if any. */
  predicate Reads(c: Option<TxCodec.Core>, i: Option<Inode>) {
    (c.Some? <==> i.Some?) && (i.Some? && Typed(i.value) ==> DecodeCore(c.value) == i.value)
  }

  /** The restored `r` has every entry, every file inode that is not deleted, and the self inode of `tx`. */
  ghost predicate Restores(r: TxCodec.RawTx, tx: Tx) {
    && r.dentries == tx.dentries && Reads(r.self, tx.self)
    && (forall i :: i in r.files <==> i in tx.files && tx.files[i].Some?)
    && (forall i :: i in r.files ==> Reads(r.files[i], tx.files[i]))
  }

  /** `raw` decodes to what `tx` recorded, if a self inode is skipped by its recorded size. */
  ghost predicate Decodes(raw: seq<byte>, tx: Tx) {
    |raw| < 0x8000_0000 ==>
      forall stride: nat :: (tx.self.Some? ==> stride == 104) ==>
        var found := TxCodec.DecodeRecord(raw, stride);
        found.Restored? && Restores(found.tx, tx)
  }

  /** The bytes that the journal of `dir` has grown by decode to what `tx` recorded. */
  ghost predicate RecordFound(st: FlatStore, st': FlatStore, dir: Uuid, tx: Tx) {
    var was, now := FlatOf(st, JournalFile.JournalFileOf(dir)), FlatOf(st', JournalFile.JournalFileOf(dir));
    was <= now && Decodes(now[|was|..], tx)
  }

  lemma RawReads(i: Option<Inode>)
    ensures Reads(RawInode(i), i)
  {
    if i.Some? && Typed(i.value) {
      CoreRoundTrip(i.value);
    }
  }

  lemma RawRestores(tx: Tx)
    ensures var raw := RawOf(tx); Restores(raw.(files := TxCodec.Kept(raw.files)), tx)
  {
    var r := RawOf(tx).(files := TxCodec.Kept(RawOf(tx).files));
    RawReads(tx.self);
    forall i | i in r.files
      ensures Reads(r.files[i], tx.files[i])
    {
      RawReads(tx.files[i]);
    }
  }

  lemma RecordDecodes(c: JournalFile.Commit, tx: Tx)
    requires c.tx == RawOf(tx) && TxCodec.Visits(c.tx, c.ds, c.fs)
    ensures Decodes(JournalFile.Frame(c), tx)
  {
    RawRestores(tx);
    forall stride: nat | |JournalFile.Frame(c)| < 0x8000_0000 && (tx.self.Some? ==> stride == 104)
      ensures TxCodec.DecodeRecord(JournalFile.Frame(c), stride) ==
              TxCodec.Restored(RawOf(tx).(files := TxCodec.Kept(RawOf(tx).files)))
    {
      TxCodec.RoundTrip(c.tx, c.ds, c.fs, stride);
    }
  }

  /** A record that was appended is found again: the new bytes restore what the transaction recorded. */
  lemma AppendedIsFound(st: FlatStore, st': FlatStore, dir: Uuid, tx: Tx)
    requires Appended(st, st', dir, tx)
    ensures RecordFound(st, st', dir, tx)
  {
    var was, now := FlatOf(st, JournalFile.JournalFileOf(dir)), FlatOf(st', JournalFile.JournalFileOf(dir));
    var c: JournalFile.Commit :|
      c.tx == RawOf(tx) && TxCodec.Visits(c.tx, c.ds, c.fs) && now == was + JournalFile.Frame(c);
    assert now[|was|..] == JournalFile.Frame(c);
    RecordDecodes(c, tx);
  }

  /**
   * `commit`: freeze, then append the record of what is frozen to the journal; false is its `logic_error`. Decoding
   * the new bytes gives back the entries, the file inodes that are not deleted and the self inode.
   */
  method Commit(store: Store, dir: Uuid, tx: Transaction) returns (ok: bool, offset: nat)
    requires store.Valid() && Keyed(tx.View(), dir)
    modifies store, tx`committed
    ensures store.Valid() && tx.committed && ok == !old(tx.committed)
    ensures !ok ==> store.flat == old(store.flat)
    ensures ok ==> Appended(old(store.flat), store.flat, dir, tx.View())
    ensures ok ==> RecordFound(old(store.flat), store.flat, dir, tx.View())
    ensures Only(old(store.flat), store.flat, {JournalFile.JournalFileOf(dir)})
    ensures ok ==> offset == |FlatOf(old(store.flat), JournalFile.JournalFileOf(dir))|
  {
    ok := tx.Freeze();
    if !ok {
      return false, 0;
    }
    var raw := RawOf(tx.View());
    var ds := VisitDents(raw.dentries);
    var fs := VisitFiles(raw.files);
    ghost var st, f, c := store.flat, JournalFile.JournalFileOf(dir), JournalFile.Commit(raw, ds, fs);
    offset := JournalFile.Append(store, dir, JournalFile.Commit(raw, ds, fs));
    FlatOfPut(st, f, FlatOf(st, f) + JournalFile.Frame(c));
    OnlyPut(st, f, FlatOf(st, f) + JournalFile.Frame(c));
    AppendedIsFound(st, store.flat, dir, tx.View());
  }

  // One cycle of the commit thread

  lemma JournalsApart(a: Uuid, b: Uuid)
    ensures JournalFile.JournalFileOf(a) == JournalFile.JournalFileOf(b) <==> a == b
  {
    if UuidText(a) == UuidText(b) {
      UuidTextInjective(a, b);
    }
  }

  /** The journals of the directories in `views` but not in `rest` have grown by one record each, the others not. */
  ghost predicate Journalled(st: FlatStore, st': FlatStore, views: map<Uuid, Tx>, rest: set<Uuid>) {
    forall u {:trigger Unfold(u)} :: Unfold(u) && u == OfDisk ==>
    && (forall d :: d in views && d !in rest ==> Appended(st, st', d, views[d]))
    && (forall d :: d in rest ==> FlatOf(st', JournalFile.JournalFileOf(d)) == FlatOf(st, JournalFile.JournalFileOf(d)))
  }

  lemma AppendedStays(st: FlatStore, st1: FlatStore, st2: FlatStore, d: Uuid, e: Uuid, tx: Tx)
    requires Appended(st, st1, d, tx) && Only(st1, st2, {JournalFile.JournalFileOf(e)}) && d != e
    ensures Appended(st, st2, d, tx)
  {
    assert Unfold(OfDisk);
    JournalsApart(d, e);
    assert FlatOf(st2, JournalFile.JournalFileOf(d)) == FlatOf(st1, JournalFile.JournalFileOf(d));
  }

  lemma GrownJournals(st: FlatStore, st1: FlatStore, st2: FlatStore, views: map<Uuid, Tx>, rest: set<Uuid>, e: Uuid)
    requires Journalled(st, st1, views, rest) && e in rest && e in views
    requires Only(st1, st2, {JournalFile.JournalFileOf(e)}) && Appended(st1, st2, e, views[e])
    ensures forall d :: d in views && d !in rest - {e} ==> Appended(st, st2, d, views[d])
  {
    assert Unfold(OfDisk);
    forall d | d in views && d !in rest - {e}
      ensures Appended(st, st2, d, views[d])
    {
      if d == e {
        SameJournal(st, st1, st2, e, views[e]);
      } else {
        AppendedStays(st, st1, st2, d, e, views[d]);
      }
    }
  }

  /** A journal that was untouched until its record was appended. */
  lemma SameJournal(st: FlatStore, st1: FlatStore, st2: FlatStore, e: Uuid, tx: Tx)
    requires FlatOf(st1, JournalFile.JournalFileOf(e)) == FlatOf(st, JournalFile.JournalFileOf(e))
    requires Appended(st1, st2, e, tx)
    ensures Appended(st, st2, e, tx)
  {
  }

  lemma WaitingJournals(st: FlatStore, st1: FlatStore, st2: FlatStore, views: map<Uuid, Tx>, rest: set<Uuid>, e: Uuid)
    requires Journalled(st, st1, views, rest) && Only(st1, st2, {JournalFile.JournalFileOf(e)})
    ensures forall d :: d in rest - {e} ==>
              FlatOf(st2, JournalFile.JournalFileOf(d)) == FlatOf(st, JournalFile.JournalFileOf(d))
  {
    assert Unfold(OfDisk);
    forall d | d in rest - {e}
      ensures FlatOf(st2, JournalFile.JournalFileOf(d)) == FlatOf(st, JournalFile.JournalFileOf(d))
    {
      JournalsApart(d, e);
    }
  }

  lemma JournalledMore(st: FlatStore, st1: FlatStore, st2: FlatStore, views: map<Uuid, Tx>, rest: set<Uuid>, e: Uuid)
    requires Journalled(st, st1, views, rest) && e in rest && e in views
    requires Only(st1, st2, {JournalFile.JournalFileOf(e)}) && Appended(st1, st2, e, views[e])
    ensures Journalled(st, st2, views, rest - {e})
  {
    GrownJournals(st, st1, st2, views, rest, e);
    WaitingJournals(st, st1, st2, views, rest, e);
  }

  /** The transactions stand as in `views`, and all but those of `rest` are frozen. */
  ghost predicate FrozenBut(batch: map<Uuid, Transaction>, views: map<Uuid, Tx>, rest: set<Uuid>)
    reads batch.Values
  {
    && views.Keys == batch.Keys && rest <= batch.Keys
    && forall d :: d in batch ==> batch[d].View() == views[d] && (batch[d].committed <==> d !in rest)
  }

  ghost predicate AllKeyed(views: map<Uuid, Tx>) {
    forall d :: d in views ==> Keyed(views[d], d)
  }

  ghost predicate Distinct(batch: map<Uuid, Transaction>) {
    forall d, e :: d in batch && e in batch && batch[d] == batch[e] ==> d == e
  }

  /** One transaction is frozen as it stands, and its record appended. */
  method CommitView(store: Store, dir: Uuid, tx: Transaction, ghost view: Tx)
    requires store.Valid() && Keyed(view, dir) && tx.View() == view && !tx.committed
    modifies store, tx
    ensures store.Valid() && tx.View() == view && tx.committed
    ensures Appended(old(store.flat), store.flat, dir, view)
    ensures Only(old(store.flat), store.flat, {JournalFile.JournalFileOf(dir)})
  {
    var _, _ := Commit(store, dir, tx);
  }

  /** One transaction of the swapped-out map is committed. */
  method CommitRound(store: Store, batch: map<Uuid, Transaction>, d: Uuid, ghost st: FlatStore,
                     ghost views: map<Uuid, Tx>, ghost rest: set<Uuid>)
    requires store.Valid() && Distinct(batch) && AllKeyed(views) && d in rest && FrozenBut(batch, views, rest)
    requires Journalled(st, store.flat, views, rest)
    modifies store, batch[d]
    ensures store.Valid() && FrozenBut(batch, views, rest - {d}) && Journalled(st, store.flat, views, rest - {d})
  {
    ghost var st1 := store.flat;
    CommitView(store, d, batch[d], views[d]);
    JournalledMore(st, st1, store.flat, views, rest, d);
  }

  /**
   * One cycle of the commit thread over the swapped-out map, in whatever order the map gives: every transaction is
   * frozen as it stands, its record appended to the journal of its directory, and the transaction issued, once, to the
   * queue of its inode number.
   */
  method CommitCycle(store: Store, batch: map<Uuid, Transaction>, queues: array<seq<Item<Transaction>>>,
                     ghost views: map<Uuid, Tx>)
    requires store.Valid() && queues.Length == NUM_CP_THREAD && Distinct(batch)
    requires FrozenBut(batch, views, batch.Keys) && AllKeyed(views)
    modifies store, queues, batch.Values
    ensures store.Valid() && FrozenBut(batch, views, {})
    ensures Grown(old(queues[..]), queues[..], batch, {})
    ensures Journalled(old(store.flat), store.flat, views, {})
    ensures forall d :: d in views ==> RecordFound(old(store.flat), store.flat, d, views[d])
  {
    ghost var before, st := queues[..], store.flat;
    var rest := batch.Keys;
    while rest != {}
      invariant store.Valid() && FrozenBut(batch, views, rest)
      invariant Grown(before, queues[..], batch, rest) && Journalled(st, store.flat, views, rest)
    {
      var d :| d in rest;
      CommitRound(store, batch, d, st, views, rest);
      GrownMore(before, queues[..], batch, rest, d);
      queues[Route(d)] := queues[Route(d)] + [Item(d, batch[d])];
      rest := rest - {d};
    }
    JournalsFound(st, store.flat, views);
  }

  lemma JournalsFound(st: FlatStore, st': FlatStore, views: map<Uuid, Tx>)
    requires Journalled(st, st', views, {})
    ensures forall d :: d in views ==> RecordFound(st, st', d, views[d])
  {
    assert Unfold(OfDisk);
    forall d | d in views
      ensures RecordFound(st, st', d, views[d])
    {
      AppendedIsFound(st, st', d, views[d]);
    }
  }
}
