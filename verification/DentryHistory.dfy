/** The DENTRY objects of all directories over any history of syncs, removals and calls on other files. */
module DentryHistory {
  import opened Bytes
  import opened Encoding
  import opened Transactions
  import opened ObjectNames
  import opened Striping
  import opened RadosIo
  import opened DentryCodec
  import StoreRuns

  datatype Event =
    /** `dentry::sync` of directory `ino`, its child list visited in this order. */
    | SyncList(ino: Uuid, order: seq<Child>)
    /** The DENTRY object of a removed directory is removed. */
    | Drop(ino: Uuid)
    /** Any call on a file of another category. */
    | Other(call: StoreRuns.Call)

  ghost predicate Proper(e: Event) {
    match e
    case SyncList(_, order) => Fits(order, InsertAll(map[], order))
    case Drop(_) => true
    case Other(call) => call.file.category != Dentry
  }

  type Listings = map<Uuid, map<Name, Uuid>>

  function Heard(lists: Listings, e: Event): Listings {
    match e
    case SyncList(ino, order) => lists[ino := InsertAll(map[], order)]
    case Drop(ino) => lists - {ino}
    case Other(_) => lists
  }

  /** The last child list of every directory that has one. */
  function HeardAll(lists: Listings, events: seq<Event>): Listings
    decreases |events|
  {
    if events == [] then lists else HeardAll(Heard(lists, events[0]), events[1..])
  }

  ghost predicate StoredAt(st: FlatStore, lists: Listings, ino: Uuid) {
    if ino in lists then Stored(st, ino, lists[ino]) else DentryFile(ino) !in st
  }

  /** Every directory's object holds its list; those without a list have no object. */
  ghost predicate AllStored(st: FlatStore, lists: Listings) {
    forall ino :: StoredAt(st, lists, ino)
  }

  /** A change to one file leaves the directories of all others as they were. */
  lemma StoredElsewhere(st: FlatStore, st': FlatStore, lists: Listings, lists': Listings, f: FileId, ino: Uuid)
    requires StoredAt(st, lists, ino) && f != DentryFile(ino) && st' - {f} == st - {f}
    requires (ino in lists' <==> ino in lists) && (ino in lists ==> lists'[ino] == lists[ino])
    ensures StoredAt(st', lists', ino)
  {
    var g := DentryFile(ino);
    assert g in st' <==> g in st by {
      assert g in st' - {f} <==> g in st';
      assert g in st - {f} <==> g in st;
    }
    if g in st {
      assert (st' - {f})[g] == (st - {f})[g];
    }
    assert FlatOf(st', g) == FlatOf(st, g);
    SameStored(st, st', ino, if ino in lists then lists[ino] else map[]);
  }

  lemma SameStored(st: FlatStore, st': FlatStore, ino: Uuid, m: map<Name, Uuid>)
    requires FlatOf(st', DentryFile(ino)) == FlatOf(st, DentryFile(ino))
    ensures Stored(st', ino, m) <==> Stored(st, ino, m)
  {
  }

  /** Directories have different objects. */
  lemma ApartFrom(a: Uuid, b: Uuid)
    requires a != b
    ensures DentryFile(a) != DentryFile(b)
  {
    if UuidText(a) == UuidText(b) {
      UuidTextInjective(a, b);
    }
  }

  lemma HereOnly(st: FlatStore, st': FlatStore, lists: Listings, lists': Listings, here: Uuid)
    requires AllStored(st, lists) && StoredAt(st', lists', here)
    requires st' - {DentryFile(here)} == st - {DentryFile(here)} && lists' - {here} == lists - {here}
    ensures AllStored(st', lists')
  {
    forall ino
      ensures StoredAt(st', lists', ino)
    {
      if ino != here {
        ApartFrom(ino, here);
        assert StoredAt(st, lists, ino);
        assert ino in lists' - {here} <==> ino in lists';
        assert ino in lists - {here} <==> ino in lists;
        if ino in lists {
          assert (lists' - {here})[ino] == (lists - {here})[ino];
        }
        StoredElsewhere(st, st', lists, lists', DentryFile(here), ino);
      }
    }
  }

  lemma FlatStepFrame(st: FlatStore, call: StoreRuns.Call)
    ensures StoreRuns.FlatStep(st, call) - {call.file} == st - {call.file}
  {
    match call
    case Write(f, data, offset) => PutFrame(st, f, Overlay(FlatOf(st, f), offset, data));
    case Truncate(f, offset) => PutFrame(st, f, Cut(FlatOf(st, f), offset));
    case Remove(f) =>
    case Read(_, _, _) =>
    case Stat(_) =>
    case Exist(_) =>
  }

  lemma PutFrame(st: FlatStore, f: FileId, bytes: seq<byte>)
    ensures Put(st, f, bytes) - {f} == st - {f}
  {
  }

  /** One event. */
  method Play(store: Store, e: Event, ghost lists: Listings)
    requires store.Valid() && Proper(e) && AllStored(store.flat, lists)
    modifies store
    ensures store.Valid() && AllStored(store.flat, Heard(lists, e))
  {
    ghost var st := store.flat;
    match e
    case SyncList(ino, order) =>
      SyncDentry(store, ino, order, InsertAll(map[], order));
      HereOnly(st, store.flat, lists, Heard(lists, e), ino);
    case Drop(ino) =>
      store.Remove(DentryFile(ino));
      HereOnly(st, store.flat, lists, Heard(lists, e), ino);
    case Other(call) =>
      var _ := StoreRuns.Perform(store, call);
      FlatStepFrame(st, call);
      forall ino
        ensures StoredAt(store.flat, lists, ino)
      {
        assert StoredAt(st, lists, ino);
        StoredElsewhere(st, store.flat, lists, lists, call.file, ino);
      }
  }

  method PlayAll(store: Store, events: seq<Event>, ghost lists: Listings)
    requires store.Valid() && AllStored(store.flat, lists) && forall i :: 0 <= i < |events| ==> Proper(events[i])
    modifies store
    ensures store.Valid() && AllStored(store.flat, HeardAll(lists, events))
    decreases |events|
  {
    if events != [] {
      Play(store, events[0], lists);
      PlayAll(store, events[1..], Heard(lists, events[0]));
    }
  }

  /**
   * Read-back: from the empty store, after any history of syncs of any directories, growing or shrinking, of removals
   * and of calls on other files, loading a directory yields exactly the last list synced for it, and throws exactly
   * when there is none.
   */
  method PlayThenLoad(events: seq<Event>, ino: Uuid) returns (r: Option<map<Name, Uuid>>)
    requires forall i :: 0 <= i < |events| ==> Proper(events[i])
    ensures var lists := HeardAll(map[], events); r == if ino in lists then Some(lists[ino]) else None
  {
    var store := new Store();
    PlayAll(store, events, map[]);
    ghost var lists := HeardAll(map[], events);
    assert StoredAt(store.flat, lists, ino);
    r := LoadDentry(store, ino, if ino in lists then lists[ino] else map[]);
  }

  /** The last word on a directory is its last sync, if no removal came after it. */
  lemma {:induction false} LastWord(lists: Listings, events: seq<Event>, ino: Uuid, order: seq<Child>,
                                    after: seq<Event>)
    requires forall i :: 0 <= i < |after| ==>
             !(after[i].SyncList? && after[i].ino == ino) && !(after[i].Drop? && after[i].ino == ino)
    ensures var all := HeardAll(lists, events + [SyncList(ino, order)] + after);
            ino in all && all[ino] == InsertAll(map[], order)
    decreases |events| + |after|
  {
    if events != [] {
      assert (events + [SyncList(ino, order)] + after)[1..] == events[1..] + [SyncList(ino, order)] + after;
      LastWord(Heard(lists, events[0]), events[1..], ino, order, after);
    } else {
      assert ([SyncList(ino, order)] + after)[1..] == after;
      assert events + [SyncList(ino, order)] + after == [SyncList(ino, order)] + after;
      Untouched(Heard(lists, SyncList(ino, order)), after, ino);
    }
  }

  lemma {:induction false} Untouched(lists: Listings, after: seq<Event>, ino: Uuid)
    requires ino in lists
    requires forall i :: 0 <= i < |after| ==>
             !(after[i].SyncList? && after[i].ino == ino) && !(after[i].Drop? && after[i].ino == ino)
    ensures ino in HeardAll(lists, after) && HeardAll(lists, after)[ino] == lists[ino]
    decreases |after|
  {
    if after != [] {
      Untouched(Heard(lists, after[0]), after[1..], ino);
    }
  }
}
