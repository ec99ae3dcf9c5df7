/** The JOURNAL object: records appended by `transaction::commit`, and the walk of `journal::check` over them. */
module JournalFile {
  import opened Bytes
  import opened Encoding
  import opened ObjectNames
  import opened Striping
  import opened RadosIo
  import TxCodec

  /** A committed transaction and the orders in which its maps were visited. */
  datatype Commit = Commit(tx: TxCodec.RawTx, ds: seq<TxCodec.Dent>, fs: seq<TxCodec.File>)

  function Frame(c: Commit): seq<byte> {
    TxCodec.RecordBytes(c.tx.self, c.ds, c.fs)
  }

  /** The records in commit order, end to end. */
  function Frames(commits: seq<Commit>): seq<byte> {
    if commits == [] then [] else Frame(commits[0]) + Frames(commits[1..])
  }

  /** What a record can restore. */
  function Kept(c: Commit): TxCodec.RawTx { c.tx.(files := TxCodec.Kept(c.tx.files)) }

  function AllKept(commits: seq<Commit>): seq<TxCodec.RawTx> {
    if commits == [] then [] else [Kept(commits[0])] + AllKept(commits[1..])
  }

  /** The transactions found by walking from record to record; `None` when the walk throws or leaves the file. */
  function Replay(s: seq<byte>, stride: nat, found: seq<TxCodec.RawTx>): Option<seq<TxCodec.RawTx>>
    decreases |s|
  {
    if s == [] then Some(found)
    else if |s| < 4 then None
    else
      var n := Int32(s);
      if n < 5 || n > |s| then None
      else match TxCodec.DecodeRecord(s[..n], stride)
        case Restored(tx) => Replay(s[n..], stride, found + [tx])
        case _ => None
  }

  /** What may be committed: maps visited fully, and a decoder that skips the self inode by its recorded size. */
  ghost predicate Sound(c: Commit, stride: nat) {
    forall u {:trigger Unfold(u)} :: Unfold(u) && u == OfCommits ==>
      && TxCodec.Visits(c.tx, c.ds, c.fs) && |Frame(c)| < 0x8000_0000
      && (c.tx.self.Some? ==> stride == 104)
  }

  lemma ReplayOne(c: Commit, rest: seq<byte>, stride: nat, found: seq<TxCodec.RawTx>)
    requires Sound(c, stride)
    ensures Replay(Frame(c) + rest, stride, found) == Replay(rest, stride, found + [Kept(c)])
  {
    assert Unfold(OfCommits);
    var raw := Frame(c);
    TxCodec.RecordParts(c.tx.self, c.ds, c.fs);
    TxCodec.SizeIsRecorded(c.tx.self, c.ds, c.fs);
    TxCodec.RoundTrip(c.tx, c.ds, c.fs, stride);
    Int32Front(raw, rest);
    assert (raw + rest)[..|raw|] == raw && (raw + rest)[|raw|..] == rest;
  }

  lemma Int32Front(a: seq<byte>, b: seq<byte>)
    requires |a| >= 4
    ensures Int32(a + b) == Int32(a)
  {
    assert (a + b)[..4] == a[..4];
  }

  /** Framing: the walk stops at exactly the record boundaries and finds the transactions in commit order. */
  lemma {:induction false} ReplayFrames(commits: seq<Commit>, stride: nat, found: seq<TxCodec.RawTx>)
    requires forall i :: 0 <= i < |commits| ==> Sound(commits[i], stride)
    ensures Replay(Frames(commits), stride, found) == Some(found + AllKept(commits))
    decreases |commits|
  {
    if commits != [] {
      ReplayOne(commits[0], Frames(commits[1..]), stride, found);
      ReplayFrames(commits[1..], stride, found + [Kept(commits[0])]);
      Regroup(found, Kept(commits[0]), AllKept(commits[1..]));
    } else {
      assert found + [] == found;
    }
  }

  lemma Regroup(a: seq<TxCodec.RawTx>, x: TxCodec.RawTx, b: seq<TxCodec.RawTx>)
    ensures a + [x] + b == a + ([x] + b)
  {
  }

  lemma {:induction false} FramesAppend(commits: seq<Commit>, c: Commit)
    ensures Frames(commits + [c]) == Frames(commits) + Frame(c)
  {
    if commits == [] {
      assert Frames([c][1..]) == [];
    } else {
      assert (commits + [c])[0] == commits[0] && (commits + [c])[1..] == commits[1..] + [c];
      FramesAppend(commits[1..], c);
    }
  }

  function JournalFileOf(ino: Uuid): FileId { FileId(Journal, UuidText(ino)) }

  /** The writing half of `commit`: the record goes to the end of the journal, wherever that is. */
  method Append(store: Store, ino: Uuid, c: Commit) returns (offset: nat)
    requires store.Valid()
    modifies store
    ensures store.Valid()
    ensures store.flat ==
            Put(old(store.flat), JournalFileOf(ino), FlatOf(old(store.flat), JournalFileOf(ino)) + Frame(c))
    ensures offset == |FlatOf(old(store.flat), JournalFileOf(ino))|
  {
    var raw := TxCodec.Serialize(c.tx.self, c.ds, c.fs);
    var size := store.Stat(JournalFileOf(ino));
    offset := if size.Some? then size.value else 0;
    OverlayAtEnd(FlatOf(store.flat, JournalFileOf(ino)), raw);
    var _ := store.Write(JournalFileOf(ino), raw, offset);
  }

  /** The walk of `check` over the bytes read. */
  method Walk(value: seq<byte>, stride: nat) returns (r: Option<seq<TxCodec.RawTx>>)
    ensures r == Replay(value, stride, [])
  {
    var rest, found := value, [];
    while rest != []
      invariant Replay(value, stride, []) == Replay(rest, stride, found)
      decreases |rest|
    {
      if |rest| < 4 {
        return None;
      }
      var n := Int32(rest);
      if n < 5 || n > |rest| {
        return None;
      }
      var tx := TxCodec.Deserialize(rest[..n], stride);
      if !tx.Restored? {
        return None;
      }
      found := found + [tx.tx];
      rest := rest[n..];
    }
    r := Some(found);
  }

  /** `check` on a journal that fits one object; `None` for a missing journal is `no_such_object`. */
  method Check(store: Store, ino: Uuid, stride: nat) returns (r: Option<seq<TxCodec.RawTx>>)
    requires store.Valid()
    ensures JournalFileOf(ino) !in store.flat ==> r == None
    ensures JournalFileOf(ino) in store.flat && |FlatOf(store.flat, JournalFileOf(ino))| <= OBJ_SIZE ==>
              r == Replay(FlatOf(store.flat, JournalFileOf(ino)), stride, [])
  {
    var value := new byte[OBJ_SIZE](_ => 0);
    var got := store.Read(JournalFileOf(ino), value, OBJ_SIZE, 0);
    store.Present(JournalFileOf(ino), 0);
    if got.NoSuchObject? {
      return None;
    }
    r := Walk(value[..got.count], stride);
    ghost var f := FlatOf(store.flat, JournalFileOf(ino));
    if |f| <= OBJ_SIZE {
      WholeRead(f, value[..], got.count);
    }
  }

  lemma WholeRead(f: seq<byte>, buf: seq<byte>, count: nat)
    requires |f| <= OBJ_SIZE == |buf| && count == |f|
    requires forall i :: 0 <= i < |Slice(f, 0, OBJ_SIZE)| ==> buf[i] == Slice(f, 0, OBJ_SIZE)[i]
    ensures buf[..count] == f
  {
  }

  /** Any number of commits to a directory without a journal, then the walk: exactly those transactions, in order. */
  method CommitThenCheck(store: Store, ino: Uuid, commits: seq<Commit>, stride: nat)
    returns (r: Option<seq<TxCodec.RawTx>>)
    requires store.Valid() && JournalFileOf(ino) !in store.flat && commits != []
    requires |Frames(commits)| <= OBJ_SIZE && forall i :: 0 <= i < |commits| ==> Sound(commits[i], stride)
    modifies store
    ensures store.Valid() && r == Some(AllKept(commits))
  {
    CommitAll(store, ino, commits);
    r := Check(store, ino, stride);
    ReplayFrames(commits, stride, []);
    assert [] + AllKept(commits) == AllKept(commits);
  }

  /** One more record. */
  method CommitRound(store: Store, ino: Uuid, c: Commit, ghost before: seq<Commit>)
    requires store.Valid() && FlatOf(store.flat, JournalFileOf(ino)) == Frames(before)
    modifies store
    ensures store.Valid() && FlatOf(store.flat, JournalFileOf(ino)) == Frames(before + [c])
    ensures JournalFileOf(ino) in store.flat
  {
    ghost var f, st := JournalFileOf(ino), store.flat;
    var _ := Append(store, ino, c);
    FramesAppend(before, c);
    TxCodec.RecordParts(c.tx.self, c.ds, c.fs);
    FlatOfPut(st, f, FlatOf(st, f) + Frame(c));
  }

  /** After any number of commits the journal is the concatenation of its records. */
  method CommitAll(store: Store, ino: Uuid, commits: seq<Commit>)
    requires store.Valid() && JournalFileOf(ino) !in store.flat
    modifies store
    ensures store.Valid() && FlatOf(store.flat, JournalFileOf(ino)) == Frames(commits)
    ensures commits != [] ==> JournalFileOf(ino) in store.flat
    decreases |commits|
  {
    if commits != [] {
      var n := |commits| - 1;
      CommitAll(store, ino, commits[..n]);
      assert commits[..n] + [commits[n]] == commits;
      CommitRound(store, ino, commits[n], commits[..n]);
    }
  }
}
