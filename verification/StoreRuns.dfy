/** Whole runs of the object store, compared with the flat model call by call. */
module StoreRuns {
  import opened Bytes
  import opened ObjectNames
  import opened Striping
  import opened RadosIo

  datatype Call =
    | Write(file: FileId, data: seq<byte>, offset: nat)
    | Truncate(file: FileId, offset: nat)
    | Remove(file: FileId)
    | Read(file: FileId, len: nat, offset: nat)
    | Stat(file: FileId)
    | Exist(file: FileId)

  /** What the caller of `rados_io` observes; a short read shows the bytes it counted, returned or thrown. */
  datatype Reply = Wrote(count: nat) | Done | Got(bytes: seq<byte>) | Size(size: Option<nat>) | Exists(exists_: bool)

  function FlatStep(st: FlatStore, call: Call): FlatStore {
    match call
    case Write(f, data, offset) => Put(st, f, Overlay(FlatOf(st, f), offset, data))
    case Truncate(f, offset) => Put(st, f, Cut(FlatOf(st, f), offset))
    case Remove(f) => st - {f}
    case _ => st
  }

  function FlatReply(st: FlatStore, call: Call): Reply {
    match call
    case Write(_, data, _) => Wrote(|data|)
    case Read(f, len, offset) => Got(Slice(FlatOf(st, f), offset, len))
    case Stat(f) => Size(if f in st then Some(|st[f]|) else None)
    case Exist(f) => Exists(f in st)
    case _ => Done
  }

  /** What the first `n` calls of a run, one after the other, make of `start`. */
  function After<T>(step: (T, Call) -> T, start: T, calls: seq<Call>, n: nat): T
    requires n <= |calls|
  {
    if n == 0 then start else step(After(step, start, calls, n - 1), calls[n - 1])
  }

  /** The flat store after the first `n` calls of a run that starts empty. */
  function FlatAfter(calls: seq<Call>, n: nat): FlatStore
    requires n <= |calls|
  {
    After(FlatStep, map[], calls, n)
  }

  /** The replies of those calls. */
  function FlatReplies(calls: seq<Call>, n: nat): seq<Reply>
    requires n <= |calls|
  {
    if n == 0 then [] else FlatReplies(calls, n - 1) + [FlatReply(FlatAfter(calls, n - 1), calls[n - 1])]
  }

  /** One call on the striped store does what the flat model says, and keeps density. */
  method Perform(store: Store, call: Call) returns (reply: Reply)
    requires store.Valid()
    modifies store
    ensures store.Valid()
    ensures store.flat == FlatStep(old(store.flat), call)
    ensures reply == FlatReply(old(store.flat), call)
  {
    match call
    case Write(f, data, offset) =>
      var n := store.Write(f, data, offset);
      reply := Wrote(n);
    case Truncate(f, offset) =>
      store.Truncate(f, offset);
      reply := Done;
    case Remove(f) =>
      store.Remove(f);
      reply := Done;
    case Read(f, len, offset) =>
      var buffer := new byte[len](_ => 0);
      var r := store.Read(f, buffer, len, offset);
      reply := Got(buffer[..r.count]);
    case Stat(f) =>
      var size := store.Stat(f);
      reply := Size(size);
    case Exist(f) =>
      var e := store.Exist(f);
      reply := Exists(e);
  }

  /** Every run from the empty store is indistinguishable from the run of the flat model. */
  method Run(calls: seq<Call>) returns (replies: seq<Reply>, store: Store)
    ensures fresh(store) && store.Valid()
    ensures store.flat == FlatAfter(calls, |calls|)
    ensures replies == FlatReplies(calls, |calls|)
  {
    store := new Store();
    replies := [];
    for n := 0 to |calls|
      invariant store.Valid() && store.flat == FlatAfter(calls, n)
      invariant replies == FlatReplies(calls, n)
    {
      var reply := Perform(store, calls[n]);
      replies := replies + [reply];
    }
  }

  /**
   * After any run, a write is read back exactly, the rest of that file keeps its bytes, and other files keep theirs.
   */
  lemma ReadAfterWrite(calls: seq<Call>, f: FileId, data: seq<byte>, offset: nat, g: FileId, at: nat, len: nat)
    ensures var before := FlatAfter(calls, |calls|);
            var after := FlatStep(before, Write(f, data, offset));
            && FlatReply(after, Read(f, |data|, offset)) == Got(data)
            && (f != g || at + len <= Min(offset, |FlatOf(before, f)|) || offset + |data| <= at ==>
                  FlatReply(after, Read(g, len, at)) == FlatReply(before, Read(g, len, at)))
  {
    var before := FlatAfter(calls, |calls|);
    FlatOfPut(before, f, Overlay(FlatOf(before, f), offset, data));
    OverlaySlices(FlatOf(before, f), offset, data, at, len);
  }

  lemma OverlaySlices(f: seq<byte>, offset: nat, data: seq<byte>, at: nat, len: nat)
    ensures Slice(Overlay(f, offset, data), offset, |data|) == data
    ensures at + len <= Min(offset, |f|) || offset + |data| <= at ==>
              Slice(Overlay(f, offset, data), at, len) == Slice(f, at, len)
  {
    if offset + |data| <= at {
      SliceAfter(f, offset, data, at, len);
    } else if at + len <= Min(offset, |f|) {
      SliceBefore(f, offset, data, at, len);
    }
    var over := Overlay(f, offset, data);
    assert over[offset..offset + |data|] == data;
  }

  lemma SliceBefore(f: seq<byte>, offset: nat, data: seq<byte>, at: nat, len: nat)
    requires at + len <= Min(offset, |f|)
    ensures Slice(Overlay(f, offset, data), at, len) == Slice(f, at, len)
  {
    var after, before := Slice(Overlay(f, offset, data), at, len), Slice(f, at, len);
    assert |after| == len && |before| == len;
    assert forall k :: 0 <= k < len ==> after[k] == f[at + k] && before[k] == f[at + k];
  }

  lemma SliceAfter(f: seq<byte>, offset: nat, data: seq<byte>, at: nat, len: nat)
    requires offset + |data| <= at
    ensures Slice(Overlay(f, offset, data), at, len) == Slice(f, at, len)
  {
    var after, before := Slice(Overlay(f, offset, data), at, len), Slice(f, at, len);
    assert |after| == |before|;
    assert forall k :: 0 <= k < |before| ==> after[k] == f[at + k] && before[k] == f[at + k];
  }
}
