/** Whole runs of the object store, byte by byte: what a reader gets is the last word on each byte. */
module StoreBytes {
  import opened Bytes
  import opened ObjectNames
  import opened Striping
  import opened RadosIo
  import opened StoreRuns

  /** The size of a file, if there is one. */
  function Extent(st: FlatStore, f: FileId): Option<nat> {
    if f in st then Some(|st[f]|) else None
  }

  /** A file comes to be with its first byte, and stays, even cut to nothing. */
  function Sized(was: Option<nat>, size: nat): Option<nat> {
    if was.None? && size == 0 then None else Some(size)
  }

  /** What a call makes of the size of `f`. */
  function NextExtent(f: FileId): (Option<nat>, Call) -> Option<nat> {
    (was: Option<nat>, call: Call) =>
      match call
      case Write(g, data, offset) =>
        if g == f then Sized(was, Max(if was.Some? then was.value else 0, offset + |data|)) else was
      case Truncate(g, size) => if g == f then Sized(was, size) else was
      case Remove(g) => if g == f then None else was
      case _ => was
  }

  /** And of its byte `k`, which is zero where nothing was written or what was has been cut off or removed. */
  function NextByte(f: FileId, k: nat): (byte, Call) -> byte {
    (was: byte, call: Call) =>
      match call
      case Write(g, data, offset) => if g == f && offset <= k < offset + |data| then data[k - offset] else was
      case Truncate(g, size) => if g == f && size <= k then 0 else was
      case Remove(g) => if g == f then 0 else was
      case _ => was
  }

  /** The last word on the size of `f`. */
  function LastExtent(calls: seq<Call>, n: nat, f: FileId): Option<nat>
    requires n <= |calls|
  {
    After(NextExtent(f), None, calls, n)
  }

  /** The last word on byte `k` of `f`. */
  function LastByte(calls: seq<Call>, n: nat, f: FileId, k: nat): byte
    requires n <= |calls|
  {
    After(NextByte(f, k), 0, calls, n)
  }

  lemma PutOne(st: FlatStore, g: FileId, bytes: seq<byte>, f: FileId)
    ensures FlatOf(Put(st, g, bytes), f) == if g == f then bytes else FlatOf(st, f)
  {
  }

  lemma StepByte(st: FlatStore, call: Call, f: FileId, k: nat)
    ensures At(FlatOf(FlatStep(st, call), f), k) == NextByte(f, k)(At(FlatOf(st, f), k), call)
  {
    match call
    case Write(g, data, offset) =>
      OverlayAt(FlatOf(st, g), offset, data, k);
      PutOne(st, g, Overlay(FlatOf(st, g), offset, data), f);
    case Truncate(g, size) =>
      CutAt(FlatOf(st, g), size, k);
      PutOne(st, g, Cut(FlatOf(st, g), size), f);
    case Remove(_) =>
    case _ =>
  }

  lemma PutExtent(st: FlatStore, g: FileId, bytes: seq<byte>, f: FileId)
    ensures Extent(Put(st, g, bytes), f) == if g == f then Sized(Extent(st, f), |bytes|) else Extent(st, f)
  {
  }

  lemma StepExtent(st: FlatStore, call: Call, f: FileId)
    ensures Extent(FlatStep(st, call), f) == NextExtent(f)(Extent(st, f), call)
  {
    match call
    case Write(g, data, offset) =>
      var bytes, was := Overlay(FlatOf(st, g), offset, data), Extent(st, g);
      PutExtent(st, g, bytes, f);
      assert |bytes| == Max(if was.Some? then was.value else 0, offset + |data|);
    case Truncate(g, size) => PutExtent(st, g, Cut(FlatOf(st, g), size), f);
    case Remove(_) =>
    case _ =>
  }

  /** If each step shows through a view as a step of its own, so does a run. */
  lemma {:induction false} Seen<T, V>(step: (T, Call) -> T, view: T -> V, next: (V, Call) -> V, start: T,
                                      calls: seq<Call>, n: nat)
    requires n <= |calls| && forall t, call :: view(step(t, call)) == next(view(t), call)
    ensures view(After(step, start, calls, n)) == After(next, view(start), calls, n)
    decreases n
  {
    if n > 0 {
      Seen(step, view, next, start, calls, n - 1);
    }
  }

  /**
   * After any run, wherever the objects were cut, each byte of a file is the last word on that byte, and its size, or
   * that there is no such file, the last word on it.
   */
  lemma LastWords(calls: seq<Call>, n: nat, f: FileId, k: nat)
    requires n <= |calls|
    ensures At(FlatOf(FlatAfter(calls, n), f), k) == LastByte(calls, n, f, k)
    ensures Extent(FlatAfter(calls, n), f) == LastExtent(calls, n, f)
  {
    var byteOf, extentOf := (st: FlatStore) => At(FlatOf(st, f), k), (st: FlatStore) => Extent(st, f);
    forall st: FlatStore, call: Call
      ensures byteOf(FlatStep(st, call)) == NextByte(f, k)(byteOf(st), call)
      ensures extentOf(FlatStep(st, call)) == NextExtent(f)(extentOf(st), call)
    {
      StepByte(st, call, f, k);
      StepExtent(st, call, f);
    }
    Seen(FlatStep, byteOf, NextByte(f, k), map[], calls, n);
    Seen(FlatStep, extentOf, NextExtent(f), map[], calls, n);
  }

  /** What `stat`, `exist` and `read` answer on a file with that size and those bytes. */
  ghost predicate Answers(st: FlatStore, f: FileId, len: nat, offset: nat, extent: Option<nat>, last: nat -> byte) {
    && FlatReply(st, Stat(f)) == Size(extent) && FlatReply(st, Exist(f)) == Exists(extent.Some?)
    && var reply := FlatReply(st, Read(f, len, offset));
       && reply.Got? && |reply.bytes| == Min(len, Max(0, (if extent.Some? then extent.value else 0) - offset))
       && forall k :: 0 <= k < |reply.bytes| ==> reply.bytes[k] == last(offset + k)
  }

  lemma AnswersAre(st: FlatStore, f: FileId, len: nat, offset: nat, extent: Option<nat>, last: nat -> byte)
    requires Extent(st, f) == extent && forall k: nat :: At(FlatOf(st, f), k) == last(k)
    ensures Answers(st, f, len, offset, extent, last)
  {
    var bytes := Slice(FlatOf(st, f), offset, len);
    forall k | 0 <= k < |bytes|
      ensures bytes[k] == last(offset + k)
    {
      SliceAt(FlatOf(st, f), offset, len, k);
    }
  }

  /** Every `stat`, `exist` and `read` of a run answers the last words. */
  lemma RepliesAreLastWords(calls: seq<Call>, n: nat, f: FileId, len: nat, offset: nat)
    requires n <= |calls|
    ensures Answers(FlatAfter(calls, n), f, len, offset, LastExtent(calls, n, f), k => LastByte(calls, n, f, k))
  {
    LastWords(calls, n, f, 0);
    forall k: nat
      ensures At(FlatOf(FlatAfter(calls, n), f), k) == LastByte(calls, n, f, k)
    {
      LastWords(calls, n, f, k);
    }
    AnswersAre(FlatAfter(calls, n), f, len, offset, LastExtent(calls, n, f), k => LastByte(calls, n, f, k));
  }
}
