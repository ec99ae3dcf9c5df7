/** `rados_io`: logical files striped over RADOS objects, proved to behave like one flat byte sequence per file. */
module RadosIo {
  import opened Bytes
  import opened ObjectNames
  import opened Striping

  type Objects = map<string, seq<byte>>

  /** The abstract store: the files that exist and their bytes. */
  type FlatStore = map<FileId, seq<byte>>

  function FlatOf(st: FlatStore, file: FileId): seq<byte> {
    if file in st then st[file] else []
  }

  /** `bytes` become the contents of `file`; a file that does not exist is not created empty. */
  function Put(st: FlatStore, file: FileId, bytes: seq<byte>): FlatStore {
    if file !in st && bytes == [] then st else st[file := bytes]
  }

  /** What `read` reports: a count, returned or carried by the `no_such_object` exception. */
  datatype ReadOutcome = Returned(count: nat) | NoSuchObject(count: nat)

  /** The objects of `file` are exactly `chunks`, numbered from 0 without a gap. */
  ghost predicate Holds(m: Objects, file: FileId, chunks: seq<seq<byte>>) {
    && (forall i: nat :: i < |chunks| ==> ObjectName(file, i) in m && m[ObjectName(file, i)] == chunks[i])
    && (forall i: nat :: |chunks| <= i ==> ObjectName(file, i) !in m)
  }

  /** While later objects are being removed: `keep` stays, [|keep|, k) is gone, [k, n) is still there. */
  ghost predicate Trimming(m: Objects, file: FileId, keep: seq<seq<byte>>, k: nat, n: nat) {
    && |keep| <= k
    && (forall i: nat :: i < |keep| ==> ObjectName(file, i) in m && m[ObjectName(file, i)] == keep[i])
    && (forall i: nat :: |keep| <= i ==> (ObjectName(file, i) in m <==> k <= i < n))
  }

  function ChunksOf(files: map<FileId, seq<seq<byte>>>, file: FileId): seq<seq<byte>> {
    if file in files then files[file] else []
  }

  /** Names the file whose facts a proof needs; the invariants below are instantiated only where it is mentioned. */
  ghost predicate About(file: FileId) { true }

  /** The objects `chunks` of `file` in `m` are dense, and `flat` has them concatenated. */
  ghost predicate FileHolds(m: Objects, files: map<FileId, seq<seq<byte>>>, flat: FlatStore, file: FileId) {
    && Holds(m, file, ChunksOf(files, file))
    && (file in flat <==> file in files)
    && (file in files ==> files[file] != [] && Dense(files[file]) && flat[file] == Concat(files[file]))
  }

  /** Every file other than `skip` holds. */
  ghost predicate OthersHold(m: Objects, files: map<FileId, seq<seq<byte>>>, flat: FlatStore, skip: FileId) {
    forall f: FileId {:trigger About(f)} :: About(f) && f != skip ==> FileHolds(m, files, flat, f)
  }

  ghost predicate AllHold(m: Objects, files: map<FileId, seq<seq<byte>>>, flat: FlatStore) {
    forall f: FileId {:trigger About(f)} :: About(f) ==> FileHolds(m, files, flat, f)
  }

  /** Writing or deleting one object of `file` touches no object of another file. */
  lemma OthersUntouched(m: Objects, m': Objects, files: map<FileId, seq<seq<byte>>>, flat: FlatStore, file: FileId,
                        num: nat)
    requires OthersHold(m, files, flat, file)
    requires m' - {ObjectName(file, num)} == m - {ObjectName(file, num)}
    ensures OthersHold(m', files, flat, file)
  {
    forall f: FileId | About(f) && f != file
      ensures FileHolds(m', files, flat, f)
    {
      assert FileHolds(m, files, flat, f);
      forall i: nat
        ensures ObjectName(f, i) in m <==> ObjectName(f, i) in m'
        ensures ObjectName(f, i) in m ==> m'[ObjectName(f, i)] == m[ObjectName(f, i)]
      {
        ObjectNameInjective(f, i, file, num);
        var n := ObjectName(f, i);
        assert n in m <==> n in m - {ObjectName(file, num)};
        assert n in m' <==> n in m' - {ObjectName(file, num)};
      }
    }
  }

  /** Changing what is recorded about `file` leaves the other files alone. */
  lemma Rebind(m: Objects, files: map<FileId, seq<seq<byte>>>, flat: FlatStore, file: FileId, chunks: seq<seq<byte>>)
    requires OthersHold(m, files, flat, file) && Holds(m, file, chunks) && Dense(chunks)
    ensures chunks != [] ==> AllHold(m, files[file := chunks], flat[file := Concat(chunks)])
    ensures chunks == [] ==> AllHold(m, files - {file}, flat - {file})
  {
    var files' := if chunks == [] then files - {file} else files[file := chunks];
    var flat' := if chunks == [] then flat - {file} else flat[file := Concat(chunks)];
    forall f: FileId | About(f)
      ensures FileHolds(m, files', flat', f)
    {
      if f != file {
        assert FileHolds(m, files, flat, f);
      }
    }
  }

  /** Object `num` of `file` becomes `chunk`. */
  lemma PutObject(m: Objects, files: map<FileId, seq<seq<byte>>>, flat: FlatStore, file: FileId, num: nat,
                  chunk: seq<byte>)
    requires AllHold(m, files, flat) && num <= |ChunksOf(files, file)|
    requires Dense(PutChunk(ChunksOf(files, file), num, chunk))
    ensures var chunks' := PutChunk(ChunksOf(files, file), num, chunk);
            AllHold(m[ObjectName(file, num) := chunk], files[file := chunks'], flat[file := Concat(chunks')])
  {
    var m' := m[ObjectName(file, num) := chunk];
    var chunks := ChunksOf(files, file);
    var chunks' := PutChunk(chunks, num, chunk);
    assert About(file);
    OthersUntouched(m, m', files, flat, file, num);
    forall i: nat
      ensures i == num ==> m'[ObjectName(file, i)] == chunk
      ensures i != num ==> (ObjectName(file, i) in m' <==> ObjectName(file, i) in m)
      ensures i != num && ObjectName(file, i) in m ==> m'[ObjectName(file, i)] == m[ObjectName(file, i)]
    {
      ObjectNameInjective(file, i, file, num);
    }
    assert Holds(m', file, chunks');
    Rebind(m', files, flat, file, chunks');
  }

  /** Removing the next object keeps `Trimming`. */
  lemma TrimOne(m: Objects, files: map<FileId, seq<seq<byte>>>, flat: FlatStore, file: FileId,
                keep: seq<seq<byte>>, k: nat, n: nat)
    requires Trimming(m, file, keep, k, n) && OthersHold(m, files, flat, file) && k < n
    ensures var m' := m - {ObjectName(file, k)};
            Trimming(m', file, keep, k + 1, n) && OthersHold(m', files, flat, file)
  {
    var m' := m - {ObjectName(file, k)};
    forall i: nat
      ensures i != k ==> (ObjectName(file, i) in m' <==> ObjectName(file, i) in m)
    {
      ObjectNameInjective(file, i, file, k);
    }
    OthersUntouched(m, m', files, flat, file, k);
  }

  /** The state after the object at the cut has been truncated and before later objects go. */
  lemma TruncObject(m: Objects, files: map<FileId, seq<seq<byte>>>, flat: FlatStore, file: FileId, num: nat, size: nat)
    requires AllHold(m, files, flat) && num <= |ChunksOf(files, file)|
    ensures var chunks := ChunksOf(files, file);
            var name := ObjectName(file, num);
            var m' := if name in m then m[name := Cut(m[name], size)] else m;
            Trimming(m', file, CutChunks(chunks, num, size), num + 1, |chunks|) && OthersHold(m', files, flat, file)
  {
    var chunks := ChunksOf(files, file);
    assert About(file);
    var name := ObjectName(file, num);
    if num < |chunks| {
      var m' := m[name := Cut(m[name], size)];
      forall i: nat
        ensures i != num ==> (ObjectName(file, i) in m' <==> ObjectName(file, i) in m)
        ensures i != num && ObjectName(file, i) in m ==> m'[ObjectName(file, i)] == m[ObjectName(file, i)]
      {
        ObjectNameInjective(file, i, file, num);
      }
      OthersUntouched(m, m', files, flat, file, num);
    }
  }

  lemma FlatOfPut(st: FlatStore, file: FileId, bytes: seq<byte>)
    ensures FlatOf(Put(st, file, bytes), file) == bytes
  {
  }

  lemma PutSame(st: FlatStore, file: FileId)
    ensures Put(st, file, FlatOf(st, file)) == st
  {
  }

  lemma PutTwice(st: FlatStore, file: FileId, a: seq<byte>, b: seq<byte>)
    requires b != []
    ensures Put(st, file, a)[file := b] == Put(st, file, b)
  {
  }

  /** One more piece of a write whose earlier pieces are already in place. */
  lemma WritePiece(st: FlatStore, file: FileId, before: seq<byte>, offset: nat, a: seq<byte>, b: seq<byte>)
    requires b != []
    ensures var st' := Put(st, file, Overlay(before, offset, a));
            && offset + |a| <= |FlatOf(st', file)|
            && st'[file := Overlay(FlatOf(st', file), offset + |a|, b)] == Put(st, file, Overlay(before, offset, a + b))
  {
    FlatOfPut(st, file, Overlay(before, offset, a));
    OverlayTwice(before, offset, a, b);
    PutTwice(st, file, Overlay(before, offset, a), Overlay(before, offset, a + b));
  }

  lemma HoleFilled(st: FlatStore, file: FileId, offset: nat)
    requires |FlatOf(st, file)| <= offset
    ensures var f := FlatOf(st, file);
            Put(st, file, Overlay(f, |f|, Zeros(offset - |f|))) == Put(st, file, Pad(f, offset))
  {
    OverlayZeros(FlatOf(st, file), offset);
  }

  lemma HoleThenData(st: FlatStore, file: FileId, offset: nat, data: seq<byte>)
    ensures var st' := Put(st, file, Pad(FlatOf(st, file), offset));
            && offset <= |FlatOf(st', file)|
            && Put(st', file, Overlay(FlatOf(st', file), offset, data)) ==
                Put(st, file, Overlay(FlatOf(st, file), offset, data))
  {
    var padded := Pad(FlatOf(st, file), offset);
    FlatOfPut(st, file, padded);
    assert Pad(padded, offset) == padded;
  }

  lemma NoHole(st: FlatStore, file: FileId, offset: nat)
    requires offset <= |FlatOf(st, file)|
    ensures Put(st, file, Pad(FlatOf(st, file), offset)) == st
  {
  }

  lemma SliceAppend(f: seq<byte>, offset: nat, a: nat, b: nat)
    ensures Slice(f, offset, a) + Slice(f, offset + a, b) == Slice(f, offset, a + b)
  {
  }

  /** `after` is `before` with `bytes` copied in at `at`. */
  ghost predicate Copied(before: seq<byte>, after: seq<byte>, at: nat, bytes: seq<byte>) {
    && |after| == |before| && at + |bytes| <= |before|
    && forall i :: 0 <= i < |before| ==>
         after[i] == if at <= i < at + |bytes| then bytes[i - at] else before[i]
  }

  /** One more piece of a read, copied in right after what has been read so far. */
  lemma ReadPiece(bytes: seq<byte>, offset: nat, done: nat, len: nat, before: seq<byte>, now: seq<byte>,
                  next: seq<byte>)
    requires Copied(before, now, 0, Slice(bytes, offset, done))
    requires Copied(now, next, |Slice(bytes, offset, done)|, Slice(bytes, offset + done, len))
    ensures Copied(before, next, 0, Slice(bytes, offset, done + len))
    ensures |Slice(bytes, offset, done + len)| == |Slice(bytes, offset, done)| + |Slice(bytes, offset + done, len)|
  {
    SliceAppend(bytes, offset, done, len);
  }

  class Store {
    var objects: Objects
    /** The objects of every existing file, in order; tied to `objects` by `Valid`. */
    ghost var files: map<FileId, seq<seq<byte>>>
    /** The concatenated objects of every file that has any. */
    ghost var flat: FlatStore

    /** Density: contiguous objects from 0, all full but the last, for every (category, key). */
    ghost predicate Valid()
      reads this
    {
      AllHold(objects, files, flat)
    }

    ghost function NumObjects(file: FileId): nat
      reads this
    {
      |ChunksOf(files, file)|
    }

    lemma Present(file: FileId, num: nat)
      requires Valid()
      ensures ObjectName(file, num) in objects <==> num < NumObjects(file)
      ensures num < NumObjects(file) ==> objects[ObjectName(file, num)] == ChunksOf(files, file)[num]
      ensures file in flat <==> NumObjects(file) > 0
      ensures Dense(ChunksOf(files, file)) && FlatOf(flat, file) == Concat(ChunksOf(files, file))
    {
      assert About(file);
    }

    constructor ()
      ensures Valid() && flat == map[] && objects == map[]
    {
      objects := map[];
      files := map[];
      flat := map[];
    }

    /** `write_obj`. The first requires is the density claim: no object write starts past the end of its object. */
    method WriteObj(file: FileId, num: nat, data: seq<byte>, o: nat)
      requires Valid() && num * 4194304 + o <= |FlatOf(flat, file)|
      requires o < OBJ_SIZE && o + |data| <= OBJ_SIZE
      modifies this
      ensures Valid()
      ensures flat == old(flat)[file := Overlay(FlatOf(old(flat), file), num * 4194304 + o, data)]
    {
      ghost var chunks := ChunksOf(files, file);
      Present(file, num);
      ChunkWrite(chunks, num, o, data);
      var name := ObjectName(file, num);
      var chunk := Overlay(if name in objects then objects[name] else [], o, data);
      PutObject(objects, files, flat, file, num, chunk);
      objects := objects[name := chunk];
      files := files[file := PutChunk(chunks, num, chunk)];
      flat := flat[file := Concat(PutChunk(chunks, num, chunk))];
    }

    /** The object write of one loop round: `cursor` split into object number and offset. */
    method WriteAt(file: FileId, data: seq<byte>, cursor: nat)
      requires Valid() && cursor <= |FlatOf(flat, file)|
      requires cursor % 4194304 + |data| <= OBJ_SIZE
      modifies this
      ensures Valid()
      ensures flat == old(flat)[file := Overlay(FlatOf(old(flat), file), cursor, data)]
    {
      assert cursor / 4194304 * 4194304 + cursor % 4194304 == cursor;
      WriteObj(file, cursor / 4194304, data, cursor % 4194304);
    }

    /** A round of the loop below, after the rounds that wrote `done`. */
    method WriteRound(file: FileId, piece: seq<byte>, cursor: nat, ghost st: FlatStore,
                      ghost before: seq<byte>, ghost offset: nat, ghost done: seq<byte>)
      requires Valid() && flat == Put(st, file, Overlay(before, offset, done))
      requires cursor == offset + |done| && piece != [] && cursor % 4194304 + |piece| <= OBJ_SIZE
      modifies this
      ensures Valid() && flat == Put(st, file, Overlay(before, offset, done + piece))
    {
      WritePiece(st, file, before, offset, done, piece);
      WriteAt(file, piece, cursor);
    }

    /** The cursor loop of `zerofill` and of `write`: `data` over [offset, offset + |data|), object by object. */
    method WriteSpan(file: FileId, data: seq<byte>, offset: nat) returns (sum: nat)
      requires Valid() && offset <= |FlatOf(flat, file)|
      modifies this
      ensures Valid() && sum == |data|
      ensures flat == Put(old(flat), file, Overlay(FlatOf(old(flat), file), offset, data))
    {
      ghost var before := FlatOf(flat, file);
      var cursor, stop := offset, offset + |data|;
      sum := 0;
      OverlayNothing(before, offset);
      PutSame(flat, file);
      ghost var done: seq<byte> := [];
      while cursor < stop
        invariant Valid() && offset <= cursor && sum == Min(cursor, stop) - offset
        invariant done == data[..sum]
        invariant flat == Put(old(flat), file, Overlay(before, offset, done))
      {
        var nextBound := cursor - cursor % 4194304 + OBJ_SIZE;
        var subLen := Min(nextBound - cursor, stop - cursor);
        var piece := data[sum..sum + subLen];
        WriteRound(file, piece, cursor, old(flat), before, offset, done);
        done := done + piece;
        sum := sum + subLen;
        cursor := nextBound;
      }
      assert data[..sum] == data;
    }

    /**
     * The backward search that `write` and `truncate` open with. A bound below `offset` is the file size, as the
     * source's comment claims; otherwise the file reaches at least to `offset`.
     */
    method LowerBound(file: FileId, offset: nat) returns (bound: Option<nat>)
      requires Valid()
      ensures bound.None? <==> file !in flat
      ensures bound.None? ==> |FlatOf(flat, file)| == 0
      ensures bound.Some? && bound.value < offset ==> bound.value == |FlatOf(flat, file)|
      ensures bound.Some? && offset <= bound.value ==> offset <= |FlatOf(flat, file)|
    {
      ghost var chunks := ChunksOf(files, file);
      Present(file, 0);
      DenseSize(chunks);
      var prev: int := offset / 4194304;
      while prev >= 0
        invariant -1 <= prev <= offset / 4194304
        invariant prev < offset / 4194304 ==> |chunks| <= prev + 1
      {
        Present(file, prev);
        var name := ObjectName(file, prev);
        if name in objects {
          return Some(prev * 4194304 + |objects[name]|);
        }
        prev := prev - 1;
      }
      return None;
    }

    /** The opening of `write`: zeros up to `offset` if the file does not reach it. */
    method FillHole(file: FileId, offset: nat)
      requires Valid()
      modifies this
      ensures Valid()
      ensures flat == Put(old(flat), file, Pad(FlatOf(old(flat), file), offset))
    {
      var bound := LowerBound(file, offset);
      var lb := if bound.Some? then bound.value else 0;
      if lb < offset {
        HoleFilled(flat, file, offset);
        var _ := WriteSpan(file, Zeros(offset - lb), lb);
      } else {
        NoHole(flat, file, offset);
      }
    }

    /** `write`: fill the hole, then overlay the data object by object. */
    method Write(file: FileId, data: seq<byte>, offset: nat) returns (sum: nat)
      requires Valid()
      modifies this
      ensures Valid() && sum == |data|
      ensures flat == Put(old(flat), file, Overlay(FlatOf(old(flat), file), offset, data))
    {
      HoleThenData(flat, file, offset, data);
      FillHole(file, offset);
      sum := WriteSpan(file, data, offset);
    }

    /** `read_obj` into `value` from position `at`; `None` is -ENOENT. */
    method ReadObj(name: string, value: array<byte>, at: nat, len: nat, o: nat) returns (count: Option<nat>)
      requires at + len <= value.Length
      modifies value
      ensures count.None? <==> name !in objects
      ensures count.None? ==> value[..] == old(value[..])
      ensures count.Some? ==>
                var bytes := Slice(objects[name], o, len);
                count.value == |bytes| && Copied(old(value[..]), value[..], at, bytes)
    {
      if name !in objects {
        return None;
      }
      var bytes := Slice(objects[name], o, len);
      forall i | 0 <= i < |bytes| {
        value[at + i] := bytes[i];
      }
      return Some(|bytes|);
    }

    /** The object read of one loop round. */
    method ReadAt(file: FileId, value: array<byte>, at: nat, len: nat, cursor: nat) returns (count: Option<nat>)
      requires Valid() && at + len <= value.Length && cursor % 4194304 + len <= OBJ_SIZE
      modifies value
      ensures count.None? <==> NumObjects(file) * 4194304 <= cursor
      ensures count.Some? ==> cursor - cursor % 4194304 + OBJ_SIZE <= NumObjects(file) * 4194304
      ensures count.None? ==> value[..] == old(value[..])
      ensures count.Some? ==>
                var bytes := Slice(FlatOf(flat, file), cursor, len);
                count.value == |bytes| && Copied(old(value[..]), value[..], at, bytes)
    {
      ObjectRead(file, cursor, len);
      count := ReadObj(ObjectName(file, cursor / 4194304), value, at, len, cursor % 4194304);
    }

    /** A round of the loop below, after [offset, cursor) has been read. */
    method ReadRound(file: FileId, value: array<byte>, at: nat, len: nat, cursor: nat,
                     ghost before: seq<byte>, ghost offset: nat) returns (count: Option<nat>)
      requires Valid() && at + len <= value.Length && cursor % 4194304 + len <= OBJ_SIZE && offset <= cursor
      requires at == |Slice(FlatOf(flat, file), offset, cursor - offset)|
      requires Copied(before, value[..], 0, Slice(FlatOf(flat, file), offset, cursor - offset))
      modifies value
      ensures count.None? <==> NumObjects(file) * 4194304 <= cursor
      ensures count.None? ==> value[..] == old(value[..])
      ensures count.Some? ==>
                && cursor - cursor % 4194304 + OBJ_SIZE <= NumObjects(file) * 4194304
                && at + count.value == |Slice(FlatOf(flat, file), offset, cursor - offset + len)|
                && Copied(before, value[..], 0, Slice(FlatOf(flat, file), offset, cursor - offset + len))
    {
      ghost var now := value[..];
      count := ReadAt(file, value, at, len, cursor);
      if count.Some? {
        ReadPiece(FlatOf(flat, file), offset, cursor - offset, len, before, now, value[..]);
      }
    }

    /** `read`: into the caller's buffer, object by object, up to the first missing object. */
    method Read(file: FileId, value: array<byte>, len: nat, offset: nat) returns (r: ReadOutcome)
      requires Valid() && len <= value.Length
      modifies value
      ensures r.count == Min(len, Max(0, |FlatOf(flat, file)| - offset))
      ensures Copied(old(value[..]), value[..], 0, Slice(FlatOf(flat, file), offset, len))
      ensures r.NoSuchObject? <==> len > 0 && NumObjects(file) * 4194304 < offset + len
    {
      ghost var before := value[..];
      var cursor, stop, sum := offset, offset + len, 0;
      while cursor < stop
        invariant offset <= cursor
        invariant sum == |Slice(FlatOf(flat, file), offset, Min(cursor, stop) - offset)|
        invariant Copied(before, value[..], 0, Slice(FlatOf(flat, file), offset, Min(cursor, stop) - offset))
        invariant offset < cursor ==> cursor <= NumObjects(file) * 4194304
      {
        var nextBound := cursor - cursor % 4194304 + OBJ_SIZE;
        var subLen := Min(nextBound - cursor, stop - cursor);
        var count := ReadRound(file, value, sum, subLen, cursor, before, offset);
        if count.None? {
          MissingTail(file, offset, cursor, stop);
          return NoSuchObject(sum);
        }
        sum := sum + count.value;
        cursor := nextBound;
      }
      r := Returned(sum);
    }

    lemma ObjectRead(file: FileId, cursor: nat, len: nat)
      requires Valid() && cursor % 4194304 + len <= OBJ_SIZE
      ensures var name := ObjectName(file, cursor / 4194304);
              && (name in objects <==> cursor / 4194304 < NumObjects(file))
              && (name in objects ==>
                    Slice(objects[name], cursor % 4194304, len) == Slice(FlatOf(flat, file), cursor, len))
    {
      Present(file, cursor / 4194304);
      ChunkRead(ChunksOf(files, file), cursor / 4194304, cursor % 4194304, len);
      assert cursor / 4194304 * 4194304 + cursor % 4194304 == cursor;
    }

    /** Nothing lies at or past a missing object. */
    lemma MissingTail(file: FileId, offset: nat, cursor: nat, stop: nat)
      requires Valid() && NumObjects(file) * 4194304 <= cursor && offset <= cursor < stop
      ensures Slice(FlatOf(flat, file), offset, stop - offset) == Slice(FlatOf(flat, file), offset, cursor - offset)
    {
      Present(file, 0);
      DenseSize(ChunksOf(files, file));
    }

    /** `exist`: looking at object 0 suffices. */
    method Exist(file: FileId) returns (r: bool)
      requires Valid()
      ensures r <==> file in flat
    {
      Present(file, 0);
      r := ObjectName(file, 0) in objects;
    }

    /** `stat`: walk to the first missing object, adding sizes. */
    method Stat(file: FileId) returns (size: Option<nat>)
      requires Valid()
      ensures size == if file in flat then Some(|flat[file]|) else None
    {
      ghost var chunks := ChunksOf(files, file);
      Present(file, 0);
      var num, sum := 0, 0;
      assert chunks[..0] == [];
      while ObjectName(file, num) in objects
        invariant num <= |chunks|
        invariant sum == |Concat(chunks[..num])|
        decreases |chunks| - num
      {
        Present(file, num);
        assert chunks[..num + 1][..num] == chunks[..num];
        sum := sum + |objects[ObjectName(file, num)]|;
        num := num + 1;
      }
      Present(file, num);
      assert chunks[..|chunks|] == chunks;
      size := if num == 0 then None else Some(sum);
    }

    /** The loop that `remove` and `truncate` end with: delete objects from `start` until one is missing. */
    method RemoveFrom(file: FileId, start: nat, ghost keep: seq<seq<byte>>, ghost n: nat)
      requires Trimming(objects, file, keep, start, n) && OthersHold(objects, files, flat, file) && Dense(keep)
      modifies this
      ensures Valid()
      ensures flat == if keep == [] then old(flat) - {file} else old(flat)[file := Concat(keep)]
    {
      var num := start;
      while ObjectName(file, num) in objects
        invariant start <= num
        invariant Trimming(objects, file, keep, num, n) && OthersHold(objects, files, flat, file)
        invariant unchanged(this`files) && unchanged(this`flat)
        decreases n as int - num
      {
        TrimOne(objects, files, flat, file, keep, num, n);
        objects := objects - {ObjectName(file, num)};
        num := num + 1;
      }
      Rebind(objects, files, flat, file, keep);
      files := if keep == [] then files - {file} else files[file := keep];
      flat := if keep == [] then flat - {file} else flat[file := Concat(keep)];
    }

    /** `remove`: delete objects from 0 until one is missing. */
    method Remove(file: FileId)
      requires Valid()
      modifies this
      ensures Valid()
      ensures flat == old(flat) - {file}
    {
      assert About(file);
      RemoveFrom(file, 0, [], NumObjects(file));
    }

    /** The shrinking half of `truncate`: cut one object and delete the ones after it. */
    method Shrink(file: FileId, offset: nat)
      requires Valid() && file in flat && offset <= |flat[file]|
      modifies this
      ensures Valid()
      ensures flat == old(flat)[file := Cut(old(flat)[file], offset)]
    {
      var num, cutSize := offset / 4194304, offset % 4194304;
      ghost var chunks := ChunksOf(files, file);
      Present(file, num);
      ChunkCut(chunks, num, cutSize);
      TruncObject(objects, files, flat, file, num, cutSize);
      var name := ObjectName(file, num);
      if name in objects {
        objects := objects[name := Cut(objects[name], cutSize)];
      }
      RemoveFrom(file, num + 1, CutChunks(chunks, num, cutSize), |chunks|);
    }

    /** `truncate`: extend with zeros, or shrink. */
    method Truncate(file: FileId, offset: nat)
      requires Valid()
      modifies this
      ensures Valid()
      ensures flat == Put(old(flat), file, Cut(FlatOf(old(flat), file), offset))
    {
      ghost var before := FlatOf(flat, file);
      var bound := LowerBound(file, offset);
      if bound.Some? && offset <= bound.value {
        Shrink(file, offset);
      } else {
        OverlayZeros(before, offset);
        assert Pad(before, offset)[..offset] == Pad(before, offset);
        var lb := if bound.None? then 0 else bound.value;
        var _ := WriteSpan(file, Zeros(offset - lb), lb);
      }
    }
  }
}
