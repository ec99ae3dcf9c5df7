/** A flat byte file cut into fixed-size objects, and what one object operation does to the flat file. */
module Striping {
  import opened Bytes

  /** `OBJ_SIZE`; `x >> OBJ_BITS` is `x / 4194304` and `x & ~OBJ_MASK` is `x % 4194304`. */
  const OBJ_SIZE: nat := 4194304

  /** Every object but the last is exactly full; the last may hold anything up to a full object, even nothing. */
  predicate Dense(chunks: seq<seq<byte>>) {
    && (forall i :: 0 <= i < |chunks| - 1 ==> |chunks[i]| == OBJ_SIZE)
    && (|chunks| > 0 ==> |chunks[|chunks| - 1]| <= OBJ_SIZE)
  }

  function Concat(chunks: seq<seq<byte>>): seq<byte> {
    if chunks == [] then [] else Concat(chunks[..|chunks| - 1]) + chunks[|chunks| - 1]
  }

  /** `f` extended with zeros to at least `n` bytes. */
  function Pad(f: seq<byte>, n: nat): (r: seq<byte>)
    ensures |r| == Max(|f|, n)
  {
    if |f| < n then f + Zeros(n - |f|) else f
  }

  /** `data` written at `offset`, over zeros if `f` does not reach that far. */
  function Overlay(f: seq<byte>, offset: nat, data: seq<byte>): (r: seq<byte>)
    ensures |r| == Max(Max(|f|, offset), offset + |data|)
  {
    var p := Pad(f, offset);
    p[..offset] + data + p[Min(offset + |data|, |p|)..]
  }

  /** `f` cut or zero-padded to exactly `n` bytes. */
  function Cut(f: seq<byte>, n: nat): (r: seq<byte>)
    ensures |r| == n
  {
    Pad(f, n)[..n]
  }

  /** What a reader of `f` gets: the bytes of [offset, offset + len) that exist. */
  function Slice(f: seq<byte>, offset: nat, len: nat): (r: seq<byte>)
    ensures |r| == Min(len, Max(0, |f| - offset))
  {
    if offset >= |f| then [] else f[offset..Min(offset + len, |f|)]
  }

  /** Byte `k`, or the zero that stands for it beyond the end. */
  function At(f: seq<byte>, k: nat): byte {
    if k < |f| then f[k] else 0
  }

  /** What is written covers what was there; whatever lies beyond the end reads as zero. */
  lemma OverlayAt(f: seq<byte>, offset: nat, data: seq<byte>, k: nat)
    ensures At(Overlay(f, offset, data), k) == if offset <= k < offset + |data| then data[k - offset] else At(f, k)
  {
    var p, over := Pad(f, offset), Overlay(f, offset, data);
    if k < offset {
      assert over[k] == p[k];
    } else if k < offset + |data| {
      assert over[k] == data[k - offset];
    } else if k < |over| {
      assert over[k] == p[k] == f[k];
    }
  }

  lemma CutAt(f: seq<byte>, n: nat, k: nat)
    ensures At(Cut(f, n), k) == if n <= k then 0 else At(f, k)
  {
    if k < n {
      assert Cut(f, n)[k] == Pad(f, n)[k];
    }
  }

  lemma SliceAt(f: seq<byte>, offset: nat, len: nat, k: nat)
    requires k < |Slice(f, offset, len)|
    ensures Slice(f, offset, len)[k] == At(f, offset + k)
  {
  }

  lemma OverlayTwice(f: seq<byte>, offset: nat, a: seq<byte>, b: seq<byte>)
    ensures Overlay(Overlay(f, offset, a), offset + |a|, b) == Overlay(f, offset, a + b)
  {
    var p := Pad(f, offset);
    var once := Overlay(f, offset, a);
    assert once[..offset + |a|] == p[..offset] + a;
    assert once[Min(offset + |a| + |b|, |once|)..] == p[Min(offset + |a + b|, |p|)..];
  }

  lemma OverlayNothing(f: seq<byte>, offset: nat)
    ensures Overlay(f, offset, []) == Pad(f, offset)
  {
    var p := Pad(f, offset);
    assert p[..offset] + [] + p[offset..] == p;
  }

  /** Writing zeros exactly over the hole is padding. */
  lemma OverlayZeros(f: seq<byte>, offset: nat)
    requires |f| <= offset
    ensures Overlay(f, |f|, Zeros(offset - |f|)) == Pad(f, offset)
  {
  }

  lemma OverlayAtEnd(f: seq<byte>, data: seq<byte>)
    ensures Overlay(f, |f|, data) == f + data
  {
  }

  lemma OverlayMiddle(a: seq<byte>, x: seq<byte>, b: seq<byte>, o: nat, data: seq<byte>)
    requires o <= |x| && (o + |data| <= |x| || b == [])
    ensures Overlay(a + x + b, |a| + o, data) == a + Overlay(x, o, data) + b
  {
    var f := a + x + b;
    assert f[..|a| + o] == a + x[..o];
    assert f[Min(|a| + o + |data|, |f|)..] == x[Min(o + |data|, |x|)..] + b;
  }

  lemma {:induction false} ConcatAppend(a: seq<seq<byte>>, b: seq<seq<byte>>)
    ensures Concat(a + b) == Concat(a) + Concat(b)
  {
    if b == [] {
      assert a + b == a;
    } else {
      var b' := b[..|b| - 1];
      assert (a + b)[..|a + b| - 1] == a + b';
      ConcatAppend(a, b');
    }
  }

  lemma {:induction false} FullLength(chunks: seq<seq<byte>>)
    requires forall i :: 0 <= i < |chunks| ==> |chunks[i]| == OBJ_SIZE
    ensures |Concat(chunks)| == 4194304 * |chunks|
  {
    if chunks != [] {
      FullLength(chunks[..|chunks| - 1]);
    }
  }

  /** The flat file around object `i`: what comes before and after it, whatever object stands there. */
  lemma SplitAt(chunks: seq<seq<byte>>, i: nat, chunk: seq<byte>) returns (a: seq<byte>, b: seq<byte>)
    requires Dense(chunks) && i < |chunks|
    ensures |a| == i * 4194304
    ensures Concat(chunks) == a + chunks[i] + b
    ensures Concat(chunks[i := chunk]) == a + chunk + b
    ensures Concat(chunks[..i] + [chunk]) == a + chunk
    ensures i == |chunks| - 1 ==> b == []
  {
    a, b := Concat(chunks[..i]), Concat(chunks[i + 1..]);
    FullLength(chunks[..i]);
    Around(chunks, i);
    var other := chunks[i := chunk];
    Around(other, i);
    assert other[..i] == chunks[..i] && other[i + 1..] == chunks[i + 1..];
    assert (chunks[..i] + [chunk])[..i] == chunks[..i];
  }

  lemma Around(chunks: seq<seq<byte>>, i: nat)
    requires i < |chunks|
    ensures Concat(chunks) == Concat(chunks[..i]) + chunks[i] + Concat(chunks[i + 1..])
  {
    var front, tail := chunks[..i + 1], chunks[i + 1..];
    assert chunks == front + tail && front[..|front| - 1] == chunks[..i];
    ConcatAppend(front, tail);
  }

  lemma DenseSize(chunks: seq<seq<byte>>)
    requires Dense(chunks)
    ensures chunks == [] ==> Concat(chunks) == []
    ensures chunks != [] ==> |Concat(chunks)| == (|chunks| - 1) * 4194304 + |chunks[|chunks| - 1]|
  {
    if chunks != [] {
      FullLength(chunks[..|chunks| - 1]);
    }
  }

  function PutChunk(chunks: seq<seq<byte>>, i: nat, chunk: seq<byte>): seq<seq<byte>>
    requires i <= |chunks|
  {
    if i < |chunks| then chunks[i := chunk] else chunks + [chunk]
  }

  function CutChunks(chunks: seq<seq<byte>>, i: nat, o: nat): seq<seq<byte>> {
    if i < |chunks| then chunks[..i] + [Cut(chunks[i], o)] else chunks
  }

  function ChunkAt(chunks: seq<seq<byte>>, i: nat): seq<byte> {
    if i < |chunks| then chunks[i] else []
  }

  lemma WriteInside(chunks: seq<seq<byte>>, i: nat, o: nat, data: seq<byte>)
    requires Dense(chunks) && i < |chunks| && o <= |chunks[i]| && o + |data| <= OBJ_SIZE
    ensures var chunks' := chunks[i := Overlay(chunks[i], o, data)];
            Dense(chunks') && Concat(chunks') == Overlay(Concat(chunks), i * 4194304 + o, data)
  {
    var a, b := SplitAt(chunks, i, Overlay(chunks[i], o, data));
    OverlayMiddle(a, chunks[i], b, o, data);
  }

  lemma WriteNew(chunks: seq<seq<byte>>, data: seq<byte>)
    requires forall i :: 0 <= i < |chunks| ==> |chunks[i]| == OBJ_SIZE
    requires |data| <= OBJ_SIZE
    ensures var chunks' := chunks + [Overlay([], 0, data)];
            Dense(chunks') && Concat(chunks') == Overlay(Concat(chunks), |chunks| * 4194304, data)
  {
    FullLength(chunks);
    OverlayAtEnd([], data);
    OverlayAtEnd(Concat(chunks), data);
    assert (chunks + [data])[..|chunks|] == chunks;
  }

  /** An offset within the file falls in an existing object, or at the very end of a file of full objects. */
  lemma Locate(chunks: seq<seq<byte>>, i: nat, o: nat)
    requires Dense(chunks) && o < OBJ_SIZE && i * 4194304 + o <= |Concat(chunks)|
    ensures i <= |chunks| && o <= |ChunkAt(chunks, i)|
    ensures i == |chunks| ==> o == 0 && forall k :: 0 <= k < |chunks| ==> |chunks[k]| == OBJ_SIZE
  {
    DenseSize(chunks);
  }

  /** A write inside one object, starting no later than the end of the file, is the same write on the flat file. */
  lemma ChunkWrite(chunks: seq<seq<byte>>, i: nat, o: nat, data: seq<byte>)
    requires Dense(chunks) && i * 4194304 + o <= |Concat(chunks)|
    requires o < OBJ_SIZE && o + |data| <= OBJ_SIZE
    ensures i <= |chunks| && o <= |ChunkAt(chunks, i)|
    ensures var chunks' := PutChunk(chunks, i, Overlay(ChunkAt(chunks, i), o, data));
            Dense(chunks') && Concat(chunks') == Overlay(Concat(chunks), i * 4194304 + o, data)
  {
    Locate(chunks, i, o);
    if i < |chunks| {
      WriteInside(chunks, i, o, data);
    } else {
      WriteNew(chunks, data);
    }
  }

  /** Cutting object `i` and dropping the later ones cuts the flat file. */
  lemma ChunkCut(chunks: seq<seq<byte>>, i: nat, o: nat)
    requires Dense(chunks) && o < OBJ_SIZE && i * 4194304 + o <= |Concat(chunks)|
    ensures i <= |chunks| && o <= |ChunkAt(chunks, i)|
    ensures var chunks' := CutChunks(chunks, i, o);
            Dense(chunks') && Concat(chunks') == Cut(Concat(chunks), i * 4194304 + o)
  {
    Locate(chunks, i, o);
    if i < |chunks| {
      var a, b := SplitAt(chunks, i, Cut(chunks[i], o));
      CutMiddle(a, chunks[i], b, o);
    } else {
      DenseSize(chunks);
      CutMiddle(Concat(chunks), [], [], 0);
      assert Concat(chunks) + [] + [] == Concat(chunks);
    }
  }

  lemma CutMiddle(a: seq<byte>, x: seq<byte>, b: seq<byte>, o: nat)
    requires o <= |x|
    ensures Cut(a + x + b, |a| + o) == a + Cut(x, o)
  {
  }

  lemma SliceMiddle(a: seq<byte>, x: seq<byte>, b: seq<byte>, o: nat, len: nat)
    requires o + len <= |x| || b == []
    ensures Slice(a + x + b, |a| + o, len) == Slice(x, o, len)
  {
  }

  /** A read inside one object sees what a read of the flat file sees. */
  lemma ChunkRead(chunks: seq<seq<byte>>, i: nat, o: nat, len: nat)
    requires Dense(chunks) && o + len <= OBJ_SIZE
    ensures Slice(ChunkAt(chunks, i), o, len) == Slice(Concat(chunks), i * 4194304 + o, len)
  {
    if i < |chunks| {
      var a, b := SplitAt(chunks, i, []);
      SliceMiddle(a, chunks[i], b, o, len);
    } else {
      DenseSize(chunks);
    }
  }
}
