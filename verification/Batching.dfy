/**
 * Where the commit thread cuts the stream of operations on a directory does not matter: every cut of a stream that
 * keeps to the directory's life, checkpointed in order, leaves the same durable directory; and no legal stream
 * reaches a `logic_error`.
 */
module Batching {
  import opened Bytes
  import opened Transactions

  datatype Life = NotYet | Alive | Gone

  /**
   * A directory as the operations describe it: `files` holds the latest inode of every regular file it was told of,
   * `parked` the files unlinked and not written to since (a rename parks its file between its two halves), `used`
   * every inode number seen.
   */
  datatype Dir = Dir(life: Life, names: map<Name, Uuid>, self: Option<Inode>,
                     files: map<Uuid, Inode>, parked: set<Uuid>, used: set<Uuid>)

  const UNMADE: Dir := Dir(NotYet, map[], None, map[], {}, {})

  /** Only `mkself` and `chself` change the directory inode beyond its times. */
  predicate Steady(m: Dir, op: Op) {
    op.MkDir? || op.RmDir? || op.MkReg? || op.RmReg? ==> m.self.Some? && m.self.value.attrs == op.self.attrs
  }

  /** The directory is made once, before anything else happens in it, and nothing happens in it once it is removed. */
  predicate Timely(m: Dir, op: Op) {
    if op.MkSelf? then m.life == NotYet else m.life == Alive
  }

  /** What the callers of the journal guarantee: creates on absent names, fresh inos or a file in mid-rename. */
  predicate Legal(m: Dir, op: Op) {
    match op
    case MkSelf(_) => m.life == NotYet
    case RmSelf => m.life == Alive && m.names == map[]
    case ChSelf(_) => m.life == Alive
    case MkDir(_, name, ino) => m.life == Alive && name !in m.names && ino !in m.used
    case RmDir(_, name, ino) =>
      m.life == Alive && name in m.names && m.names[name] == ino && ino !in m.files
    case MkReg(_, name, f) =>
      && m.life == Alive && name !in m.names
      && (f.attrs.ino !in m.used || f.attrs.ino in m.parked)
    case RmReg(_, name, f) =>
      m.life == Alive && name in m.names && m.names[name] == f.attrs.ino && f.attrs.ino in m.files
    case ChReg(f) => m.life == Alive && f.attrs.ino in m.files
  }

  function Apply(m: Dir, op: Op): Dir {
    match op
    case MkSelf(self) => m.(life := Alive, self := Some(self))
    case RmSelf => m.(life := Gone)
    case ChSelf(self) => m.(self := Some(self))
    case MkDir(self, name, ino) => m.(names := m.names[name := ino], self := Some(self), used := m.used + {ino})
    case RmDir(self, name, _) => m.(names := m.names - {name}, self := Some(self))
    case MkReg(self, name, f) =>
      m.(names := m.names[name := f.attrs.ino], self := Some(self), files := m.files[f.attrs.ino := f],
         parked := m.parked - {f.attrs.ino}, used := m.used + {f.attrs.ino})
    case RmReg(self, name, f) =>
      m.(names := m.names - {name}, self := Some(self), parked := m.parked + {f.attrs.ino})
    case ChReg(f) => m.(files := m.files[f.attrs.ino := f], parked := m.parked - {f.attrs.ino})
  }

  /** There is nothing in a directory that is not made yet. */
  predicate Blank(m: Dir) {
    m.life == NotYet ==> m.names == map[] && m.files == map[] && m.self == None
  }

  ghost predicate WellFormed(m: Dir) {
    && m.parked <= m.files.Keys <= m.used
    && (forall n :: n in m.names ==> m.names[n] in m.used && m.names[n] !in m.parked)
    && (forall n, k :: n in m.names && k in m.names && m.names[n] == m.names[k] ==> n == k)
    && Blank(m)
  }

  ghost predicate NamesRecorded(m0: Dir, m: Dir, tx: Tx) {
    && (m.life == Alive ==> m.names == Overlaid(if tx.status == Created then map[] else m0.names, tx.dentries))
    && (m.life == NotYet ==> tx.dentries == map[])
  }

  ghost predicate FilesRecorded(m0: Dir, m: Dir, tx: Tx) {
    && (forall i :: i in tx.files && tx.files[i].Some? ==>
        i in m.files && m.files[i] == tx.files[i].value && i !in m.parked)
    && (forall i :: i in tx.files && tx.files[i].None? ==> i in m.parked)
    && (forall i :: i in m.files && i !in tx.files ==>
          i in m0.files && m0.files[i] == m.files[i] && (i in m.parked <==> i in m0.parked))
  }

  /** `tx` is the overlay between the directory at its start, `m0`, and now, `m`. */
  ghost predicate Recorded(m0: Dir, m: Dir, tx: Tx) {
    && (tx.status == Unchanged ==> m.life == m0.life)
    && (tx.status == Created ==> m0.life == NotYet && m.life == Alive)
    && (tx.status == Deleted ==> m.life == Gone)
    && NamesRecorded(m0, m, tx) && FilesRecorded(m0, m, tx)
  }

  /** The directory inode is recorded too. */
  predicate SelfRecorded(m0: Dir, m: Dir, tx: Tx) {
    m.self == if tx.self.Some? then tx.self else m0.self
  }

  lemma RecordNames(m0: Dir, m: Dir, tx: Tx, op: Op)
    requires Blank(m) && Recorded(m0, m, tx) && Timely(m, op)
    ensures NamesRecorded(m0, Apply(m, op), Record(tx, op))
  {
    var base := if tx.status == Created then map[] else m0.names;
    match op
    case MkSelf(_) => assert Overlaid(map[], map[]) == map[];
    case MkDir(_, n, ino) => AddName(base, tx.dentries, n, ino);
    case RmDir(_, n, ino) => DropName(base, tx.dentries, n, ino);
    case MkReg(_, n, f) => AddName(base, tx.dentries, n, f.attrs.ino);
    case RmReg(_, n, f) => DropName(base, tx.dentries, n, f.attrs.ino);
    case _ =>
  }

  lemma AddName(base: map<Name, Uuid>, dentries: map<Name, Entry>, n: Name, ino: Uuid)
    ensures Overlaid(base, dentries[n := Entry(true, ino)]) == Overlaid(base, dentries)[n := ino]
  {
  }

  lemma DropName(base: map<Name, Uuid>, dentries: map<Name, Entry>, n: Name, ino: Uuid)
    ensures Overlaid(base, dentries[n := Entry(false, ino)]) == Overlaid(base, dentries) - {n}
  {
  }

  lemma FileWritten(m0: Dir, m: Dir, tx: Tx, m': Dir, tx': Tx, f: Inode)
    requires FilesRecorded(m0, m, tx)
    requires m'.files == m.files[f.attrs.ino := f] && m'.parked == m.parked - {f.attrs.ino}
    requires tx'.files == tx.files[f.attrs.ino := Some(f)]
    ensures FilesRecorded(m0, m', tx')
  {
  }

  lemma FileParked(m0: Dir, m: Dir, tx: Tx, m': Dir, tx': Tx, i: Uuid)
    requires FilesRecorded(m0, m, tx)
    requires m'.files == m.files && m'.parked == m.parked + {i}
    requires tx'.files == tx.files[i := None]
    ensures FilesRecorded(m0, m', tx')
  {
  }

  lemma RecordFiles(m0: Dir, m: Dir, tx: Tx, op: Op)
    requires FilesRecorded(m0, m, tx)
    ensures FilesRecorded(m0, Apply(m, op), Record(tx, op))
  {
    var m', tx' := Apply(m, op), Record(tx, op);
    match op
    case MkReg(_, _, f) => FileWritten(m0, m, tx, m', tx', f);
    case RmReg(_, _, f) => FileParked(m0, m, tx, m', tx', f.attrs.ino);
    case ChReg(f) => FileWritten(m0, m, tx, m', tx', f);
    case _ =>
  }

  /** An operation in its time is recorded faithfully, wherever the transaction began. */
  lemma RecordStep(m0: Dir, m: Dir, tx: Tx, op: Op)
    requires Blank(m) && Recorded(m0, m, tx) && Timely(m, op)
    ensures Blank(Apply(m, op)) && Recorded(m0, Apply(m, op), Record(tx, op))
    ensures SelfRecorded(m0, m, tx) && Steady(m, op) ==> SelfRecorded(m0, Apply(m, op), Record(tx, op))
  {
    RecordNames(m0, m, tx, op);
    RecordFiles(m0, m, tx, op);
  }

  /** A legal one never throws. */
  lemma LegalNeverFails(m0: Dir, m: Dir, tx: Tx, op: Op)
    requires WellFormed(m) && Recorded(m0, m, tx) && Legal(m, op)
    ensures Timely(m, op) && !Fails(tx, op)
  {
  }

  lemma ApplyKeepsForm(m: Dir, op: Op)
    requires WellFormed(m) && Legal(m, op)
    ensures WellFormed(Apply(m, op))
  {
  }

  /** The durable objects of a directory that was checkpointed up to state `m`. */
  ghost predicate Match(m: Dir, d: Durable) {
    match m.life
    case Alive =>
      && d.dentry == Some(m.names)
      && forall i :: i in m.files && i !in m.parked ==> i in d.files && d.files[i] == m.files[i]
    case _ => d.dentry == None && d.self == None
  }

  predicate SelfMatch(m: Dir, d: Durable) {
    m.life == Alive ==> d.self == m.self
  }

  /**
   * Checkpointing an overlay succeeds exactly when it makes or removes the directory or the directory is already
   * durable, and then brings the durable objects up to date.
   */
  lemma SyncStep(m0: Dir, m: Dir, tx: Tx, d: Durable)
    requires Blank(m0) && Blank(m) && Recorded(m0, m, tx) && Match(m0, d)
    ensures Sync(d, tx).None? <==> tx.status == Unchanged && m0.life != Alive
    ensures Sync(d, tx).Some? ==> Match(m, Sync(d, tx).value)
    ensures Sync(d, tx).Some? && SelfMatch(m0, d) && SelfRecorded(m0, m, tx) ==> SelfMatch(m, Sync(d, tx).value)
  {
  }

  predicate LegalAll(m: Dir, ops: seq<Op>)
    decreases |ops|
  {
    ops == [] || (Legal(m, ops[0]) && LegalAll(Apply(m, ops[0]), ops[1..]))
  }

  predicate TimelyAll(m: Dir, ops: seq<Op>)
    decreases |ops|
  {
    ops == [] || (Timely(m, ops[0]) && TimelyAll(Apply(m, ops[0]), ops[1..]))
  }

  predicate SteadyAll(m: Dir, ops: seq<Op>)
    decreases |ops|
  {
    ops == [] || (Steady(m, ops[0]) && SteadyAll(Apply(m, ops[0]), ops[1..]))
  }

  function ApplyAll(m: Dir, ops: seq<Op>): Dir
    decreases |ops|
  {
    if ops == [] then m else ApplyAll(Apply(m, ops[0]), ops[1..])
  }

  function RecordAll(tx: Tx, ops: seq<Op>): Tx
    decreases |ops|
  {
    if ops == [] then tx else RecordAll(Record(tx, ops[0]), ops[1..])
  }

  predicate FailsSomewhere(tx: Tx, ops: seq<Op>)
    decreases |ops|
  {
    ops != [] && (Fails(tx, ops[0]) || FailsSomewhere(Record(tx, ops[0]), ops[1..]))
  }

  /** A batch in its time is recorded faithfully. */
  lemma {:induction false} RecordBatch(m0: Dir, m: Dir, tx: Tx, ops: seq<Op>)
    requires Blank(m) && Recorded(m0, m, tx) && TimelyAll(m, ops)
    ensures Blank(ApplyAll(m, ops)) && Recorded(m0, ApplyAll(m, ops), RecordAll(tx, ops))
    ensures SelfRecorded(m0, m, tx) && SteadyAll(m, ops) ==> SelfRecorded(m0, ApplyAll(m, ops), RecordAll(tx, ops))
    decreases |ops|
  {
    if ops != [] {
      RecordStep(m0, m, tx, ops[0]);
      RecordBatch(m0, Apply(m, ops[0]), Record(tx, ops[0]), ops[1..]);
    }
  }

  /** A legal batch is recorded without a `logic_error`. */
  lemma {:induction false} LegalBatch(m0: Dir, m: Dir, tx: Tx, ops: seq<Op>)
    requires WellFormed(m) && Recorded(m0, m, tx) && LegalAll(m, ops)
    ensures TimelyAll(m, ops) && !FailsSomewhere(tx, ops) && WellFormed(ApplyAll(m, ops))
    decreases |ops|
  {
    if ops != [] {
      LegalNeverFails(m0, m, tx, ops[0]);
      RecordStep(m0, m, tx, ops[0]);
      ApplyKeepsForm(m, ops[0]);
      LegalBatch(m0, Apply(m, ops[0]), Record(tx, ops[0]), ops[1..]);
    }
  }

  lemma EmptyRecorded(m: Dir)
    ensures Recorded(m, m, EMPTY) && SelfRecorded(m, m, EMPTY)
  {
    assert Overlaid(m.names, map[]) == m.names;
  }

  /** The first operation on an unmade directory is `mkself`, and no later one makes the status `Unchanged` again. */
  lemma {:induction false} StatusSticks(m: Dir, tx: Tx, ops: seq<Op>)
    requires TimelyAll(m, ops) && (tx.status != Unchanged || (ops != [] && m.life != Alive))
    ensures RecordAll(tx, ops).status != Unchanged
    decreases |ops|
  {
    if ops != [] {
      StatusSticks(Apply(m, ops[0]), Record(tx, ops[0]), ops[1..]);
    }
  }

  /** Checkpoints of these overlays, in order; `None` once one of them throws. */
  function SyncTxs(d: Durable, txs: seq<Tx>): Option<Durable>
    decreases |txs|
  {
    if txs == [] then Some(d)
    else match Sync(d, txs[0])
      case None => None
      case Some(d') => SyncTxs(d', txs[1..])
  }

  /** The overlays of a cut stream. */
  function Overlays(cut: seq<seq<Op>>): seq<Tx> {
    if cut == [] then [] else [RecordAll(EMPTY, cut[0])] + Overlays(cut[1..])
  }

  /** Checkpoints of a cut stream, in order. */
  function SyncAll(d: Durable, cut: seq<seq<Op>>): Option<Durable> {
    SyncTxs(d, Overlays(cut))
  }

  lemma SyncAllStep(d: Durable, cut: seq<seq<Op>>)
    requires cut != []
    ensures SyncAll(d, cut) ==
            match Sync(d, RecordAll(EMPTY, cut[0])) { case None => None case Some(d') => SyncAll(d', cut[1..]) }
  {
    assert Overlays(cut)[1..] == Overlays(cut[1..]);
  }

  predicate TimelyCut(m: Dir, cut: seq<seq<Op>>)
    decreases |cut|
  {
    cut == [] || (TimelyAll(m, cut[0]) && TimelyCut(ApplyAll(m, cut[0]), cut[1..]))
  }

  function ApplyCut(m: Dir, cut: seq<seq<Op>>): Dir
    decreases |cut|
  {
    if cut == [] then m else ApplyCut(ApplyAll(m, cut[0]), cut[1..])
  }

  /** No transaction is empty while the directory is not alive. */
  predicate NoEarlyEmpty(m: Dir, cut: seq<seq<Op>>)
    decreases |cut|
  {
    cut == [] || ((cut[0] != [] || m.life == Alive) && NoEarlyEmpty(ApplyAll(m, cut[0]), cut[1..]))
  }

  /**
   * Every cut of a timely stream is checkpointed to the same directory, unless an empty transaction comes too early.
   */
  lemma {:induction false} CheckpointCut(m: Dir, d: Durable, cut: seq<seq<Op>>)
    requires Blank(m) && Match(m, d) && TimelyCut(m, cut)
    ensures SyncAll(d, cut).Some? <==> NoEarlyEmpty(m, cut)
    ensures SyncAll(d, cut).Some? ==> Match(ApplyCut(m, cut), SyncAll(d, cut).value)
    ensures SyncAll(d, cut).Some? && SelfMatch(m, d) && SteadyAll(m, Joined(cut)) ==>
              SelfMatch(ApplyCut(m, cut), SyncAll(d, cut).value)
    decreases |cut|
  {
    if cut != [] {
      EmptyRecorded(m);
      RecordBatch(m, m, EMPTY, cut[0]);
      SplitSteady(m, cut[0], Joined(cut[1..]));
      var m' := ApplyAll(m, cut[0]);
      var tx := RecordAll(EMPTY, cut[0]);
      SyncStep(m, m', tx, d);
      SyncAllStep(d, cut);
      if cut[0] != [] && m.life != Alive {
        StatusSticks(m, EMPTY, cut[0]);
      }
      if Sync(d, tx).Some? {
        CheckpointCut(m', Sync(d, tx).value, cut[1..]);
      }
    }
  }

  function Joined(cut: seq<seq<Op>>): seq<Op> {
    if cut == [] then [] else cut[0] + Joined(cut[1..])
  }

  lemma {:induction false} Split(m: Dir, a: seq<Op>, b: seq<Op>)
    ensures TimelyAll(m, a + b) <==> TimelyAll(m, a) && TimelyAll(ApplyAll(m, a), b)
    ensures ApplyAll(m, a + b) == ApplyAll(ApplyAll(m, a), b)
    decreases |a|
  {
    if a == [] {
      assert a + b == b;
    } else {
      assert (a + b)[0] == a[0] && (a + b)[1..] == a[1..] + b;
      Split(Apply(m, a[0]), a[1..], b);
    }
  }

  lemma {:induction false} SplitSteady(m: Dir, a: seq<Op>, b: seq<Op>)
    ensures SteadyAll(m, a + b) <==> SteadyAll(m, a) && SteadyAll(ApplyAll(m, a), b)
    decreases |a|
  {
    if a == [] {
      assert a + b == b;
    } else {
      assert (a + b)[0] == a[0] && (a + b)[1..] == a[1..] + b;
      SplitSteady(Apply(m, a[0]), a[1..], b);
    }
  }

  lemma {:induction false} CutIsStream(m: Dir, cut: seq<seq<Op>>)
    ensures TimelyCut(m, cut) <==> TimelyAll(m, Joined(cut))
    ensures ApplyCut(m, cut) == ApplyAll(m, Joined(cut))
    decreases |cut|
  {
    if cut != [] {
      Split(m, cut[0], Joined(cut[1..]));
      CutIsStream(ApplyAll(m, cut[0]), cut[1..]);
    }
  }

  /**
   * Batching independence: two cuts of the same timely stream leave the same DENTRY object, the same INODE for every
   * file whose last operation is not a removal and, when only `mkself` and `chself` change more than its times, the
   * same self INODE.
   */
  lemma BatchingIndependence(m: Dir, d: Durable, a: seq<seq<Op>>, b: seq<seq<Op>>)
    requires Blank(m) && Match(m, d)
    requires TimelyAll(m, Joined(a)) && Joined(a) == Joined(b)
    requires NoEarlyEmpty(m, a) && NoEarlyEmpty(m, b)
    ensures SyncAll(d, a).Some? && SyncAll(d, b).Some?
    ensures var da, db := SyncAll(d, a).value, SyncAll(d, b).value; var end := ApplyAll(m, Joined(a));
            && da.dentry == db.dentry
            && (SelfMatch(m, d) && SteadyAll(m, Joined(a)) ==> da.self == db.self)
            && (end.life == Alive ==>
                  forall i :: i in end.files && i !in end.parked ==>
                      i in da.files && i in db.files && da.files[i] == db.files[i])
  {
    CutIsStream(m, a);
    CutIsStream(m, b);
    CheckpointCut(m, d, a);
    CheckpointCut(m, d, b);
  }

  /** In a legal stream these are all the files still named. */
  lemma {:induction false} NamedFilesStay(m: Dir, ops: seq<Op>, n: Name)
    requires WellFormed(m) && LegalAll(m, ops)
    ensures WellFormed(ApplyAll(m, ops))
    ensures n in ApplyAll(m, ops).names ==> ApplyAll(m, ops).names[n] !in ApplyAll(m, ops).parked
    decreases |ops|
  {
    if ops != [] {
      ApplyKeepsForm(m, ops[0]);
      NamedFilesStay(Apply(m, ops[0]), ops[1..], n);
    }
  }

  /**
   * The early empty transaction is real: `get_entry` made it, the commit thread froze it before `mkself` was
   * recorded, and its checkpoint looks for a DENTRY object that the next transaction has yet to create.
   */
  lemma EarlyEmptyTransactionThrows(self: Inode)
    ensures var d := Durable(None, None, map[]);
            && TimelyCut(UNMADE, [[], [MkSelf(self)]]) && SyncAll(d, [[], [MkSelf(self)]]).None?
            && TimelyCut(UNMADE, [[MkSelf(self)]]) && SyncAll(d, [[MkSelf(self)]]).Some?
  {
    var d := Durable(None, None, map[]);
    var one := [[MkSelf(self)]];
    assert TimelyAll(UNMADE, [MkSelf(self)]);
    assert one[1..] == [];
    assert TimelyCut(UNMADE, one);
    assert [[], [MkSelf(self)]][1..] == one;
    assert RecordAll(EMPTY, [MkSelf(self)]) == Record(EMPTY, MkSelf(self));
    SyncAllStep(d, one);
    SyncAllStep(d, [[], [MkSelf(self)]]);
  }

  // What a transaction says, read off its history

  /** The last entry operation on a name. */
  function LastEntry(ops: seq<Op>, name: Name): Option<Entry> {
    if ops == [] then None
    else
      var op := ops[|ops| - 1];
      if EntryOp(op) && op.name == name then Some(EntryOf(op)) else LastEntry(ops[..|ops| - 1], name)
  }

  /** The last word on a file: its inode as written last, or that it was removed. */
  function LastFile(ops: seq<Op>, ino: Uuid): Option<Option<Inode>> {
    if ops == [] then None
    else
      var op := ops[|ops| - 1];
      if (op.MkReg? || op.ChReg?) && op.f.attrs.ino == ino then Some(Some(op.f))
      else if op.RmReg? && op.f.attrs.ino == ino then Some(None)
      else LastFile(ops[..|ops| - 1], ino)
  }

  lemma {:induction false} RecordAppend(tx: Tx, ops: seq<Op>, op: Op)
    ensures RecordAll(tx, ops + [op]) == Record(RecordAll(tx, ops), op)
    decreases |ops|
  {
    if ops == [] {
      assert [op][1..] == [] && ops + [op] == [op];
    } else {
      assert (ops + [op])[0] == ops[0] && (ops + [op])[1..] == ops[1..] + [op];
      RecordAppend(Record(tx, ops[0]), ops[1..], op);
    }
  }

  /** An overlay holds, for every name and every file, the last that was said of it. */
  lemma {:induction false} OverlayIsLastWord(ops: seq<Op>, name: Name, ino: Uuid)
    ensures var tx, last := RecordAll(EMPTY, ops), LastEntry(ops, name);
            (name in tx.dentries <==> last.Some?) && (last.Some? ==> tx.dentries[name] == last.value)
    ensures var tx, last := RecordAll(EMPTY, ops), LastFile(ops, ino);
            (ino in tx.files <==> last.Some?) && (last.Some? ==> tx.files[ino] == last.value)
    decreases |ops|
  {
    if ops != [] {
      var front, op := ops[..|ops| - 1], ops[|ops| - 1];
      assert ops == front + [op];
      RecordAppend(EMPTY, front, op);
      OverlayIsLastWord(front, name, ino);
    }
  }

  /**
   * Exactly when an operation meets a `logic_error`, by what its transaction was told before: it enters a name or a
   * file that was entered or written last, or removes one that was removed last.
   */
  lemma FailsByHistory(ops: seq<Op>, op: Op)
    ensures Fails(RecordAll(EMPTY, ops), op) <==>
            && EntryOp(op)
            && (var makes, last := op.MkDir? || op.MkReg?, LastEntry(ops, op.name);
                || (last.Some? && last.value.alive == makes)
                || (op.MkReg? && LastFile(ops, op.f.attrs.ino).Some? && LastFile(ops, op.f.attrs.ino).value.Some?)
                || (op.RmReg? && LastFile(ops, op.f.attrs.ino) == Some(None)))
  {
    if EntryOp(op) {
      OverlayIsLastWord(ops, op.name, if op.MkReg? || op.RmReg? then op.f.attrs.ino else op.ino);
    }
  }

  /** Within one transaction the entry operations refresh the times of the self inode and change nothing else of it. */
  lemma {:induction false} EntriesTouchTimes(tx: Tx, ops: seq<Op>)
    requires tx.self.Some? && forall k :: 0 <= k < |ops| ==> EntryOp(ops[k])
    ensures var self := RecordAll(tx, ops).self;
            && self.Some? && self.value.attrs == tx.self.value.attrs
            && (ops != [] ==>
                  && EntryOp(ops[|ops| - 1])
                  && self.value.mtime == ops[|ops| - 1].self.mtime && self.value.ctime == ops[|ops| - 1].self.ctime)
    decreases |ops|
  {
    if ops != [] {
      var front, op := ops[..|ops| - 1], ops[|ops| - 1];
      assert ops == front + [op];
      EntriesTouchTimes(tx, front);
      RecordAppend(tx, front, op);
    }
  }

  /**
   * That only `mkself` and `chself` change more than the times is needed for the self inode: a `chself` followed by an
   * entry operation whose copy of the inode has other attributes leaves those of the first in one cut, those of the
   * second in another.
   */
  lemma SelfDependsOnCut(d: Durable, a: Inode, b: Inode, name: Name, ino: Uuid)
    requires d.dentry.Some? && a.attrs != b.attrs
    ensures var one, two := [[ChSelf(a), MkDir(b, name, ino)]], [[ChSelf(a)], [MkDir(b, name, ino)]];
            && Joined(one) == Joined(two) && SyncAll(d, one).Some? && SyncAll(d, two).Some?
            && SyncAll(d, one).value.self == Some(a.(mtime := b.mtime, ctime := b.ctime))
            && SyncAll(d, two).value.self == Some(b)
  {
    var ch, mk := ChSelf(a), MkDir(b, name, ino);
    assert [ch] + [mk] == [ch, mk];
    RecordAppend(EMPTY, [ch], mk);
    RecordAppend(EMPTY, [], ch);
    RecordAppend(EMPTY, [], mk);
    assert [] + [ch] == [ch] && [] + [mk] == [mk];
    assert [[ch], [mk]][1..] == [[mk]] && [[mk]][1..] == [] && [[ch, mk]][1..] == [];
    SyncAllStep(d, [[ch, mk]]);
    SyncAllStep(d, [[ch], [mk]]);
    var d1 := Sync(d, Record(EMPTY, ch)).value;
    assert [[ch], [mk]][0] == [ch] && RecordAll(EMPTY, [ch]) == Record(EMPTY, ch);
    SyncAllStep(d1, [[mk]]);
    assert RecordAll(EMPTY, [mk]) == Record(EMPTY, mk);
  }

  /** `mvdir` and `mvreg` move one name and, if a file was there, forget it; nothing else changes. */
  lemma MoveMoves(base: map<Name, Uuid>, tx: Tx, self: Inode, src: Name, ino: Uuid, dst: Name, replaced: Option<Uuid>)
    ensures var tx' := Moved(tx, self, src, ino, dst, replaced);
            && Overlaid(base, tx'.dentries) == (Overlaid(base, tx.dentries) - {src})[dst := ino]
            && tx'.status == tx.status
            && tx'.self.Some?
            && tx'.self.value == (if tx.self.Some? then tx.self.value.(mtime := self.mtime, ctime := self.ctime)
                                  else self)
            && (forall i :: replaced != Some(i) ==> (i in tx'.files <==> i in tx.files))
            && (forall i :: replaced != Some(i) && i in tx.files ==> tx'.files[i] == tx.files[i])
            && (replaced.Some? ==> replaced.value in tx'.files && tx'.files[replaced.value] == None)
  {
    DropName(base, tx.dentries, src, ino);
    AddName(base, tx.dentries[src := Entry(false, ino)], dst, ino);
  }
}
