/**
 * One directory of the write-back cache: its LOCAL table, the operations its mutex holder still has to journal, and
 * its transactions in creation order, the first `done` of them checkpointed.
 */
module Lanes {
  import opened Bytes
  import opened Transactions
  import Batching

  /** The entries of a directory, `None` when it does not exist. */
  type Names = Option<map<Name, Uuid>>

  /** Operations journalled under the mutex of the directory's table; `chself` and `chreg` are not. */
  predicate Structural(op: Op) { !op.ChSelf? && !op.ChReg? }

  /** What an operation needs of the entries to have its plain effect: nothing is entered over an existing name. */
  predicate Doable(m: Names, op: Op) {
    match op
    case MkSelf(_) => m.None?
    case MkDir(_, name, _) => m.Some? && name !in m.value
    case MkReg(_, name, _) => m.Some? && name !in m.value
    case _ => m.Some?
  }

  /** What it needs to make sense: besides, what is entered is not there yet, and what is removed is. */
  predicate Lawful(m: Names, op: Op) {
    && Doable(m, op)
    && match op
       case RmSelf => m.value == map[]
       case MkDir(_, _, ino) => ino !in m.value.Values
       case RmDir(_, name, ino) => name in m.value && m.value[name] == ino
       case MkReg(_, _, f) => f.attrs.ino !in m.value.Values
       case RmReg(_, name, f) => name in m.value && m.value[name] == f.attrs.ino
       case _ => true
  }

  /** What it does to them; removing the directory leaves its table, which others may still hold, as it is. */
  function Effect(m: Names, op: Op): Names {
    match op
    case MkSelf(_) => Some(map[])
    case MkDir(_, name, ino) => if m.Some? then Some(m.value[name := ino]) else None
    case RmDir(_, name, _) => if m.Some? then Some(m.value - {name}) else None
    case MkReg(_, name, f) => if m.Some? then Some(m.value[name := f.attrs.ino]) else None
    case RmReg(_, name, _) => if m.Some? then Some(m.value - {name}) else None
    case _ => m
  }

  predicate DoableAll(m: Names, ops: seq<Op>)
    decreases |ops|
  {
    ops == [] || (Structural(ops[0]) && Doable(m, ops[0]) && DoableAll(Effect(m, ops[0]), ops[1..]))
  }

  predicate LawfulAll(m: Names, ops: seq<Op>)
    decreases |ops|
  {
    ops == [] || (Structural(ops[0]) && Lawful(m, ops[0]) && LawfulAll(Effect(m, ops[0]), ops[1..]))
  }

  ghost predicate Injective(m: Names) {
    m.Some? ==> forall a, b :: a in m.value && b in m.value && m.value[a] == m.value[b] ==> a == b
  }

  lemma EffectInjective(m: Names, op: Op)
    requires Injective(m) && Lawful(m, op)
    ensures Injective(Effect(m, op))
  {
  }

  // Overlays in order

  /** The entries after one overlay, whatever becomes of the directory. */
  function Kept(m: map<Name, Uuid>, tx: Tx): map<Name, Uuid> {
    Overlaid(m, tx.dentries)
  }

  /** The entries after a series of overlays. */
  function Live(m: map<Name, Uuid>, txs: seq<Tx>): map<Name, Uuid>
    decreases |txs|
  {
    if txs == [] then m else Live(Kept(m, txs[0]), txs[1..])
  }

  /** The DENTRY object after one checkpoint. */
  function Over(m: Names, tx: Tx): Names {
    match tx.status
    case Deleted => None
    case Created => Some(Overlaid(map[], tx.dentries))
    case Unchanged => if m.Some? then Some(Overlaid(m.value, tx.dentries)) else None
  }

  /** The DENTRY object after a series of checkpoints. */
  function Fold(m: Names, txs: seq<Tx>): Names
    decreases |txs|
  {
    if txs == [] then m else Fold(Over(m, txs[0]), txs[1..])
  }

  /** No structural operation was recorded here. */
  predicate Bare(tx: Tx) { tx.status == Unchanged && tx.dentries == map[] }

  /** A checkpoint changes the DENTRY object as `Over` says, and throws when there is none to change. */
  lemma SyncIsOver(d: Durable, tx: Tx)
    ensures Sync(d, tx).None? <==> d.dentry.None? && tx.status == Unchanged
    ensures Sync(d, tx).Some? ==> Sync(d, tx).value.dentry == Over(d.dentry, tx)
  {
  }

  lemma {:induction false} LiveSplit(m: map<Name, Uuid>, a: seq<Tx>, b: seq<Tx>)
    ensures Live(m, a + b) == Live(Live(m, a), b)
    decreases |a|
  {
    if a == [] {
      assert a + b == b;
    } else {
      assert (a + b)[0] == a[0] && (a + b)[1..] == a[1..] + b;
      LiveSplit(Kept(m, a[0]), a[1..], b);
    }
  }

  lemma {:induction false} FoldSplit(m: Names, a: seq<Tx>, b: seq<Tx>)
    ensures Fold(m, a + b) == Fold(Fold(m, a), b)
    decreases |a|
  {
    if a == [] {
      assert a + b == b;
    } else {
      assert (a + b)[0] == a[0] && (a + b)[1..] == a[1..] + b;
      FoldSplit(Over(m, a[0]), a[1..], b);
    }
  }

  lemma {:induction false} LiveBare(m: map<Name, Uuid>, txs: seq<Tx>)
    requires forall k :: 0 <= k < |txs| ==> txs[k].dentries == map[]
    ensures Live(m, txs) == m
    decreases |txs|
  {
    if txs != [] {
      assert Overlaid(m, map[]) == m;
      LiveBare(m, txs[1..]);
    }
  }

  /** Overlays of a directory that is there change its DENTRY object as they change its entries. */
  lemma {:induction false} FoldIsLive(m: map<Name, Uuid>, txs: seq<Tx>)
    requires forall k :: 0 <= k < |txs| ==> txs[k].status == Unchanged
    ensures Fold(Some(m), txs) == Some(Live(m, txs))
    decreases |txs|
  {
    if txs != [] {
      FoldIsLive(Kept(m, txs[0]), txs[1..]);
    }
  }

  lemma {:induction false} FoldNothing(txs: seq<Tx>)
    requires forall k :: 0 <= k < |txs| ==> txs[k] == EMPTY
    ensures Fold(None, txs) == None && Live(map[], txs) == map[]
    decreases |txs|
  {
    if txs != [] {
      assert Overlaid(map[], map[]) == map[];
      FoldNothing(txs[1..]);
    }
  }

  /** Recording an operation last in an overlay. */
  lemma KeptRecord(m: map<Name, Uuid>, tx: Tx, op: Op)
    requires !op.MkSelf?
    ensures Some(Kept(m, Record(tx, op))) == Effect(Some(Kept(m, tx)), op)
  {
    match op
    case MkDir(_, name, ino) => Batching.AddName(m, tx.dentries, name, ino);
    case RmDir(_, name, ino) => Batching.DropName(m, tx.dentries, name, ino);
    case MkReg(_, name, f) => Batching.AddName(m, tx.dentries, name, f.attrs.ino);
    case RmReg(_, name, f) => Batching.DropName(m, tx.dentries, name, f.attrs.ino);
    case RmSelf =>
    case ChSelf(_) =>
    case ChReg(_) =>
  }

  /** The overlaid entries tell which recorded entries are alive. */
  lemma KeptEntry(m: map<Name, Uuid>, tx: Tx, name: Name)
    requires name in tx.dentries
    ensures tx.dentries[name].alive <==> name in Kept(m, tx)
  {
  }

  lemma Around(txs: seq<Tx>, k: nat, tx: Tx)
    requires k < |txs|
    ensures txs == txs[..k] + ([txs[k]] + txs[k + 1..])
    ensures txs[k := tx] == txs[..k] + ([tx] + txs[k + 1..])
  {
  }

  lemma LiveTail(m: map<Name, Uuid>, a: seq<Tx>, tx: Tx, b: seq<Tx>)
    requires forall k :: 0 <= k < |b| ==> b[k].dentries == map[]
    ensures Live(m, a + ([tx] + b)) == Kept(Live(m, a), tx)
  {
    LiveSplit(m, a, [tx] + b);
    assert ([tx] + b)[1..] == b;
    LiveBare(Kept(Live(m, a), tx), b);
  }

  /** Recording an operation in overlay `k`, no entry having been recorded in a later overlay. */
  lemma LiveRecord(m: map<Name, Uuid>, txs: seq<Tx>, k: nat, op: Op)
    requires k < |txs| && !op.MkSelf? && forall u :: k < u < |txs| ==> Bare(txs[u])
    ensures Some(Live(m, txs[k := Record(txs[k], op)])) == Effect(Some(Live(m, txs)), op)
  {
    var tx', mid := Record(txs[k], op), Live(m, txs[..k]);
    Around(txs, k, tx');
    LiveTail(m, txs[..k], txs[k], txs[k + 1..]);
    LiveTail(m, txs[..k], tx', txs[k + 1..]);
    KeptRecord(mid, txs[k], op);
  }

  /** There the recorded entries are those of the whole series. */
  lemma LiveEntry(m: map<Name, Uuid>, txs: seq<Tx>, k: nat, name: Name)
    requires k < |txs| && name in txs[k].dentries && forall u :: k < u < |txs| ==> Bare(txs[u])
    ensures txs[k].dentries[name].alive <==> name in Live(m, txs)
  {
    Around(txs, k, txs[k]);
    LiveTail(m, txs[..k], txs[k], txs[k + 1..]);
    KeptEntry(Live(m, txs[..k]), txs[k], name);
  }

  /** What a removal leaves behind when it throws is, for the entries, what it would have done. */
  lemma LiveThrown(m: map<Name, Uuid>, txs: seq<Tx>, k: nat, op: Op)
    requires k < |txs| && (op.RmDir? || op.RmReg?) && Fails(txs[k], op) && forall u :: k < u < |txs| ==> Bare(txs[u])
    ensures Some(Live(m, txs[k := Thrown(txs[k], op)])) == Effect(Some(Live(m, txs)), op)
  {
    if Thrown(txs[k], op) == txs[k] {
      assert txs[k := txs[k]] == txs;
      LiveEntry(m, txs, k, op.name);
      assert Live(m, txs) - {op.name} == Live(m, txs);
    } else {
      Around(txs, k, Thrown(txs[k], op));
      LiveTail(m, txs[..k], txs[k], txs[k + 1..]);
      LiveTail(m, txs[..k], Thrown(txs[k], op), txs[k + 1..]);
      KeptRecord(Live(m, txs[..k]), txs[k], op);
    }
  }

  /** `chself` and `chreg` touch no entry and no status. */
  lemma {:induction false} LiveQuiet(m: map<Name, Uuid>, txs: seq<Tx>, k: nat, op: Op)
    requires k < |txs| && !Structural(op)
    ensures Live(m, txs[k := Record(txs[k], op)]) == Live(m, txs)
    decreases |txs|
  {
    if k > 0 {
      assert txs[k := Record(txs[k], op)][1..] == txs[1..][k - 1 := Record(txs[k], op)];
      LiveQuiet(Kept(m, txs[0]), txs[1..], k - 1, op);
    } else {
      assert txs[0 := Record(txs[0], op)][1..] == txs[1..];
    }
  }

  // The lane

  /**
   * `first` is the DENTRY object before the directory's first transaction, `names` are the entries as recorded so far,
   * `table` those of the LOCAL table, which runs ahead of them by the `pending` operation, whose call holds transaction
   * `hold`. `writers` are the files with a `chreg` in progress, `quiet` says whether any `chreg` or `chself` is. `made`
   * counts the retries of the `mkself` call, if there was one. The first `frozen` transactions are committed. `tidy`
   * says that every operation so far was lawful on the table it found.
   */
  datatype Lane = Lane(
    txs: seq<Tx>, frozen: nat, done: nat, first: Names, durable: Names,
    names: Names, table: Names,
    pending: Option<Op>, hold: Option<nat>, todo: seq<Op>,
    writers: set<Uuid>, quiet: bool, made: Option<nat>, tidy: bool)

  /** What the mutex holder has in hand and ahead of it. */
  function Series(l: Lane): seq<Op> {
    if l.pending.Some? then [l.pending.value] + l.todo else l.todo
  }

  predicate Makes(op: Op, i: Uuid) {
    (op.MkDir? && op.ino == i) || (op.MkReg? && op.f.attrs.ino == i)
  }

  predicate Removes(op: Op, i: Uuid) {
    op.RmReg? && op.f.attrs.ino == i
  }

  ghost predicate MakesSoon(series: seq<Op>, i: Uuid) {
    exists k :: 0 <= k < |series| && Makes(series[k], i)
  }

  /** A structural operation was recorded in a later transaction. */
  ghost predicate Buried(txs: seq<Tx>, u: nat) {
    exists w :: u < w < |txs| && !Bare(txs[w])
  }

  ghost predicate Unwritten(txs: seq<Tx>, i: Uuid) {
    forall u :: 0 <= u < |txs| ==> i !in txs[u].files
  }

  /** Wherever file `i` may still be recorded it does not stand as written. */
  ghost predicate Hushed(txs: seq<Tx>, i: Uuid) {
    forall u :: 0 <= u < |txs| && i in txs[u].files && txs[u].files[i].Some? ==> Buried(txs, u)
  }

  /** Wherever file `i` may still be recorded it does not stand as deleted. */
  ghost predicate Undeleted(txs: seq<Tx>, i: Uuid) {
    forall u :: 0 <= u < |txs| && i in txs[u].files && txs[u].files[i].None? ==> Buried(txs, u)
  }

  /** The inode number that operation `j` enters is new to this directory, or is taken out of it just before. */
  ghost predicate Ready(txs: seq<Tx>, writers: set<Uuid>, series: seq<Op>, j: nat)
    requires j < |series|
  {
    var op := series[j];
    && (op.MkDir? ==> Unwritten(txs, op.ino) && op.ino !in writers)
    && (op.MkReg? ==>
          && op.f.attrs.ino !in writers
          && (Hushed(txs, op.f.attrs.ino) || exists i :: 0 <= i < j && Removes(series[i], op.f.attrs.ino)))
  }

  ghost predicate AllReady(txs: seq<Tx>, writers: set<Uuid>, series: seq<Op>) {
    forall j :: 0 <= j < |series| ==> Ready(txs, writers, series, j)
  }

  ghost predicate HoldOk(l: Lane) {
    l.hold.Some? ==>
      && l.pending.Some? && l.hold.value < |l.txs|
      && (forall u :: l.hold.value < u < |l.txs| ==> Bare(l.txs[u]))
      && (l.pending.value.RmReg? && MakesSoon(l.todo, l.pending.value.f.attrs.ino) ==>
            forall u :: l.hold.value < u < |l.txs| ==> l.pending.value.f.attrs.ino !in l.txs[u].files)
  }

  predicate Making(l: Lane) { l.pending.Some? && l.pending.value.MkSelf? }

  predicate Planned(l: Lane) { |l.todo| == 1 && l.todo[0].MkSelf? }

  /** The entries a directory starts with. */
  function Root(first: Names): map<Name, Uuid> {
    if first.Some? then first.value else map[]
  }

  /**
   * Agreement: the overlays applied in order give the recorded entries, and the checkpointed ones the durable entries.
   */
  ghost predicate Agrees(l: Lane) {
    && l.done <= l.frozen <= |l.txs|
    && l.durable == Fold(l.first, l.txs[..l.done])
    && l.names == (if Making(l) || Planned(l) then None else Some(Live(Root(l.first), l.txs)))
    && (if l.pending.Some? then
          Structural(l.pending.value) && Doable(l.names, l.pending.value) && l.table == Effect(l.names, l.pending.value)
        else
          l.table == l.names)
    && DoableAll(l.table, l.todo)
  }

  /** A deletion of a file is recorded with that of a name. */
  ghost predicate DeletionsShow(txs: seq<Tx>) {
    forall u, i :: 0 <= u < |txs| && i in txs[u].files && txs[u].files[i].None? ==> !Bare(txs[u])
  }

  ghost predicate NamedFilesOk(txs: seq<Tx>, names: Names) {
    names.Some? ==> forall i :: i in names.value.Values ==> Undeleted(txs, i)
  }

  /** No two names for one inode, and no operation that takes the directory for what it is not. */
  ghost predicate TidyOk(l: Lane) {
    l.tidy ==>
      && Injective(l.names) && NamedFilesOk(l.txs, l.names)
      && (l.pending.Some? ==> Lawful(l.names, l.pending.value)) && LawfulAll(l.table, l.todo)
  }

  /** Operations come one at a time, except in a rename: one or two removals, then the new entry. */
  predicate Solo(series: seq<Op>) {
    |series| <= 1 || (series[|series| - 1].MkReg? && forall k :: 0 <= k < |series| - 1 ==> series[k].RmReg?)
  }

  /** Nobody else knows a directory before it is made. */
  ghost predicate LifeOk(l: Lane) {
    && Solo(Series(l))
    && (Making(l) || Planned(l) ==> !l.quiet && l.first.None?)
    && (l.first.None? <==> l.made.Some? || Planned(l))
  }

  /** While `mkself` is on its way its directory has only empty transactions, each but the held one given up. */
  ghost predicate MakingOk(l: Lane) {
    && (Planned(l) ==> l.txs == [] && l.made.None?)
    && (Making(l) ==>
          && l.made.Some? && l.done == 0
          && |l.txs| == l.made.value + (if l.hold.Some? then 1 else 0)
          && (l.hold.Some? ==> l.hold.value == |l.txs| - 1)
          && l.frozen >= l.made.value
          && forall u :: 0 <= u < |l.txs| ==> l.txs[u] == EMPTY)
  }

  predicate Late(made: Option<nat>) { made.Some? && made.value > 0 }

  /** A checkpointed transaction records that the directory was removed. */
  ghost predicate RemovedBefore(txs: seq<Tx>, n: nat) {
    exists u :: 0 <= u < n && u < |txs| && txs[u].status == Deleted
  }

  /**
   * The transactions of a directory made here: as many empty ones as `mkself` had to retry, then the one that records
   * it, then others. A directory that was there has only others.
   */
  ghost predicate StatusOk(txs: seq<Tx>, made: Option<nat>, frozen: nat) {
    var z := if made.Some? then made.value else 0;
    && (made.Some? ==> z < |txs| && z <= frozen && txs[z].status != Unchanged)
    && (forall u :: 0 <= u < z && u < |txs| ==> txs[u] == EMPTY)
    && (forall u :: 0 <= u < |txs| && (made.Some? ==> z < u) ==> txs[u].status != Created)
  }

  /** The DENTRY object is there from the checkpoint of `mkself` to that of `rmself`. */
  ghost predicate MadeOk(l: Lane) {
    !Making(l) && !Planned(l) ==>
      && StatusOk(l.txs, l.made, l.frozen)
      && (Late(l.made) ==> l.done == 0)
      && (l.durable.None? <==> (l.made.Some? && l.done == 0) || RemovedBefore(l.txs, l.done))
  }

  predicate Shape(l: Lane) {
    l.done <= l.frozen <= |l.txs| && (l.hold.Some? ==> l.pending.Some? && l.hold.value < |l.txs|)
  }

  ghost predicate LaneInv(l: Lane) {
    && Shape(l)
    && forall u {:trigger Unfold(u)} :: Unfold(u) && u == OfLanes ==>
         && Agrees(l) && DeletionsShow(l.txs) && AllReady(l.txs, l.writers, Series(l)) && HoldOk(l)
         && TidyOk(l) && LifeOk(l) && MakingOk(l) && MadeOk(l)
  }

  // Steps of the mutex holder

  /** An operation begins; the directory stays tidy if its plan is lawful on the table. */
  lemma BeginKeeps(l: Lane, plan: seq<Op>)
    requires LaneInv(l) && l.pending.None? && l.todo == [] && l.table.Some?
    requires DoableAll(l.table, plan) && AllReady(l.txs, l.writers, plan) && Solo(plan)
    requires !(|plan| == 1 && plan[0].MkSelf?)
    ensures LaneInv(l.(todo := plan, tidy := l.tidy && LawfulAll(l.table, plan)))
  {
    assert Unfold(OfLanes);
    var l' := l.(todo := plan, tidy := l.tidy && LawfulAll(l.table, plan));
    assert Agrees(l') && HoldOk(l') && TidyOk(l') && LifeOk(l');
    assert MakingOk(l') && MadeOk(l');
  }

  function Edited(l: Lane): Lane
    requires l.todo != []
  {
    var op := l.todo[0];
    l.(pending := Some(op), hold := None, todo := l.todo[1..], table := Effect(l.table, op),
       made := if op.MkSelf? then Some(0) else l.made)
  }

  lemma EditKeeps(l: Lane)
    requires LaneInv(l) && l.pending.None? && l.todo != []
    ensures LaneInv(Edited(l))
  {
    assert Unfold(OfLanes);
    assert Series(Edited(l)) == Series(l);
  }

  /** The call of the pending operation fetches the newest transaction, which is not frozen. */
  lemma FetchKeeps(l: Lane)
    requires LaneInv(l) && l.pending.Some? && l.hold.None? && l.frozen < |l.txs|
    ensures LaneInv(l.(hold := Some(|l.txs| - 1)))
  {
    assert Unfold(OfLanes);
  }

  /** A new transaction, which the call of the pending operation holds. */
  lemma GrowKeeps(l: Lane)
    requires LaneInv(l) && l.pending.Some? && l.hold.None?
    ensures LaneInv(l.(txs := l.txs + [EMPTY], hold := Some(|l.txs|)))
  {
    assert Unfold(OfLanes);
    var l' := l.(txs := l.txs + [EMPTY], hold := Some(|l.txs|));
    GrowAgrees(l);
    GrowFiles(l);
    GrowLife(l, l');
    GrowMade(l);
  }

  lemma GrowLife(l: Lane, l': Lane)
    requires l' == l.(txs := l.txs + [EMPTY], hold := Some(|l.txs|)) && l.pending.Some? && l.hold.None?
    requires LifeOk(l) && MakingOk(l)
    ensures Series(l') == Series(l) && LifeOk(l') && MakingOk(l') && HoldOk(l')
  {
  }

  lemma GrowAgrees(l: Lane)
    requires Agrees(l)
    ensures Live(Root(l.first), l.txs + [EMPTY]) == Live(Root(l.first), l.txs)
    ensures (l.txs + [EMPTY])[..l.done] == l.txs[..l.done]
  {
    LiveSplit(Root(l.first), l.txs, [EMPTY]);
    LiveBare(Live(Root(l.first), l.txs), [EMPTY]);
  }

  lemma GrowBuried(txs: seq<Tx>, u: nat)
    requires Buried(txs, u)
    ensures Buried(txs + [EMPTY], u)
  {
    var w :| u < w < |txs| && !Bare(txs[w]);
    assert !Bare((txs + [EMPTY])[w]);
  }

  lemma GrowFiles(l: Lane)
    requires DeletionsShow(l.txs) && AllReady(l.txs, l.writers, Series(l))
    ensures var txs := l.txs + [EMPTY];
            && DeletionsShow(txs) && AllReady(txs, l.writers, Series(l))
            && (NamedFilesOk(l.txs, l.names) ==> NamedFilesOk(txs, l.names))
  {
    forall u | 0 <= u && Buried(l.txs, u)
      ensures Buried(l.txs + [EMPTY], u)
    {
      GrowBuried(l.txs, u);
    }
    forall j | 0 <= j < |Series(l)|
      ensures Ready(l.txs + [EMPTY], l.writers, Series(l), j)
    {
      assert Ready(l.txs, l.writers, Series(l), j);
    }
  }

  lemma GrowMade(l: Lane)
    requires MadeOk(l) && l.done <= |l.txs|
    ensures MadeOk(l.(txs := l.txs + [EMPTY]))
    ensures forall h :: MadeOk(l.(txs := l.txs + [EMPTY], hold := h))
  {
    assert forall u :: 0 <= u < l.done ==> (l.txs + [EMPTY])[u] == l.txs[u];
    assert RemovedBefore(l.txs + [EMPTY], l.done) <==> RemovedBefore(l.txs, l.done);
  }

  /** The call finds its transaction frozen and starts over. */
  function Dropped(l: Lane): Lane {
    l.(hold := None, made := if Making(l) && l.made.Some? then Some(l.made.value + 1) else l.made)
  }

  lemma DropKeeps(l: Lane)
    requires LaneInv(l) && l.hold.Some? && l.hold.value < l.frozen
    ensures LaneInv(Dropped(l))
  {
    assert Unfold(OfLanes);
    assert Series(Dropped(l)) == Series(l);
  }

  /** The pending operation is recorded. */
  function Recorded(l: Lane): Lane
    requires l.pending.Some? && l.hold.Some? && l.hold.value < |l.txs|
  {
    var k := l.hold.value;
    l.(txs := l.txs[k := Record(l.txs[k], l.pending.value)], names := l.table, pending := None, hold := None)
  }

  /** It throws: the mutex is released with what has been done. */
  function Broken(l: Lane): Lane
    requires l.pending.Some? && l.hold.Some? && l.hold.value < |l.txs|
  {
    var k := l.hold.value;
    l.(txs := l.txs[k := Thrown(l.txs[k], l.pending.value)], names := l.table, pending := None, hold := None,
       todo := [])
  }

  /** This transaction already records that the name, or the file, was removed, and not that it came back. */
  predicate RemovedAlready(names: Names, tx: Tx, op: Op) {
    && (op.RmDir? || op.RmReg?)
    && (|| (names.Some? && op.name !in names.value && op.name in tx.dentries)
        || (op.RmReg? && op.f.attrs.ino in tx.files && tx.files[op.f.attrs.ino].None?))
  }

  /**
   * Exactly when the pending operation meets a `logic_error`: only a removal can, and only of what is removed already.
   */
  lemma FailsIff(l: Lane)
    requires LaneInv(l) && l.hold.Some? && l.frozen <= l.hold.value
    ensures Fails(l.txs[l.hold.value], l.pending.value) <==>
            RemovedAlready(l.names, l.txs[l.hold.value], l.pending.value)
  {
    assert Unfold(OfLanes);
    var k, op := l.hold.value, l.pending.value;
    assert !Buried(l.txs, k);
    assert Series(l)[0] == op && Ready(l.txs, l.writers, Series(l), 0);
    if EntryOp(op) && op.name in l.txs[k].dentries {
      LiveEntry(Root(l.first), l.txs, k, op.name);
    }
  }

  /** In a tidy directory nothing is removed twice. */
  lemma NeverFails(l: Lane)
    requires LaneInv(l) && l.tidy && l.hold.Some? && l.frozen <= l.hold.value
    ensures !Fails(l.txs[l.hold.value], l.pending.value)
  {
    assert Unfold(OfLanes);
    var k, op := l.hold.value, l.pending.value;
    FailsIff(l);
    assert !Buried(l.txs, k);
    if op.RmReg? {
      assert op.f.attrs.ino in l.names.value.Values && Undeleted(l.txs, op.f.attrs.ino);
    }
  }

  lemma RecordNotBare(tx: Tx, op: Op)
    requires Structural(op)
    ensures !Bare(Record(tx, op))
  {
    if EntryOp(op) {
      assert op.name in Record(tx, op).dentries;
    }
  }

  /** A structural record in `k` buries everything before it, and uncovers nothing. */
  lemma RecordBuries(txs: seq<Tx>, k: nat, op: Op, u: nat)
    requires k < |txs| && ((Structural(op) && u < k) || Buried(txs, u))
    ensures Buried(txs[k := Record(txs[k], op)], u)
  {
    var txs' := txs[k := Record(txs[k], op)];
    if Structural(op) && u < k {
      RecordNotBare(txs[k], op);
      assert !Bare(txs'[k]);
    } else {
      var w :| u < w < |txs| && !Bare(txs[w]);
      assert !Bare(txs'[w]);
    }
  }

  lemma RecordHushes(txs: seq<Tx>, k: nat, op: Op, i: Uuid)
    requires k < |txs| && Structural(op) && forall u :: k < u < |txs| ==> Bare(txs[u])
    requires (Removes(op, i) && forall u :: k < u < |txs| ==> i !in txs[u].files) || (Hushed(txs, i) && !Makes(op, i))
    ensures Hushed(txs[k := Record(txs[k], op)], i)
  {
    forall u | 0 <= u < |txs| && (u < k || Buried(txs, u))
      ensures Buried(txs[k := Record(txs[k], op)], u)
    {
      RecordBuries(txs, k, op, u);
    }
  }

  lemma RecordDeletions(txs: seq<Tx>, k: nat, op: Op)
    requires k < |txs| && Structural(op) && DeletionsShow(txs)
    ensures DeletionsShow(txs[k := Record(txs[k], op)])
  {
    RecordNotBare(txs[k], op);
  }

  lemma RecordUndeleted(txs: seq<Tx>, names: Names, k: nat, op: Op, i: Uuid)
    requires k < |txs| && Structural(op) && DeletionsShow(txs) && NamedFilesOk(txs, names)
    requires Lawful(names, op) && Injective(names)
    requires forall u :: k < u < |txs| ==> Bare(txs[u])
    requires op.MkDir? ==> Unwritten(txs, op.ino)
    requires Effect(names, op).Some? && i in Effect(names, op).value.Values
    ensures Undeleted(txs[k := Record(txs[k], op)], i)
  {
    var txs' := txs[k := Record(txs[k], op)];
    assert op.RmReg? ==> op.f.attrs.ino != i;
    forall u | 0 <= u < |txs'| && i in txs'[u].files && txs'[u].files[i].None?
      ensures Buried(txs', u)
    {
      assert i in txs[u].files && txs[u].files[i].None?;
      if u >= k {
        assert u == k;
        assert names.Some? && i in names.value.Values;
      }
      RecordBuries(txs, k, op, u);
    }
  }

  lemma RecordTidy(l: Lane)
    requires LaneInv(l) && l.hold.Some? && l.frozen <= l.hold.value
    ensures TidyOk(Recorded(l))
  {
    assert Unfold(OfLanes);
    if l.tidy {
      var k, op := l.hold.value, l.pending.value;
      EffectInjective(l.names, op);
      assert Series(l)[0] == op && Ready(l.txs, l.writers, Series(l), 0);
      if l.table.Some? {
        forall i | i in l.table.value.Values
          ensures Undeleted(Recorded(l).txs, i)
        {
          RecordUndeleted(l.txs, l.names, k, op, i);
        }
      }
    }
  }

  lemma RecordReady(l: Lane, j: nat)
    requires LaneInv(l) && l.hold.Some? && j < |l.todo|
    ensures Ready(Recorded(l).txs, l.writers, l.todo, j)
  {
    assert Unfold(OfLanes);
    var k, op, next, series := l.hold.value, l.pending.value, l.todo[j], Series(l);
    assert series[0] == op && series[j + 1] == next && Ready(l.txs, l.writers, series, j + 1);
    if next.MkReg? {
      var ino := next.f.attrs.ino;
      assert Makes(l.todo[j], ino) && MakesSoon(l.todo, ino);
      if Hushed(l.txs, ino) || Removes(op, ino) {
        RecordHushes(l.txs, k, op, ino);
      } else {
        var i :| 0 <= i < j + 1 && Removes(series[i], ino);
        assert l.todo[i - 1] == series[i];
      }
    }
  }

  /** A status that an operation other than `mkself` leaves. */
  lemma StatusKept(txs: seq<Tx>, made: Option<nat>, frozen: nat, done: nat, k: nat, tx: Tx)
    requires StatusOk(txs, made, frozen) && done <= frozen <= k < |txs|
    requires tx.status == txs[k].status || tx.status == Deleted
    ensures StatusOk(txs[k := tx], made, frozen)
    ensures RemovedBefore(txs[k := tx], done) <==> RemovedBefore(txs, done)
    ensures txs[k := tx][..done] == txs[..done]
  {
    assert forall u :: 0 <= u < done ==> txs[k := tx][u] == txs[u];
  }

  /** The status that `mkself` leaves. */
  lemma StatusMade(l: Lane)
    requires LaneInv(l) && l.hold.Some? && Making(l)
    ensures MadeOk(Recorded(l)) && Live(map[], Recorded(l).txs) == map[] && Recorded(l).txs[..0] == []
  {
    assert Unfold(OfLanes);
    LiveBare(map[], Recorded(l).txs);
  }

  lemma RecordAgrees(l: Lane)
    requires LaneInv(l) && l.hold.Some? && l.frozen <= l.hold.value
    ensures Agrees(Recorded(l)) && MadeOk(Recorded(l))
  {
    assert Unfold(OfLanes);
    var k, op := l.hold.value, l.pending.value;
    if Making(l) {
      StatusMade(l);
    } else {
      LiveRecord(Root(l.first), l.txs, k, op);
      StatusKept(l.txs, l.made, l.frozen, l.done, k, Record(l.txs[k], op));
    }
  }

  lemma RecordLife(l: Lane)
    requires LaneInv(l) && l.hold.Some?
    ensures LifeOk(Recorded(l)) && MakingOk(Recorded(l)) && !Making(Recorded(l)) && !Planned(Recorded(l))
  {
    assert Unfold(OfLanes);
    assert Series(l)[1..] == l.todo;
  }

  lemma RecordKeeps(l: Lane)
    requires LaneInv(l) && l.hold.Some? && l.frozen <= l.hold.value
    ensures LaneInv(Recorded(l))
  {
    assert Unfold(OfLanes);
    RecordLife(l);
    RecordAgrees(l);
    RecordDeletions(l.txs, l.hold.value, l.pending.value);
    RecordTidy(l);
    forall j | 0 <= j < |l.todo|
      ensures Ready(Recorded(l).txs, l.writers, l.todo, j)
    {
      RecordReady(l, j);
    }
  }

  lemma BrokenDeletions(txs: seq<Tx>, k: nat, op: Op)
    requires k < |txs| && DeletionsShow(txs) && (op.RmDir? || op.RmReg?)
    ensures DeletionsShow(txs[k := Thrown(txs[k], op)])
  {
    if Thrown(txs[k], op) != txs[k] {
      assert op.name in Thrown(txs[k], op).dentries;
    }
  }

  /** A removal that throws leaves a directory in which something was removed twice. */
  lemma BrokenKeeps(l: Lane)
    requires LaneInv(l) && l.hold.Some? && l.frozen <= l.hold.value && Fails(l.txs[l.hold.value], l.pending.value)
    ensures LaneInv(Broken(l))
  {
    assert Unfold(OfLanes);
    var k, op := l.hold.value, l.pending.value;
    FailsIff(l);
    if l.tidy {
      NeverFails(l);
    }
    LiveThrown(Root(l.first), l.txs, k, op);
    BrokenDeletions(l.txs, k, op);
    StatusKept(l.txs, l.made, l.frozen, l.done, k, Thrown(l.txs[k], op));
  }

  // Steps of others

  /** A `chreg` or `chself` begins; nobody else has the inode of a file being made or renamed. */
  lemma QuietStartKeeps(l: Lane, op: Op)
    requires LaneInv(l) && !Structural(op) && !Making(l) && !Planned(l)
    requires op.ChReg? ==> !MakesSoon(Series(l), op.f.attrs.ino)
    ensures LaneInv(l.(quiet := true, writers := l.writers + if op.ChReg? then {op.f.attrs.ino} else {}))
  {
    assert Unfold(OfLanes);
    var l' := l.(quiet := true, writers := l.writers + if op.ChReg? then {op.f.attrs.ino} else {});
    forall j | 0 <= j < |Series(l)|
      ensures Ready(l.txs, l'.writers, Series(l), j)
    {
      assert Ready(l.txs, l.writers, Series(l), j);
    }
  }

  /** Such calls end. */
  lemma QuietEndKeeps(l: Lane, writers: set<Uuid>, quiet: bool)
    requires LaneInv(l) && writers <= l.writers && (quiet ==> l.quiet)
    ensures LaneInv(l.(quiet := quiet, writers := writers))
  {
    assert Unfold(OfLanes);
    forall j | 0 <= j < |Series(l)|
      ensures Ready(l.txs, writers, Series(l), j)
    {
      assert Ready(l.txs, l.writers, Series(l), j);
    }
  }

  lemma QuietGrowKeeps(l: Lane)
    requires LaneInv(l) && l.quiet
    ensures LaneInv(l.(txs := l.txs + [EMPTY]))
  {
    assert Unfold(OfLanes);
    GrowAgrees(l);
    GrowFiles(l);
    GrowMade(l);
  }

  /** What a quiet record uncovers: nothing. */
  lemma QuietBuries(txs: seq<Tx>, k: nat, op: Op)
    requires k < |txs| && !Structural(op)
    ensures forall u: nat :: Buried(txs, u) ==> Buried(txs[k := Record(txs[k], op)], u)
  {
    forall u: nat | Buried(txs, u)
      ensures Buried(txs[k := Record(txs[k], op)], u)
    {
      RecordBuries(txs, k, op, u);
    }
  }

  lemma QuietRecordTidy(l: Lane, k: nat, op: Op)
    requires TidyOk(l) && DeletionsShow(l.txs) && k < |l.txs| && !Structural(op)
    ensures var txs := l.txs[k := Record(l.txs[k], op)]; TidyOk(l.(txs := txs)) && DeletionsShow(txs)
  {
    QuietBuries(l.txs, k, op);
  }

  lemma QuietRecordReady(l: Lane, k: nat, op: Op)
    requires AllReady(l.txs, l.writers, Series(l)) && k < |l.txs| && !Structural(op)
    requires op.ChReg? ==> op.f.attrs.ino in l.writers
    ensures AllReady(l.txs[k := Record(l.txs[k], op)], l.writers, Series(l))
  {
    var txs := l.txs[k := Record(l.txs[k], op)];
    QuietBuries(l.txs, k, op);
    forall j | 0 <= j < |Series(l)|
      ensures Ready(txs, l.writers, Series(l), j)
    {
      assert Ready(l.txs, l.writers, Series(l), j);
    }
  }

  lemma QuietRecordHold(l: Lane, k: nat, op: Op)
    requires AllReady(l.txs, l.writers, Series(l)) && HoldOk(l) && k < |l.txs| && !Structural(op)
    requires op.ChReg? ==> op.f.attrs.ino in l.writers
    ensures HoldOk(l.(txs := l.txs[k := Record(l.txs[k], op)]))
  {
    if l.hold.Some? && l.pending.value.RmReg? && MakesSoon(l.todo, l.pending.value.f.attrs.ino) {
      var j :| 0 <= j < |l.todo| && Makes(l.todo[j], l.pending.value.f.attrs.ino);
      assert Series(l)[j + 1] == l.todo[j] && Ready(l.txs, l.writers, Series(l), j + 1);
    }
  }

  lemma QuietRecordKeeps(l: Lane, k: nat, op: Op)
    requires LaneInv(l) && l.frozen <= k < |l.txs| && !Structural(op) && l.quiet
    requires op.ChReg? ==> op.f.attrs.ino in l.writers
    ensures LaneInv(l.(txs := l.txs[k := Record(l.txs[k], op)]))
  {
    assert Unfold(OfLanes);
    QuietRecordTidy(l, k, op);
    QuietRecordReady(l, k, op);
    QuietRecordHold(l, k, op);
    LiveQuiet(Root(l.first), l.txs, k, op);
    StatusKept(l.txs, l.made, l.frozen, l.done, k, Record(l.txs[k], op));
  }

  lemma FreezeKeeps(l: Lane)
    requires LaneInv(l) && l.frozen < |l.txs|
    ensures LaneInv(l.(frozen := l.frozen + 1))
  {
    assert Unfold(OfLanes);
  }

  function Finished(l: Lane): Lane
    requires l.done < |l.txs|
  {
    l.(done := l.done + 1, durable := Over(l.durable, l.txs[l.done]))
  }

  lemma FinishKeeps(l: Lane)
    requires LaneInv(l) && l.done < l.frozen && !(l.durable.None? && l.txs[l.done].status == Unchanged)
    ensures LaneInv(Finished(l))
  {
    assert Unfold(OfLanes);
    FinishFold(l.first, l.txs, l.done);
    FinishMade(l);
    FinishRest(l);
    assert Agrees(Finished(l));
  }

  lemma FinishRest(l: Lane)
    requires l.done < |l.txs| && HoldOk(l) && TidyOk(l) && LifeOk(l) && MakingOk(l) && !Making(l)
    ensures var l' := Finished(l); Series(l') == Series(l) && HoldOk(l') && TidyOk(l') && LifeOk(l') && MakingOk(l')
  {
  }

  lemma FinishFold(first: Names, txs: seq<Tx>, done: nat)
    requires done < |txs|
    ensures Fold(first, txs[..done + 1]) == Over(Fold(first, txs[..done]), txs[done])
  {
    assert txs[..done + 1] == txs[..done] + [txs[done]];
    FoldSplit(first, txs[..done], [txs[done]]);
  }

  lemma FinishMade(l: Lane)
    requires Shape(l) && MadeOk(l) && MakingOk(l) && (Planned(l) ==> l.txs == [])
    requires l.done < l.frozen && !(l.durable.None? && l.txs[l.done].status == Unchanged)
    requires Making(l) ==> l.durable.None?
    ensures MadeOk(Finished(l)) && !Making(l) && !Planned(l)
  {
    if l.txs[l.done].status == Deleted {
      assert RemovedBefore(l.txs, l.done + 1);
    } else {
      assert RemovedBefore(l.txs, l.done + 1) <==> RemovedBefore(l.txs, l.done);
    }
  }

  /**
   * Exactly when the next checkpoint throws: `mkself` missed the first transaction, or a removal of the directory is
   * checkpointed and this transaction is not one.
   */
  lemma ThrowsIff(l: Lane)
    requires LaneInv(l) && l.done < l.frozen
    ensures l.durable.None? && l.txs[l.done].status == Unchanged <==>
            Making(l) || Late(l.made) || (RemovedBefore(l.txs, l.done) && l.txs[l.done].status != Deleted)
  {
    assert Unfold(OfLanes);
    if Making(l) {
      assert l.txs[..0] == [];
    }
  }

  /** No transaction records that the directory was removed. */
  predicate Standing(txs: seq<Tx>) {
    forall u :: 0 <= u < |txs| ==> txs[u].status != Deleted
  }

  lemma StandingFold(first: Names, txs: seq<Tx>, made: Option<nat>, frozen: nat)
    requires StatusOk(txs, made, frozen) && Standing(txs) && (first.None? <==> made.Some?)
    ensures Fold(first, txs) == Some(Live(Root(first), txs))
  {
    if made.None? {
      FoldIsLive(first.value, txs);
    } else {
      var z := made.value;
      Around(txs, z, txs[z]);
      var front, rest := txs[..z], txs[z + 1..];
      FoldNothing(front);
      FoldSplit(None, front, [txs[z]] + rest);
      LiveSplit(map[], front, [txs[z]] + rest);
      assert ([txs[z]] + rest)[1..] == rest;
      FoldIsLive(Overlaid(map[], txs[z].dentries), rest);
    }
  }

  /** While the directory stands, its durable entries with the waiting overlays are the recorded ones. */
  lemma WaitingAgrees(l: Lane)
    requires LaneInv(l) && Standing(l.txs)
    ensures l.done <= |l.txs| && Fold(l.durable, l.txs[l.done..]) == l.names
    ensures l.pending.None? ==> l.names == l.table
    ensures l.pending.Some? ==> Doable(l.names, l.pending.value) && l.table == Effect(l.names, l.pending.value)
  {
    assert Unfold(OfLanes);
    FoldSplit(l.first, l.txs[..l.done], l.txs[l.done..]);
    assert l.txs[..l.done] + l.txs[l.done..] == l.txs;
    if Making(l) || Planned(l) {
      FoldNothing(l.txs);
    } else {
      StandingFold(l.first, l.txs, l.made, l.frozen);
    }
  }

  /**
   * Entering an existing name is what no table survives: the operation meets a `logic_error`, or the overlay takes
   * the new inode where the table keeps the old one.
   */
  lemma ClashDisagrees(m: map<Name, Uuid>, tx: Tx, op: Op)
    requires (op.MkReg? || op.MkDir?) && op.name in Kept(m, tx)
    requires Kept(m, tx)[op.name] != if op.MkReg? then op.f.attrs.ino else op.ino
    ensures Fails(tx, op) || Kept(m, Record(tx, op)) != Kept(m, tx)
  {
    KeptRecord(m, tx, op);
    assert Kept(m, Record(tx, op))[op.name] == if op.MkReg? then op.f.attrs.ino else op.ino;
  }
}
