/**
 * The durable directories of the runs, in the bytes of the object store: what a checkpoint of a reachable transaction
 * does to all of them, and what a user finds once a directory is at rest.
 */
module DurableBytes {
  import opened Bytes
  import opened Transactions
  import opened Stages
  import opened RadosIo
  import opened InodeCodec
  import opened Checkpointing
  import opened WriteBack
  import DentryCodec
  import JournalFile
  import J = JournalRuns
  import C = JournalContents
  import F = WriteBackFiles
  import W = WriteBackRuns
  import S = WriteBackStreams

  // The transactions of reachable states are filed under their own numbers

  lemma TakenKeyed(tx: Tx, dir: Uuid, op: Op)
    requires Keyed(tx, dir) && Addressed(dir, op)
    ensures Keyed(Taken(tx, op), dir)
  {
  }

  lemma {:induction false} AllTakenKeyed(tx: Tx, dir: Uuid, ops: seq<Op>)
    requires Keyed(tx, dir) && AllAddressed(dir, ops)
    ensures Keyed(C.TakenAll(tx, ops), dir)
    decreases |ops|
  {
    if ops != [] {
      TakenKeyed(tx, dir, ops[0]);
      AllTakenKeyed(Taken(tx, ops[0]), dir, ops[1..]);
    }
  }

  lemma {:induction false} LogAddressed(log: seq<nat>, calls: seq<J.Call>, dir: Uuid)
    requires forall k :: 0 <= k < |log| && log[k] < |calls| ==> Addressed(dir, calls[log[k]].op)
    ensures AllAddressed(dir, C.OpsOf(log, calls))
  {
    if log != [] {
      LogAddressed(log[..|log| - 1], calls, dir);
    }
  }

  lemma ReachableKeyed(worlds: seq<World>, steps: seq<Step>, n: nat, t: nat)
    requires W.Run(worlds, steps) && n < |worlds| && t < |worlds[n].j.txs|
    ensures t < |worlds[n].j.line.dirs| && Keyed(worlds[n].j.txs[t].tx, worlds[n].j.line.dirs[t])
  {
    var w := worlds[n];
    S.RunKeeps(worlds, steps, n);
    var dir, log := w.j.line.dirs[t], w.j.txs[t].log;
    forall k | 0 <= k < |log| && log[k] < |w.j.calls|
      ensures Addressed(dir, w.j.calls[log[k]].op)
    {
      S.LogFacts(w, dir, t, k);
    }
    LogAddressed(log, w.j.calls, dir);
    AllTakenKeyed(EMPTY, dir, C.OpsOf(log, w.j.calls));
  }

  // A checkpoint, on all directories

  /** Every directory's objects say what the run says of it. */
  ghost predicate AllOnDisk(st: FlatStore, durable: map<Uuid, Durable>) {
    forall e :: e in durable ==> OnDisk(st, e, durable[e])
  }

  /** The inode files that checkpointing `tx` of `dir` writes belong to no other directory. */
  ghost predicate Apart(durable: map<Uuid, Durable>, dir: Uuid, tx: Tx) {
    forall e :: e in durable ==>
      && dir !in durable[e].files
      && (e != dir ==> e !in Carried(tx.files) && durable[e].files.Keys !! Carried(tx.files))
  }

  lemma OtherStays(st: FlatStore, st': FlatStore, dir: Uuid, tx: Tx, e: Uuid, d: Durable)
    requires OnDisk(st, e, d) && Only(st, st', Touched(dir, tx)) && e != dir
    requires dir !in d.files && e !in Carried(tx.files) && d.files.Keys !! Carried(tx.files)
    ensures OnDisk(st', e, d)
  {
    var fs := Touched(dir, tx);
    ApartFiles(dir, tx, e);
    DentryStays(st, st', fs, e, d.dentry);
    SelfStays(st, st', fs, e, d.self);
    forall i | i in d.files
      ensures InodeHeld(st', i, d.files[i])
    {
      InodeApart(dir, tx, i);
      InodeStays(st, st', fs, i, d.files[i]);
    }
  }

  /** An inode file that a checkpoint does not touch. */
  lemma InodeApart(dir: Uuid, tx: Tx, i: Uuid)
    requires i != dir && i !in Carried(tx.files)
    ensures InodeFile(i) !in Touched(dir, tx)
  {
    InodesApart(i, dir);
    CarriedApart(Carried(tx.files), i);
  }

  lemma ApartFiles(dir: Uuid, tx: Tx, e: Uuid)
    requires e != dir && e !in Carried(tx.files)
    ensures DentryCodec.DentryFile(e) !in Touched(dir, tx) && InodeFile(e) !in Touched(dir, tx)
  {
    InodeApart(dir, tx, e);
    DentriesApart(dir, e);
    KindsApart(e, Carried(tx.files));
  }

  lemma DentriesApart(a: Uuid, b: Uuid)
    requires a != b
    ensures DentryCodec.DentryFile(a) != DentryCodec.DentryFile(b)
  {
    InodesApart(a, b);
  }

  lemma AllStay(st: FlatStore, st': FlatStore, durable: map<Uuid, Durable>, dir: Uuid, tx: Tx, after: Durable)
    requires AllOnDisk(st, durable) && OnDisk(st', dir, after)
    requires Only(st, st', Touched(dir, tx)) && Apart(durable, dir, tx)
    ensures AllOnDisk(st', durable[dir := after])
  {
    forall e | e in durable && e != dir
      ensures OnDisk(st', e, durable[e])
    {
      OtherStays(st, st', dir, tx, e, durable[e]);
    }
  }

  /**
   * The checkpoint in the hands of thread `i`, on the store: it throws exactly when the step system has no `Finish`
   * step, and otherwise leaves every directory's objects as that step says.
   */
  method FinishOnStore(store: Store, i: nat, dir: Uuid, tx: Transaction, offset: nat, ghost j: J.State)
    returns (ok: bool)
    requires store.Valid() && i < NUM_CP_THREAD && i in j.line.hands && j.line.hands[i].id < |j.txs|
    requires j.line.hands[i].dir == dir && j.txs[j.line.hands[i].id].tx == tx.View() && Keyed(tx.View(), dir)
    requires AllOnDisk(store.flat, j.durable) && OnDisk(store.flat, dir, J.DurableOf(j, dir))
    requires Apart(j.durable, dir, tx.View())
    requires var after := Sync(J.DurableOf(j, dir), tx.View());
             after.Some? && after.value.dentry.Some? ==> ListFits(after.value.dentry.value)
    modifies store
    ensures store.Valid() && (ok <==> J.Enabled(j, J.Station(Finish(i))))
    ensures ok ==> AllOnDisk(store.flat, J.Take(j, J.Station(Finish(i))).durable)
  {
    ghost var st, d := store.flat, J.DurableOf(j, dir);
    W.FinishEnabled(j, i);
    ok := Checkpoint(store, dir, tx, offset, d);
    if ok {
      AllStay(st, store.flat, j.durable, dir, tx.View(), Sync(d, tx.View()).value);
    }
  }

  /**
   * What a user finds: once the checkpoint thread of a standing directory has ended, with nothing live and no call in
   * progress, loading the directory yields the entries of its LOCAL table.
   */
  method LoadAtRest(store: Store, d: Uuid, ghost worlds: seq<World>, ghost steps: seq<Step>, ghost n: nat)
    returns (r: Option<map<Name, Uuid>>)
    requires store.Valid() && W.Run(worlds, steps) && n < |worlds| && d in worlds[n].tables && W.Standing(worlds[n], d)
    requires Route(d) in worlds[n].j.line.finished && d !in worlds[n].j.line.live && PendingOf(worlds[n], d).None?
    requires OnDisk(store.flat, d, J.DurableOf(worlds[n].j, d))
    ensures r == Some(worlds[n].tables[d].children)
  {
    W.AtRestDurable(worlds, steps, n, d);
    r := DentryCodec.LoadDentry(store, d, worlds[n].tables[d].children);
  }

  /**
   * And the file that a client created in it and did not unlink: loading its inode yields one of the inodes given for
   * it since, the one it was created with if there is no other.
   */
  method LoadCreated(store: Store, d: Uuid, f: Inode, ghost worlds: seq<World>, ghost steps: seq<Step>, ghost n: nat,
                     ghost i: nat)
    returns (r: Option<Inode>)
    requires store.Valid() && F.CreatedAt(worlds, steps, n, d, i, f) && d !in worlds[n].rough
    requires W.Standing(worlds[n], d) && Route(d) in worlds[n].j.line.finished
    requires d !in worlds[n].j.line.live && d !in worlds[n].busy
    requires OnDisk(store.flat, d, J.DurableOf(worlds[n].j, d))
    requires forall g :: g in F.Given(steps[i..n], d, f.attrs.ino) ==> Typed(g)
    ensures r.Some? && r.value in F.Given(steps[i..n], d, f.attrs.ino)
    ensures (forall k :: i < k < n ==> F.GivenBy(steps[k], d, f.attrs.ino) == {}) ==> r == Some(f)
  {
    ghost var g := CreatedHeld(store.flat, d, f, worlds, steps, n, i);
    r := LoadInode(store, f.attrs.ino);
    assert r == Some(g);
  }

  lemma CreatedHeld(st: FlatStore, d: Uuid, f: Inode, worlds: seq<World>, steps: seq<Step>, n: nat, i: nat)
    returns (g: Inode)
    requires F.CreatedAt(worlds, steps, n, d, i, f) && d !in worlds[n].rough && W.Standing(worlds[n], d)
    requires Route(d) in worlds[n].j.line.finished && d !in worlds[n].j.line.live && d !in worlds[n].busy
    requires OnDisk(st, d, J.DurableOf(worlds[n].j, d))
    ensures InodeHeld(st, f.attrs.ino, g) && g in F.Given(steps[i..n], d, f.attrs.ino)
    ensures (forall k :: i < k < n ==> F.GivenBy(steps[k], d, f.attrs.ino) == {}) ==> g == f
  {
    F.TidyFilesDurable(worlds, steps, n, d, i, f);
    g := J.DurableOf(worlds[n].j, d).files[f.attrs.ino];
    if forall k :: i < k < n ==> F.GivenBy(steps[k], d, f.attrs.ino) == {} {
      F.GivenAlone(steps, d, i, n, f.attrs.ino);
    }
  }
}
