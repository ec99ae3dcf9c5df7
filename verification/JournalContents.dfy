/**
 * What the journal makes durable: every transaction is the squash of the calls in its log, and the durable directory
 * is the checkpoint, in order, of the operations of its finished transactions - a cut of the stream of calls.
 */
module JournalContents {
  import opened Bytes
  import opened Transactions
  import opened Stages
  import Batching
  import J = JournalRuns

  /** The operations of a log, in order. */
  function OpsOf(log: seq<nat>, calls: seq<J.Call>): seq<Op> {
    if log == [] then []
    else
      var c := log[|log| - 1];
      OpsOf(log[..|log| - 1], calls) + if c < |calls| then [calls[c].op] else []
  }

  /** An overlay after these operations, some of which may have thrown. */
  function TakenAll(tx: Tx, ops: seq<Op>): Tx
    decreases |ops|
  {
    if ops == [] then tx else TakenAll(Taken(tx, ops[0]), ops[1..])
  }

  /** Every overlay is the squash of its log. */
  ghost predicate Squashed(txs: seq<J.Rec>, calls: seq<J.Call>) {
    forall t :: 0 <= t < |txs| ==> txs[t].tx == TakenAll(EMPTY, OpsOf(txs[t].log, calls))
  }

  /** The overlays of these transactions. */
  function TxsIn(ids: seq<nat>, txs: seq<J.Rec>): seq<Tx> {
    if ids == [] then []
    else
      var t := ids[|ids| - 1];
      TxsIn(ids[..|ids| - 1], txs) + [if t < |txs| then txs[t].tx else EMPTY]
  }

  /** The operations of these transactions, one batch each. */
  function CutOf(ids: seq<nat>, txs: seq<J.Rec>, calls: seq<J.Call>): seq<seq<Op>> {
    if ids == [] then []
    else
      var t := ids[|ids| - 1];
      CutOf(ids[..|ids| - 1], txs, calls) + [if t < |txs| then OpsOf(txs[t].log, calls) else []]
  }

  /** The finished transactions of `d` lead from the first durable state to the present one. */
  ghost predicate Synced(first: map<Uuid, Durable>, s: J.State, d: Uuid) {
    Batching.SyncTxs(DurableIn(first, d), TxsIn(DoneOf(s.line, d), s.txs)) == Some(DurableIn(s.durable, d))
  }

  /** A log none of whose calls threw. */
  ghost predicate Smooth(log: seq<nat>, threw: set<nat>) {
    forall k :: 0 <= k < |log| ==> log[k] !in threw
  }

  /** What threw is marked. */
  ghost predicate Marked(txs: seq<J.Rec>, calls: seq<J.Call>, threw: set<nat>) {
    forall t :: 0 <= t < |txs| && Smooth(txs[t].log, threw) ==>
      !Batching.FailsSomewhere(EMPTY, OpsOf(txs[t].log, calls))
  }

  /** Nothing on directory `d` threw. */
  ghost predicate NoneThrew(s: J.State, d: Uuid) {
    forall c :: c in s.threw && c < |s.calls| ==> s.calls[c].dir != d
  }

  /** Nothing threw that is recorded in these transactions. */
  ghost predicate Unthrown(ids: seq<nat>, txs: seq<J.Rec>, calls: seq<J.Call>) {
    forall k :: 0 <= k < |ids| && ids[k] < |txs| ==> !Batching.FailsSomewhere(EMPTY, OpsOf(txs[ids[k]].log, calls))
  }

  ghost predicate Inv(first: map<Uuid, Durable>, s: J.State) {
    && J.Inv(s) && J.Settled(s.line, s.txs) && Squashed(s.txs, s.calls) && Marked(s.txs, s.calls, s.threw)
    && forall d {:trigger Watch(d)} :: Watch(d) ==> Synced(first, s, d)
  }

  // Appending

  lemma {:induction false} TakenAppend(tx: Tx, ops: seq<Op>, op: Op)
    ensures TakenAll(tx, ops + [op]) == Taken(TakenAll(tx, ops), op)
    decreases |ops|
  {
    if ops == [] {
      assert [op][1..] == [] && ops + [op] == [op];
    } else {
      assert (ops + [op])[0] == ops[0] && (ops + [op])[1..] == ops[1..] + [op];
      TakenAppend(Taken(tx, ops[0]), ops[1..], op);
    }
  }

  /** Where nothing throws, taking is recording. */
  lemma {:induction false} TakenRecorded(tx: Tx, ops: seq<Op>)
    requires !Batching.FailsSomewhere(tx, ops)
    ensures TakenAll(tx, ops) == Batching.RecordAll(tx, ops)
    decreases |ops|
  {
    if ops != [] {
      TakenRecorded(Record(tx, ops[0]), ops[1..]);
    }
  }

  lemma {:induction false} FailsAppend(tx: Tx, ops: seq<Op>, op: Op)
    ensures Batching.FailsSomewhere(tx, ops + [op]) <==>
            Batching.FailsSomewhere(tx, ops) || Fails(Batching.RecordAll(tx, ops), op)
    decreases |ops|
  {
    if ops == [] {
      assert [op][1..] == [] && ops + [op] == [op];
    } else {
      assert (ops + [op])[0] == ops[0] && (ops + [op])[1..] == ops[1..] + [op];
      FailsAppend(Record(tx, ops[0]), ops[1..], op);
    }
  }

  lemma {:induction false} SyncAppend(d: Durable, txs: seq<Tx>, tx: Tx)
    requires Batching.SyncTxs(d, txs).Some?
    ensures Batching.SyncTxs(d, txs + [tx]) == Sync(Batching.SyncTxs(d, txs).value, tx)
    decreases |txs|
  {
    if txs == [] {
      assert txs + [tx] == [tx] && [tx][1..] == [];
    } else {
      assert (txs + [tx])[0] == txs[0] && (txs + [tx])[1..] == txs[1..] + [tx];
      SyncAppend(Sync(d, txs[0]).value, txs[1..], tx);
    }
  }

  lemma {:induction false} OverlaysAppend(cut: seq<seq<Op>>, ops: seq<Op>)
    ensures Batching.Overlays(cut + [ops]) == Batching.Overlays(cut) + [Batching.RecordAll(EMPTY, ops)]
  {
    if cut == [] {
      assert cut + [ops] == [ops] && [ops][1..] == [];
    } else {
      assert (cut + [ops])[0] == cut[0] && (cut + [ops])[1..] == cut[1..] + [ops];
      OverlaysAppend(cut[1..], ops);
    }
  }

  /** Transactions in which nothing threw are the overlays of their logs. */
  lemma {:induction false} CutOverlays(ids: seq<nat>, txs: seq<J.Rec>, calls: seq<J.Call>)
    requires Squashed(txs, calls) && Unthrown(ids, txs, calls) && forall k :: 0 <= k < |ids| ==> ids[k] < |txs|
    ensures Batching.Overlays(CutOf(ids, txs, calls)) == TxsIn(ids, txs)
  {
    if ids != [] {
      var front, ops := ids[..|ids| - 1], OpsOf(txs[ids[|ids| - 1]].log, calls);
      CutOverlays(front, txs, calls);
      TakenRecorded(EMPTY, ops);
      OverlaysAppend(CutOf(front, txs, calls), ops);
    }
  }

  lemma {:induction false} OpsStay(log: seq<nat>, calls: seq<J.Call>, more: seq<J.Call>)
    requires forall k :: 0 <= k < |log| ==> log[k] < |calls|
    ensures OpsOf(log, calls + more) == OpsOf(log, calls)
  {
    if log != [] {
      OpsStay(log[..|log| - 1], calls, more);
    }
  }

  lemma OpsPush(log: seq<nat>, c: nat, calls: seq<J.Call>)
    requires c < |calls|
    ensures OpsOf(log + [c], calls) == OpsOf(log, calls) + [calls[c].op]
  {
    assert (log + [c])[..|log|] == log;
  }

  lemma {:induction false} TxsStay(ids: seq<nat>, txs: seq<J.Rec>, txs': seq<J.Rec>)
    requires forall k :: 0 <= k < |ids| ==> ids[k] < |txs| && ids[k] < |txs'| && txs'[ids[k]].tx == txs[ids[k]].tx
    ensures TxsIn(ids, txs') == TxsIn(ids, txs)
  {
    if ids != [] {
      TxsStay(ids[..|ids| - 1], txs, txs');
    }
  }

  lemma CutPush(ids: seq<nat>, t: nat, txs: seq<J.Rec>, calls: seq<J.Call>)
    requires t < |txs|
    ensures CutOf(ids + [t], txs, calls) == CutOf(ids, txs, calls) + [OpsOf(txs[t].log, calls)]
    ensures TxsIn(ids + [t], txs) == TxsIn(ids, txs) + [txs[t].tx]
  {
    assert (ids + [t])[..|ids|] == ids;
  }

  // Steps

  /** Finished transactions are frozen ones of their directory. */
  lemma DoneFrozen(s: J.State, d: Uuid, k: nat)
    requires J.Inv(s) && J.Settled(s.line, s.txs) && k < |DoneOf(s.line, d)|
    ensures DoneOf(s.line, d)[k] < |s.txs| && s.txs[DoneOf(s.line, d)[k]].committed
  {
    var l := s.line;
    assert Watch(d);
    Ends(l, d);
    assert Ids(l.dirs, d)[k] == DoneOf(l, d)[k];
    IdInRange(l.dirs, d, k);
    var t := Ids(l.dirs, d)[k];
    RankIs(l.dirs, d, t);
    IdsDistinct(l.dirs, d, k, Rank(l.dirs, d, t));
    J.FrozenIff(l, s.txs, t);
  }

  lemma LogInRange(s: J.State, t: nat)
    requires J.Inv(s) && t < |s.txs|
    ensures forall k :: 0 <= k < |s.txs[t].log| ==> s.txs[t].log[k] < |s.calls|
  {
    assert Unfold(OfPlaces);
  }

  /** Whatever leaves frozen transactions, finished lists and durable objects alone. */
  lemma SyncedStays(first: map<Uuid, Durable>, s: J.State, s': J.State, d: Uuid)
    requires J.Inv(s) && J.Settled(s.line, s.txs) && Synced(first, s, d) && J.Extends(s, s')
    requires DoneOf(s'.line, d) == DoneOf(s.line, d) && DurableIn(s'.durable, d) == DurableIn(s.durable, d)
    ensures Synced(first, s', d)
  {
    assert Unfold(OfHistory);
    var ids := DoneOf(s.line, d);
    forall k | 0 <= k < |ids|
      ensures ids[k] < |s.txs| && ids[k] < |s'.txs| && s'.txs[ids[k]].tx == s.txs[ids[k]].tx
    {
      DoneFrozen(s, d, k);
    }
    TxsStay(ids, s.txs, s'.txs);
  }

  lemma FinishSynced(first: map<Uuid, Durable>, s: J.State, i: nat, d: Uuid)
    requires Inv(first, s) && J.Enabled(s, J.Station(Finish(i)))
    ensures Synced(first, J.Take(s, J.Station(Finish(i))), d)
  {
    assert Watch(d);
    var s', r := J.Take(s, J.Station(Finish(i))), s.line.hands[i];
    if r.dir == d {
      CutPush(DoneOf(s.line, d), r.id, s.txs, s.calls);
      SyncAppend(DurableIn(first, d), TxsIn(DoneOf(s.line, d), s.txs), s.txs[r.id].tx);
      assert DoneOf(s'.line, d) == DoneOf(s.line, d) + [r.id];
      assert s'.txs == s.txs;
    } else {
      J.StationExtends(s, Finish(i));
      SyncedStays(first, s, s', d);
    }
  }

  lemma OtherSynced(first: map<Uuid, Durable>, s: J.State, step: J.Step, d: Uuid)
    requires Inv(first, s) && J.Enabled(s, step) && !(step.Station? && step.move.Finish?)
    ensures Synced(first, J.Take(s, step), d)
  {
    assert Watch(d);
    J.StepExtends(s, step);
    DoneStays(s, step, d);
    SyncedStays(first, s, J.Take(s, step), d);
  }

  lemma DoneStays(s: J.State, step: J.Step, d: Uuid)
    requires J.Enabled(s, step) && !(step.Station? && step.move.Finish?)
    ensures DoneOf(J.Take(s, step).line, d) == DoneOf(s.line, d) && J.Take(s, step).durable == s.durable
  {
    if step.Station? {
      J.StationFrame(s, step.move);
    } else if step.Enter? {
      J.EnterFrame(s, step.call);
    }
  }

  lemma LogSquashed(txs: seq<J.Rec>, calls: seq<J.Call>, t: nat, c: nat)
    requires Squashed(txs, calls) && t < |txs| && c < |calls|
    ensures Squashed(txs[t := txs[t].(tx := Taken(txs[t].tx, calls[c].op), log := txs[t].log + [c])], calls)
  {
    OpsPush(txs[t].log, c, calls);
    TakenAppend(EMPTY, OpsOf(txs[t].log, calls), calls[c].op);
  }

  /** The call that goes into a log marks it, if it throws. */
  lemma LogMarked(txs: seq<J.Rec>, calls: seq<J.Call>, threw: set<nat>, t: nat, c: nat)
    requires Squashed(txs, calls) && Marked(txs, calls, threw) && t < |txs| && c < |calls|
    ensures Marked(txs[t := txs[t].(tx := Taken(txs[t].tx, calls[c].op), log := txs[t].log + [c])], calls,
                   if Fails(txs[t].tx, calls[c].op) then threw + {c} else threw)
  {
    var log, op := txs[t].log, calls[c].op;
    var threw' := if Fails(txs[t].tx, op) then threw + {c} else threw;
    var ops := OpsOf(log, calls);
    OpsPush(log, c, calls);
    FailsAppend(EMPTY, ops, op);
    if Smooth(log + [c], threw') {
      assert (log + [c])[|log|] == c && forall k :: 0 <= k < |log| ==> (log + [c])[k] == log[k];
      TakenRecorded(EMPTY, ops);
    }
  }

  lemma StartSquashed(s: J.State, call: J.Call)
    requires J.Inv(s) && Squashed(s.txs, s.calls) && Marked(s.txs, s.calls, s.threw)
    ensures Squashed(s.txs, s.calls + [call]) && Marked(s.txs, s.calls + [call], s.threw)
  {
    forall t | 0 <= t < |s.txs|
      ensures OpsOf(s.txs[t].log, s.calls + [call]) == OpsOf(s.txs[t].log, s.calls)
    {
      LogInRange(s, t);
      OpsStay(s.txs[t].log, s.calls, [call]);
    }
  }

  lemma CreateSquashed(txs: seq<J.Rec>, calls: seq<J.Call>)
    requires Squashed(txs, calls)
    ensures Squashed(txs + [J.Rec(false, EMPTY, [])], calls)
    ensures forall threw :: Marked(txs, calls, threw) ==> Marked(txs + [J.Rec(false, EMPTY, [])], calls, threw)
  {
  }

  lemma StationSquashed(s: J.State, m: Move)
    requires Squashed(s.txs, s.calls) && Marked(s.txs, s.calls, s.threw) && J.Enabled(s, J.Station(m))
    ensures var s' := J.Take(s, J.Station(m)); Squashed(s'.txs, s'.calls) && Marked(s'.txs, s'.calls, s'.threw)
  {
    J.StationFrame(s, m);
  }

  lemma StepSquashed(s: J.State, step: J.Step)
    requires J.Inv(s) && Squashed(s.txs, s.calls) && Marked(s.txs, s.calls, s.threw) && J.Enabled(s, step)
    ensures var s' := J.Take(s, step); Squashed(s'.txs, s'.calls) && Marked(s'.txs, s'.calls, s'.threw)
  {
    match step
    case Start(d, op) => StartSquashed(s, J.Call(d, op, s.pos.Keys, s.swaps));
    case Log(c) =>
      LogSquashed(s.txs, s.calls, s.pcs[c].tx, c);
      LogMarked(s.txs, s.calls, s.threw, s.pcs[c].tx, c);
    case Enter(_) => CreateSquashed(s.txs, s.calls);
    case Station(m) => StationSquashed(s, m);
    case Find(_) =>
    case Miss(_) =>
    case Retry(_) =>
  }

  lemma StepKeeps(first: map<Uuid, Durable>, s: J.State, step: J.Step)
    requires Inv(first, s) && J.Enabled(s, step)
    ensures Inv(first, J.Take(s, step))
  {
    J.StepKeeps(s, step);
    J.SettledKeeps(s, step);
    StepSquashed(s, step);
    forall d
      ensures Synced(first, J.Take(s, step), d)
    {
      if step.Station? && step.move.Finish? {
        FinishSynced(first, s, step.move.queue, d);
      } else {
        OtherSynced(first, s, step, d);
      }
    }
  }

  lemma {:induction false} RunKeeps(states: seq<J.State>, steps: seq<J.Step>, n: nat)
    requires J.Run(states, steps) && n < |states|
    ensures Inv(states[0].durable, states[n])
  {
    if n == 0 {
      J.StartLine();
    } else {
      RunKeeps(states, steps, n - 1);
      StepKeeps(states[0].durable, states[n - 1], steps[n - 1]);
    }
  }

  /** Finished transactions are transactions. */
  lemma DoneInRange(s: J.State, d: Uuid)
    requires J.Inv(s) && J.Settled(s.line, s.txs)
    ensures forall k :: 0 <= k < |DoneOf(s.line, d)| ==> DoneOf(s.line, d)[k] < |s.txs|
  {
    forall k | 0 <= k < |DoneOf(s.line, d)|
      ensures DoneOf(s.line, d)[k] < |s.txs|
    {
      DoneFrozen(s, d, k);
    }
  }

  /** Where nothing on a directory threw, nothing in its finished transactions did. */
  lemma NothingThrown(s: J.State, d: Uuid)
    requires J.Inv(s) && J.Settled(s.line, s.txs) && Marked(s.txs, s.calls, s.threw) && NoneThrew(s, d)
    ensures Unthrown(DoneOf(s.line, d), s.txs, s.calls)
  {
    assert Unfold(OfPlaces);
    var ids := DoneOf(s.line, d);
    forall k | 0 <= k < |ids| && ids[k] < |s.txs|
      ensures Smooth(s.txs[ids[k]].log, s.threw)
    {
      DoneHere(s, d, k);
    }
  }

  lemma DoneHere(s: J.State, d: Uuid, k: nat)
    requires J.Inv(s) && k < |DoneOf(s.line, d)|
    ensures DoneOf(s.line, d)[k] < |s.txs| && s.line.dirs[DoneOf(s.line, d)[k]] == d
  {
    assert Watch(d);
    Ends(s.line, d);
    assert Ids(s.line.dirs, d)[k] == DoneOf(s.line, d)[k];
    IdInRange(s.line.dirs, d, k);
  }

  lemma SyncedCut(first: map<Uuid, Durable>, s: J.State, d: Uuid)
    requires Inv(first, s) && Unthrown(DoneOf(s.line, d), s.txs, s.calls)
    ensures Batching.SyncAll(DurableIn(first, d), CutOf(DoneOf(s.line, d), s.txs, s.calls)) ==
            Some(DurableIn(s.durable, d))
  {
    assert Watch(d);
    DoneInRange(s, d);
    CutOverlays(DoneOf(s.line, d), s.txs, s.calls);
  }

  /**
   * In every state of every run: a transaction, frozen or not, is exactly the squash of the calls recorded in it, and
   * the durable objects of a directory are those of checkpointing its finished transactions in order; where nothing
   * threw, they are those of checkpointing the operations of its finished logs.
   */
  lemma DurableIsCheckpointedCut(states: seq<J.State>, steps: seq<J.Step>, n: nat, t: nat, d: Uuid)
    requires J.Run(states, steps) && n < |states|
    ensures t < |states[n].txs| ==> states[n].txs[t].tx == TakenAll(EMPTY, OpsOf(states[n].txs[t].log, states[n].calls))
    ensures var s := states[n];
            Batching.SyncTxs(J.DurableOf(states[0], d), TxsIn(DoneOf(s.line, d), s.txs)) == Some(J.DurableOf(s, d))
    ensures var s := states[n];
            NoneThrew(s, d) ==>
              Batching.SyncAll(J.DurableOf(states[0], d), CutOf(DoneOf(s.line, d), s.txs, s.calls)) ==
                  Some(J.DurableOf(s, d))
  {
    RunKeeps(states, steps, n);
    assert Watch(d);
    if NoneThrew(states[n], d) {
      NothingThrown(states[n], d);
      SyncedCut(states[0].durable, states[n], d);
    }
  }

  /** The stream of operations on `d` that has been checkpointed. */
  function StreamOf(s: J.State, d: Uuid): seq<Op> {
    Batching.Joined(CutOf(DoneOf(s.line, d), s.txs, s.calls))
  }

  /** What two durable states of a directory share after the stream `ops` from `m`. */
  ghost predicate Agree(m: Batching.Dir, ops: seq<Op>, d0: Durable, da: Durable, db: Durable) {
    var end := Batching.ApplyAll(m, ops);
    && da.dentry == db.dentry
    && (Batching.SelfMatch(m, d0) && Batching.SteadyAll(m, ops) ==> da.self == db.self)
    && (end.life == Batching.Alive ==>
          forall i :: i in end.files && i !in end.parked ==>
              i in da.files && i in db.files && da.files[i] == db.files[i])
  }

  lemma StatesAgree(first: map<Uuid, Durable>, a: J.State, first': map<Uuid, Durable>, b: J.State, d: Uuid,
                    m: Batching.Dir)
    requires Inv(first, a) && Inv(first', b) && DurableIn(first, d) == DurableIn(first', d)
    requires NoneThrew(a, d) && NoneThrew(b, d)
    requires Batching.Blank(m) && Batching.Match(m, DurableIn(first, d))
    requires Batching.TimelyAll(m, StreamOf(a, d)) && StreamOf(a, d) == StreamOf(b, d)
    ensures Agree(m, StreamOf(a, d), DurableIn(first, d), DurableIn(a.durable, d), DurableIn(b.durable, d))
  {
    NothingThrown(a, d);
    NothingThrown(b, d);
    SyncedCut(first, a, d);
    SyncedCut(first', b, d);
    var d0 := DurableIn(first, d);
    var cutA, cutB := CutOf(DoneOf(a.line, d), a.txs, a.calls), CutOf(DoneOf(b.line, d), b.txs, b.calls);
    Batching.CutIsStream(m, cutA);
    Batching.CutIsStream(m, cutB);
    Batching.CheckpointCut(m, d0, cutA);
    Batching.CheckpointCut(m, d0, cutB);
    Batching.BatchingIndependence(m, d0, cutA, cutB);
  }

  /**
   * Batching independence of whole runs: however the threads were scheduled, two runs that have checkpointed the same
   * timely stream of operations on a directory, none of which threw, leave the same DENTRY object, the same INODE for
   * every file whose last operation is not a removal and, if only `mkself` and `chself` change more than its times, the
   * same self INODE.
   */
  lemma SchedulesAgree(a: seq<J.State>, stepsA: seq<J.Step>, n: nat, b: seq<J.State>, stepsB: seq<J.Step>, k: nat,
                       d: Uuid, m: Batching.Dir)
    requires J.Run(a, stepsA) && n < |a| && J.Run(b, stepsB) && k < |b|
    requires J.DurableOf(a[0], d) == J.DurableOf(b[0], d)
    requires NoneThrew(a[n], d) && NoneThrew(b[k], d)
    requires Batching.Blank(m) && Batching.Match(m, J.DurableOf(a[0], d))
    requires Batching.TimelyAll(m, StreamOf(a[n], d)) && StreamOf(a[n], d) == StreamOf(b[k], d)
    ensures Agree(m, StreamOf(a[n], d), J.DurableOf(a[0], d), J.DurableOf(a[n], d), J.DurableOf(b[k], d))
  {
    RunKeeps(a, stepsA, n);
    RunKeeps(b, stepsB, k);
    assert Watch(d);
    StatesAgree(a[0].durable, a[n], b[0].durable, b[k], d, m);
  }
}
