/** The journal's containers and the loops of its commit and checkpoint threads, each run on its own. */
module Threads {
  import opened Bytes
  import opened Transactions
  import opened Stages
  import Batching

  /** `mqueue`; `dispatch` waits until there is something to take. */
  class MQueue<T> {
    var q: seq<T>

    constructor ()
      ensures q == []
    {
      q := [];
    }

    method Issue(value: T)
      modifies this
      ensures q == old(q) + [value]
    {
      q := q + [value];
    }

    method Dispatch() returns (value: T)
      requires q != []
      modifies this
      ensures [value] + q == old(q)
    {
      value := q[0];
      q := q[1..];
    }
  }

  /** `journal_table`: the live transactions, none of them frozen. */
  class JournalTable {
    var live: map<Uuid, Transaction>

    ghost predicate Valid()
      reads this, live.Values
    {
      && (forall d :: d in live ==> !live[d].committed)
      && (forall d, e :: d in live && e in live && live[d] == live[e] ==> d == e)
    }

    constructor ()
      ensures Valid() && live == map[]
    {
      live := map[];
    }

    /** `get_entry`, undisturbed between its two phases. */
    method GetEntry(ino: Uuid) returns (tx: Transaction)
      requires Valid()
      modifies this
      ensures Valid() && ino in live && live[ino] == tx
      ensures ino in old(live) ==> live == old(live)
      ensures ino !in old(live) ==> live == old(live)[ino := tx] && fresh(tx) && tx.View() == EMPTY
    {
      if ino in live {
        return live[ino];
      }
      tx := new Transaction();
      live := live[ino := tx];
    }

    method ReplaceMap() returns (batch: map<Uuid, Transaction>)
      requires Valid()
      modifies this
      ensures Valid() && live == map[] && batch == old(live)
    {
      batch := live;
      live := map[];
    }

    method DeleteEntry(ino: Uuid)
      requires Valid()
      modifies this
      ensures Valid() && live == old(live) - {ino}
    {
      live := live - {ino};
    }

    /** The body of every journal operation's loop: without a commit in between, no retry is needed. */
    method Journal(ino: Uuid, op: Op) returns (outcome: Outcome)
      requires Valid()
      modifies this, live.Values
      ensures Valid() && ino in live && live.Keys == old(live.Keys) + {ino}
      ensures if ino in old(live) then live[ino] == old(live)[ino] else fresh(live[ino])
      ensures outcome != Frozen
      ensures outcome == LogicError <==> Fails(if ino in old(live) then old(live[ino].View()) else EMPTY, op)
      ensures outcome == Accepted ==>
              live[ino].View() == Record(if ino in old(live) then old(live[ino].View()) else EMPTY, op)
      ensures outcome == LogicError ==>
              live[ino].View() == Thrown(if ino in old(live) then old(live[ino].View()) else EMPTY, op)
      ensures forall d :: d in old(live) && d != ino ==>
              live[d] == old(live)[d] && live[d].View() == old(live[d].View())
    {
      var tx := GetEntry(ino);
      outcome := tx.Apply(op);
    }
  }

  /** A committed transaction on its way to a checkpoint thread. */
  datatype Item<T> = Item(dir: Uuid, tx: T)

  /** `tail` holds, each once, the transactions of `batch` routed to queue `i`, but for the directories in `rest`. */
  ghost predicate Carries<T>(tail: seq<Item<T>>, batch: map<Uuid, T>, rest: set<Uuid>, i: nat) {
    && (forall k :: 0 <= k < |tail| ==>
          && tail[k].dir in batch && tail[k].dir !in rest && tail[k].tx == batch[tail[k].dir] &&
              Route(tail[k].dir) == i)
    && (forall d :: d in batch && d !in rest && Route(d) == i ==> exists k :: 0 <= k < |tail| && tail[k].dir == d)
    && (forall k, n :: 0 <= k < n < |tail| ==> tail[k].dir != tail[n].dir)
  }

  lemma CarriesMore<T>(tail: seq<Item<T>>, batch: map<Uuid, T>, rest: set<Uuid>, i: nat, d: Uuid)
    requires Carries(tail, batch, rest, i) && d in rest && d in batch
    ensures Carries(if Route(d) == i then tail + [Item(d, batch[d])] else tail, batch, rest - {d}, i)
  {
    var tail' := if Route(d) == i then tail + [Item(d, batch[d])] else tail;
    forall e | e in batch && e !in rest - {d} && Route(e) == i
      ensures exists k :: 0 <= k < |tail'| && tail'[k].dir == e
    {
      if e == d {
        assert tail'[|tail|].dir == e;
      } else {
        var k :| 0 <= k < |tail| && tail[k].dir == e;
        assert tail'[k].dir == e;
      }
    }
  }

  /** Every queue has grown by what it carries of `batch` so far. */
  ghost predicate Grown<T>(before: seq<seq<Item<T>>>, now: seq<seq<Item<T>>>, batch: map<Uuid, T>, rest: set<Uuid>) {
    && |before| == |now| == NUM_CP_THREAD
    && forall i :: 0 <= i < NUM_CP_THREAD ==>
         before[i] <= now[i] && Carries(now[i][|before[i]|..], batch, rest, i)
  }

  lemma QueueGrows<T>(before: seq<Item<T>>, now: seq<Item<T>>, batch: map<Uuid, T>, rest: set<Uuid>, i: nat, d: Uuid)
    requires before <= now && Carries(now[|before|..], batch, rest, i) && d in rest && d in batch
    ensures var q := if i == Route(d) then now + [Item(d, batch[d])] else now;
            before <= q && Carries(q[|before|..], batch, rest - {d}, i)
  {
    var tail := now[|before|..];
    CarriesMore(tail, batch, rest, i, d);
    assert (now + [Item(d, batch[d])])[|before|..] == tail + [Item(d, batch[d])];
  }

  lemma GrownMore<T>(before: seq<seq<Item<T>>>, now: seq<seq<Item<T>>>, batch: map<Uuid, T>, rest: set<Uuid>, d: Uuid)
    requires Grown(before, now, batch, rest) && d in rest && d in batch
    ensures Grown(before, now[Route(d) := now[Route(d)] + [Item(d, batch[d])]], batch, rest - {d})
  {
    forall i | 0 <= i < NUM_CP_THREAD
      ensures var q := if i == Route(d) then now[i] + [Item(d, batch[d])] else now[i];
              before[i] <= q && Carries(q[|before[i]|..], batch, rest - {d}, i)
    {
      QueueGrows(before[i], now[i], batch, rest, i, d);
    }
  }

  /** What a checkpoint thread leaves behind when it works through a queue; `None` when a checkpoint throws. */
  function Drained(store: map<Uuid, Durable>, q: seq<Option<Item<Tx>>>): Option<map<Uuid, Durable>>
    decreases |q|
  {
    if q == [] || q[0].None? then Some(store)
    else
      var d := q[0].value.dir;
      match Sync(DurableIn(store, d), q[0].value.tx)
      case None => None
      case Some(after) => Drained(store[d := after], q[1..])
  }

  /** The transactions of directory `d` before the first sentinel, in order. */
  function TxsOf(q: seq<Option<Item<Tx>>>, d: Uuid): seq<Tx> {
    if q == [] || q[0].None? then []
    else (if q[0].value.dir == d then [q[0].value.tx] else []) + TxsOf(q[1..], d)
  }

  /** What a sentinel follows does not count, and what is issued before it does, last. */
  lemma {:induction false} TxsOfIssued(q: seq<Option<Item<Tx>>>, item: Item<Tx>, rest: seq<Option<Item<Tx>>>, d: Uuid)
    requires None !in q
    ensures TxsOf(q + [None] + rest, d) == TxsOf(q, d)
    ensures TxsOf(q + [Some(item)], d) == TxsOf(q, d) + if item.dir == d then [item.tx] else []
  {
    if q == [] {
      assert [Some(item)][1..] == [];
    } else {
      assert (q + [None] + rest)[1..] == q[1..] + [None] + rest;
      assert (q + [Some(item)])[1..] == q[1..] + [Some(item)];
      TxsOfIssued(q[1..], item, rest, d);
    }
  }

  /** The checkpoints of a directory's transactions, one after the other, starting from what `store` holds of it. */
  function Checkpointed(store: map<Uuid, Durable>, q: seq<Option<Item<Tx>>>, d: Uuid): Option<Durable> {
    Batching.SyncTxs(DurableIn(store, d), TxsOf(q, d))
  }

  lemma CheckpointedStep(store: map<Uuid, Durable>, q: seq<Option<Item<Tx>>>, d: Uuid)
    requires q != [] && q[0].Some?
    ensures var e := q[0].value.dir; var after := Sync(DurableIn(store, e), q[0].value.tx);
            && (after.Some? ==> Checkpointed(store[e := after.value], q[1..], d) == Checkpointed(store, q, d))
            && (after.None? && d == e ==> Checkpointed(store, q, d) == None)
  {
    var e, tx := q[0].value.dir, q[0].value.tx;
    if e == d {
      assert TxsOf(q, d)[0] == tx && TxsOf(q, d)[1..] == TxsOf(q[1..], d);
    } else {
      assert TxsOf(q, d) == TxsOf(q[1..], d);
    }
  }

  /** Working through a queue is, for every directory in it or not, checkpointing its transactions in order. */
  lemma {:induction false} DrainedIs(store: map<Uuid, Durable>, q: seq<Option<Item<Tx>>>)
    ensures Drained(store, q).None? <==> exists d: Uuid :: Checkpointed(store, q, d).None?
    ensures Drained(store, q).Some? ==>
              forall d: Uuid :: Checkpointed(store, q, d) == Some(DurableIn(Drained(store, q).value, d))
    decreases |q|
  {
    if q == [] || q[0].None? {
      assert forall d: Uuid :: TxsOf(q, d) == [];
    } else {
      var e := q[0].value.dir;
      var after := Sync(DurableIn(store, e), q[0].value.tx);
      forall d: Uuid
        ensures after.Some? ==> Checkpointed(store[e := after.value], q[1..], d) == Checkpointed(store, q, d)
      {
        CheckpointedStep(store, q, d);
      }
      if after.Some? {
        var next := store[e := after.value];
        DrainedIs(next, q[1..]);
        if d: Uuid :| Checkpointed(next, q[1..], d).None? {
          assert Checkpointed(store, q, d).None?;
        }
      } else {
        CheckpointedStep(store, q, e);
      }
    }
  }

  /**
   * The checkpoint thread on a queue that ends with the sentinel: when it ends, every directory is as the checkpoints,
   * in order, of all its transactions before the sentinel leave it; it is stopped by an exception if and only if one of
   * these checkpoints throws.
   */
  method CheckpointLoop(queue: MQueue<Option<Item<Tx>>>, before: map<Uuid, Durable>)
    returns (store: Option<map<Uuid, Durable>>)
    requires exists k :: 0 <= k < |queue.q| && queue.q[k].None?
    modifies queue
    ensures store.Some? ==>
              forall d: Uuid :: Batching.SyncTxs(DurableIn(before, d), TxsOf(old(queue.q), d)) ==
                                Some(DurableIn(store.value, d))
    ensures store.None? <==>
            exists d: Uuid :: Batching.SyncTxs(DurableIn(before, d), TxsOf(old(queue.q), d)).None?
  {
    DrainedIs(before, queue.q);
    store := DrainLoop(queue, before);
    assert forall d: Uuid :: Checkpointed(before, old(queue.q), d) ==
                             Batching.SyncTxs(DurableIn(before, d), TxsOf(old(queue.q), d));
  }

  /** The loop itself. */
  method DrainLoop(queue: MQueue<Option<Item<Tx>>>, before: map<Uuid, Durable>)
    returns (store: Option<map<Uuid, Durable>>)
    requires exists k :: 0 <= k < |queue.q| && queue.q[k].None?
    modifies queue
    ensures store == Drained(before, old(queue.q))
  {
    var now: map<Uuid, Durable> := before;
    while true
      invariant exists k :: 0 <= k < |queue.q| && queue.q[k].None?
      invariant Drained(before, old(queue.q)) == Drained(now, queue.q)
      decreases |queue.q|
    {
      ghost var was := queue.q;
      var item := queue.Dispatch();
      assert was[0] == item && was[1..] == queue.q;
      if item.None? {
        return Some(now);
      }
      var d := item.value.dir;
      var after := Sync(DurableIn(now, d), item.value.tx);
      if after.None? {
        return None;
      }
      now := now[d := after.value];
      ghost var k :| 0 <= k < |was| && was[k].None?;
      assert queue.q[k - 1].None?;
    }
  }

  /** The part of a queue that concerns one directory, up to the sentinel. */
  function Of(q: seq<Option<Item<Tx>>>, d: Uuid): seq<Option<Item<Tx>>> {
    if q == [] || q[0].None? then []
    else (if q[0].value.dir == d then [q[0]] else []) + Of(q[1..], d)
  }

  /** Directories that share a checkpoint thread do not disturb each other: each ends as its own part leaves it. */
  lemma {:induction false} DrainedPerDirectory(store: map<Uuid, Durable>, mine: map<Uuid, Durable>,
                                               q: seq<Option<Item<Tx>>>,
                                               d: Uuid)
    requires Drained(store, q).Some? && DurableIn(mine, d) == DurableIn(store, d)
    ensures Drained(mine, Of(q, d)).Some?
    ensures DurableIn(Drained(mine, Of(q, d)).value, d) == DurableIn(Drained(store, q).value, d)
    decreases |q|
  {
    if q != [] && q[0].Some? {
      var e, tx := q[0].value.dir, q[0].value.tx;
      var after := Sync(DurableIn(store, e), tx).value;
      if e == d {
        assert Of(q, d)[0] == q[0] && Of(q, d)[1..] == Of(q[1..], d);
        DrainedPerDirectory(store[e := after], mine[e := after], q[1..], d);
      } else {
        assert Of(q, d) == Of(q[1..], d);
        DrainedPerDirectory(store[e := after], mine, q[1..], d);
      }
    }
  }
}
