/**
 * The stations a transaction passes through: the live map of `journal_table`, the map swapped out by the commit
 * thread, the transaction it has just frozen, one of eight FIFO queues, the hands of a checkpoint thread, and done.
 */
module Stages {
  import opened Bytes

  const NUM_CP_THREAD: nat := 8

  /** A shared pointer to a transaction: its number, in creation order, and its directory. */
  datatype TxRef = TxRef(id: nat, dir: Uuid)

  /** `dirs[t]` is the directory of transaction `t`; a queue holds transactions and, at the end, the stop sentinel. */
  datatype Line = Line(
    dirs: seq<Uuid>,
    live: map<Uuid, nat>,
    batch: map<Uuid, nat>,
    frozen: Option<TxRef>,
    queues: map<nat, seq<Option<TxRef>>>,
    hands: map<nat, TxRef>,
    done: map<Uuid, seq<nat>>,
    stopped: bool,
    sent: set<nat>,
    finished: set<nat>)

  datatype Move =
    /** `get_entry` inserts a new transaction. */
    | Create(dir: Uuid)
    /** `replace_map`. */
    | Swap
    /** `commit` on one transaction of the swapped map, in any order. */
    | Freeze(dir: Uuid)
    /** `issue` of the frozen transaction. */
    | Issue
    /** The commit loop sees the stop flag, and then sends each queue a null. */
    | Stop
    | Sentinel(queue: nat)
    /** `dispatch` by checkpoint thread `queue` yields a transaction. */
    | Dispatch(queue: nat)
    /** `dispatch` yields the sentinel and the thread ends. */
    | Quit(queue: nat)
    /** `checkpoint` of the transaction in hand has finished. */
    | Finish(queue: nat)

  const START: Line := Line([], map[], map[], None, map[], map[], map[], false, {}, {})

  /** The first eight bytes of the inode number, as a little-endian number, modulo the number of threads. */
  function Route(dir: Uuid): (i: nat)
    ensures i < NUM_CP_THREAD
  {
    LittleEndian(dir[..8]) % 8
  }

  /** On a little-endian machine the lowest byte decides: the first byte of the inode number, in eight classes. */
  lemma RouteIsFirstByte(dir: Uuid)
    ensures Route(dir) == dir[0] % 8
  {
    assert LittleEndian(dir[..8]) == dir[0] + 0x100 * LittleEndian(dir[..8][1..]);
  }

  function At(m: map<Uuid, nat>, d: Uuid): seq<nat> {
    if d in m then [m[d]] else []
  }

  function One(r: Option<TxRef>, d: Uuid): seq<nat> {
    if r.Some? && r.value.dir == d then [r.value.id] else []
  }

  function Queue(l: Line, i: nat): seq<Option<TxRef>> {
    if i in l.queues then l.queues[i] else []
  }

  function InHand(l: Line, d: Uuid): seq<nat> {
    if Route(d) in l.hands then One(Some(l.hands[Route(d)]), d) else []
  }

  function Queued(q: seq<Option<TxRef>>, d: Uuid): seq<nat> {
    if q == [] then [] else One(q[0], d) + Queued(q[1..], d)
  }

  function DoneOf(l: Line, d: Uuid): seq<nat> {
    if d in l.done then l.done[d] else []
  }

  function Chain(a: seq<nat>, b: seq<nat>, c: seq<nat>, d: seq<nat>, e: seq<nat>, f: seq<nat>): seq<nat> {
    a + (b + (c + (d + (e + f))))
  }

  /** Every transaction of `d`, in the order in which the stations will make them durable. */
  function Order(l: Line, d: Uuid): seq<nat>
  {
    Chain(DoneOf(l, d), InHand(l, d), Queued(Queue(l, Route(d)), d), One(l.frozen, d), At(l.batch, d), At(l.live, d))
  }

  /** The transactions of `d` in creation order. */
  function Ids(dirs: seq<Uuid>, d: Uuid): seq<nat> {
    if dirs == [] then []
    else Ids(dirs[..|dirs| - 1], d) + if dirs[|dirs| - 1] == d then [|dirs| - 1] else []
  }

  predicate Can(l: Line, m: Move)
  {
    match m
    case Create(d) => d !in l.live
    case Swap => l.batch == map[] && l.frozen == None && !l.stopped
    case Freeze(d) => d in l.batch && l.frozen == None
    case Issue => l.frozen.Some?
    case Stop => l.batch == map[] && l.frozen == None && !l.stopped
    case Sentinel(i) => l.stopped && i < NUM_CP_THREAD && i !in l.sent
    case Dispatch(i) => i < NUM_CP_THREAD && i !in l.hands && i !in l.finished && Queue(l, i) != [] &&
        Queue(l, i)[0].Some?
    case Quit(i) => i < NUM_CP_THREAD && i !in l.hands && i !in l.finished && Queue(l, i) != [] && Queue(l, i)[0].None?
    case Finish(i) => i < NUM_CP_THREAD && i in l.hands
  }

  function Push(l: Line, i: nat, item: Option<TxRef>): Line
  {
    l.(queues := l.queues[i := Queue(l, i) + [item]])
  }

  function Pop(l: Line, i: nat): Line
    requires Queue(l, i) != []
  {
    l.(queues := l.queues[i := Queue(l, i)[1..]])
  }

  function Advance(l: Line, m: Move): Line
    requires Can(l, m)
  {
    match m
    case Create(d) => l.(dirs := l.dirs + [d], live := l.live[d := |l.dirs|])
    case Swap => l.(batch := l.live, live := map[])
    case Freeze(d) => l.(frozen := Some(TxRef(l.batch[d], d)), batch := l.batch - {d})
    case Issue => Push(l, Route(l.frozen.value.dir), l.frozen).(frozen := None)
    case Stop => l.(stopped := true)
    case Sentinel(i) => Push(l, i, None).(sent := l.sent + {i})
    case Dispatch(i) => Pop(l, i).(hands := l.hands[i := Queue(l, i)[0].value])
    case Quit(i) => Pop(l, i).(finished := l.finished + {i})
    case Finish(i) =>
      var r := l.hands[i];
      l.(hands := l.hands - {i}, done := l.done[r.dir := DoneOf(l, r.dir) + [r.id]])
  }

  /** A queue holds transactions routed to it and, once and last, the sentinel. */
  ghost predicate QueueOk(q: seq<Option<TxRef>>, i: nat, sent: bool, finished: bool) {
    && (forall k :: 0 <= k < |q| && q[k].Some? ==> Route(q[k].value.dir) == i)
    && (forall k :: 0 <= k < |q| && q[k].None? ==> sent && k == |q| - 1)
    && (finished ==> sent && q == [])
    && (sent && !finished ==> q != [] && q[|q| - 1].None?)
  }

  ghost predicate QueuesOk(l: Line) {
    && (forall i: nat :: i < NUM_CP_THREAD ==> QueueOk(Queue(l, i), i, i in l.sent, i in l.finished))
    && (forall i :: i in l.hands ==> i < NUM_CP_THREAD && i !in l.finished && Route(l.hands[i].dir) == i)
    && (l.stopped ==> l.batch == map[] && l.frozen == None)
    && (l.sent != {} ==> l.stopped)
  }

  /** Names the directory whose order a proof needs. */
  ghost predicate Watch(d: Uuid) { true }

  /** No transaction is lost, duplicated or overtaken by a later one of its directory. */
  ghost predicate InOrder(l: Line)
  {
    forall d {:trigger Watch(d)} :: Watch(d) ==> Order(l, d) == Ids(l.dirs, d)
  }

  ghost predicate LineInv(l: Line) {
    QueuesOk(l) && InOrder(l)
  }

  lemma {:induction false} QueuedPush(q: seq<Option<TxRef>>, item: Option<TxRef>, d: Uuid)
    ensures Queued(q + [item], d) == Queued(q, d) + One(item, d)
  {
    if q == [] {
      assert [item][1..] == [];
    } else {
      assert (q + [item])[0] == q[0] && (q + [item])[1..] == q[1..] + [item];
      QueuedPush(q[1..], item, d);
    }
  }

  /** In a queue of another thread there is nothing of `d`. */
  lemma {:induction false} QueuedElsewhere(q: seq<Option<TxRef>>, i: nat, d: Uuid)
    requires forall k :: 0 <= k < |q| && q[k].Some? ==> Route(q[k].value.dir) == i
    requires Route(d) != i
    ensures Queued(q, d) == []
  {
    if q != [] {
      QueuedElsewhere(q[1..], i, d);
    }
  }

  /** A transaction that passes from one station to the next keeps its place in the chain. */
  lemma Handed(a: seq<nat>, b: seq<nat>, a': seq<nat>, b': seq<nat>, rest: seq<nat>)
    requires a + b == a' + b'
    ensures a + (b + rest) == a' + (b' + rest)
  {
    assert a + (b + rest) == (a + b) + rest;
    assert a' + (b' + rest) == (a' + b') + rest;
  }

  lemma SwapOrder(l: Line, d: Uuid)
    requires Can(l, Swap)
    ensures Order(Advance(l, Swap), d) == Order(l, d)
  {
    var l' := Advance(l, Swap);
    assert At(l'.batch, d) + At(l'.live, d) == At(l.batch, d) + At(l.live, d);
  }

  lemma FreezeOrder(l: Line, dir: Uuid, d: Uuid)
    requires Can(l, Freeze(dir))
    ensures Order(Advance(l, Freeze(dir)), d) == Order(l, d)
  {
    var l' := Advance(l, Freeze(dir));
    Handed(One(l.frozen, d), At(l.batch, d), One(l'.frozen, d), At(l'.batch, d), At(l.live, d));
  }

  lemma IssueOrder(l: Line, d: Uuid)
    requires Can(l, Issue)
    ensures Order(Advance(l, Issue), d) == Order(l, d)
  {
    var l' := Advance(l, Issue);
    QueuedPush(Queue(l, Route(l.frozen.value.dir)), l.frozen, d);
    Handed(Queued(Queue(l, Route(d)), d), One(l.frozen, d), Queued(Queue(l', Route(d)), d), One(l'.frozen, d),
           At(l.batch, d) + At(l.live, d));
  }

  lemma SentinelOrder(l: Line, i: nat, d: Uuid)
    requires Can(l, Sentinel(i))
    ensures Order(Advance(l, Sentinel(i)), d) == Order(l, d)
  {
    var l' := Advance(l, Sentinel(i));
    QueuedPush(Queue(l, i), None, d);
    assert Queued(Queue(l', Route(d)), d) == Queued(Queue(l, Route(d)), d);
  }

  lemma DispatchOrder(l: Line, i: nat, d: Uuid)
    requires Can(l, Dispatch(i))
    ensures Order(Advance(l, Dispatch(i)), d) == Order(l, d)
  {
    var l' := Advance(l, Dispatch(i));
    Handed(InHand(l, d), Queued(Queue(l, Route(d)), d), InHand(l', d), Queued(Queue(l', Route(d)), d),
           One(l.frozen, d) + (At(l.batch, d) + At(l.live, d)));
  }

  lemma QuitOrder(l: Line, i: nat, d: Uuid)
    requires Can(l, Quit(i))
    ensures Order(Advance(l, Quit(i)), d) == Order(l, d)
  {
    var l' := Advance(l, Quit(i));
    assert Queued(Queue(l', Route(d)), d) == Queued(Queue(l, Route(d)), d);
  }

  lemma FinishOrder(l: Line, i: nat, d: Uuid)
    requires QueuesOk(l) && Can(l, Finish(i))
    ensures Order(Advance(l, Finish(i)), d) == Order(l, d)
  {
    var l' := Advance(l, Finish(i));
    Handed(DoneOf(l, d), InHand(l, d), DoneOf(l', d), InHand(l', d),
           Queued(Queue(l, Route(d)), d) + (One(l.frozen, d) + (At(l.batch, d) + At(l.live, d))));
  }

  lemma CreateOrder(l: Line, dir: Uuid, d: Uuid)
    requires Can(l, Create(dir))
    ensures Order(Advance(l, Create(dir)), d) == Order(l, d) + (if dir == d then [|l.dirs|] else [])
  {
    if dir == d {
      ChainEnd(DoneOf(l, d), InHand(l, d), Queued(Queue(l, Route(d)), d), One(l.frozen, d), At(l.batch, d), [|l.dirs|]);
    }
  }

  lemma ChainEnd(a: seq<nat>, b: seq<nat>, c: seq<nat>, d: seq<nat>, e: seq<nat>, x: seq<nat>)
    ensures Chain(a, b, c, d, e, x) == Chain(a, b, c, d, e, []) + x
  {
  }

  /** Only a creation changes the order of a directory's transactions, and it adds one at the end. */
  lemma AdvanceOrder(l: Line, m: Move, d: Uuid)
    requires QueuesOk(l) && Can(l, m)
    ensures Order(Advance(l, m), d) == Order(l, d) + (if m == Create(d) then [|l.dirs|] else [])
  {
    match m
    case Create(dir) => CreateOrder(l, dir, d);
    case Swap => SwapOrder(l, d);
    case Freeze(dir) => FreezeOrder(l, dir, d);
    case Issue => IssueOrder(l, d);
    case Stop =>
    case Sentinel(i) => SentinelOrder(l, i, d);
    case Dispatch(i) => DispatchOrder(l, i, d);
    case Quit(i) => QuitOrder(l, i, d);
    case Finish(i) => FinishOrder(l, i, d);
  }

  lemma IdsPush(dirs: seq<Uuid>, dir: Uuid, d: Uuid)
    ensures Ids(dirs + [dir], d) == Ids(dirs, d) + if dir == d then [|dirs|] else []
  {
    assert (dirs + [dir])[..|dirs|] == dirs;
  }

  lemma AdvanceKeepsOrder(l: Line, m: Move)
    requires LineInv(l) && Can(l, m)
    ensures InOrder(Advance(l, m))
  {
    var l' := Advance(l, m);
    forall d
      ensures Order(l', d) == Ids(l'.dirs, d)
    {
      assert Watch(d);
      AdvanceOrder(l, m, d);
      if m.Create? {
        IdsPush(l.dirs, m.dir, d);
      } else {
        assert l'.dirs == l.dirs;
      }
    }
  }

  lemma PushKeepsQueue(q: seq<Option<TxRef>>, item: Option<TxRef>, i: nat)
    requires QueueOk(q, i, false, false) && (item.Some? ==> Route(item.value.dir) == i)
    ensures QueueOk(q + [item], i, item.None?, false)
  {
  }

  lemma PopKeepsQueue(q: seq<Option<TxRef>>, i: nat, sent: bool)
    requires QueueOk(q, i, sent, false) && q != []
    ensures QueueOk(q[1..], i, sent, q[0].None?)
  {
  }

  lemma AdvanceKeepsQueues(l: Line, m: Move)
    requires LineInv(l) && Can(l, m)
    ensures QueuesOk(Advance(l, m))
  {
    match m
    case Issue => PushKeepsQueue(Queue(l, Route(l.frozen.value.dir)), l.frozen, Route(l.frozen.value.dir));
    case Sentinel(i) => PushKeepsQueue(Queue(l, i), None, i);
    case Dispatch(i) => PopKeepsQueue(Queue(l, i), i, i in l.sent);
    case Quit(i) => PopKeepsQueue(Queue(l, i), i, i in l.sent);
    case _ =>
  }

  lemma AdvanceKeeps(l: Line, m: Move)
    requires LineInv(l) && Can(l, m)
    ensures LineInv(Advance(l, m))
  {
    AdvanceKeepsOrder(l, m);
    AdvanceKeepsQueues(l, m);
  }

  /** A checkpoint thread that has consumed its sentinel has checkpointed everything ever committed to its queue. */
  lemma Drained(l: Line, d: Uuid)
    requires LineInv(l) && Route(d) in l.finished
    ensures Ids(l.dirs, d) == DoneOf(l, d) + At(l.live, d)
  {
    assert Watch(d);
  }

  // Facts about creation order

  lemma {:induction false} IdsMembers(dirs: seq<Uuid>, d: Uuid, t: nat)
    ensures t in Ids(dirs, d) <==> t < |dirs| && dirs[t] == d
  {
    if dirs != [] {
      IdsMembers(dirs[..|dirs| - 1], d, t);
    }
  }

  lemma {:induction false} IdsLast(dirs: seq<Uuid>, d: Uuid, t: nat)
    requires t < |dirs| && dirs[t] == d
    ensures var ids := Ids(dirs, d); ids != [] && t <= ids[|ids| - 1]
  {
    if t < |dirs| - 1 {
      IdsLast(dirs[..|dirs| - 1], d, t);
      var ids := Ids(dirs[..|dirs| - 1], d);
      IdsMembers(dirs[..|dirs| - 1], d, ids[|ids| - 1]);
    }
  }

  /** The live transaction of a directory is its newest. */
  lemma LiveIsNewest(l: Line, d: Uuid)
    requires InOrder(l) && d in l.live
    ensures l.live[d] < |l.dirs| && l.dirs[l.live[d]] == d
    ensures forall t :: 0 <= t < |l.dirs| && l.dirs[t] == d ==> t <= l.live[d]
  {
    var o := Order(l, d);
    assert Watch(d);
    assert o[|o| - 1] == l.live[d];
    IdsMembers(l.dirs, d, l.live[d]);
    forall t | 0 <= t < |l.dirs| && l.dirs[t] == d
      ensures t <= l.live[d]
    {
      IdsLast(l.dirs, d, t);
    }
  }

  lemma StageMember(l: Line, d: Uuid, t: nat)
    requires InOrder(l) && t in Order(l, d)
    ensures t < |l.dirs| && l.dirs[t] == d
  {
    assert Watch(d);
    IdsMembers(l.dirs, d, t);
  }

  lemma {:induction false} IdsIncrease(dirs: seq<Uuid>, d: Uuid, i: nat, j: nat)
    requires i < j < |Ids(dirs, d)|
    ensures Ids(dirs, d)[i] < Ids(dirs, d)[j]
  {
    var rest := dirs[..|dirs| - 1];
    if j < |Ids(rest, d)| {
      IdsIncrease(rest, d, i, j);
    } else {
      IdsMembers(rest, d, Ids(rest, d)[i]);
    }
  }

  /** The swapped-out transaction of a directory is older than its live one. */
  lemma BatchBeforeLive(l: Line, d: Uuid)
    requires InOrder(l) && d in l.batch
    ensures l.batch[d] < |l.dirs| && l.dirs[l.batch[d]] == d
    ensures d in l.live ==> l.batch[d] < l.live[d]
  {
    var o := Order(l, d);
    assert Watch(d);
    var n := |o| - 1 - |At(l.live, d)|;
    assert o[n] == l.batch[d];
    StageMember(l, d, l.batch[d]);
    if d in l.live {
      IdsIncrease(l.dirs, d, n, n + 1);
    }
  }

  function FrozenOf(l: Line, d: Uuid): nat {
    Max(0, |Ids(l.dirs, d)| - |At(l.batch, d)| - |At(l.live, d)|)
  }

  /** The place of transaction `t` among those of its directory. */
  function Rank(dirs: seq<Uuid>, d: Uuid, t: nat): nat {
    if t <= |dirs| then |Ids(dirs[..t], d)| else 0
  }

  lemma {:induction false} RankIs(dirs: seq<Uuid>, d: Uuid, t: nat)
    requires t < |dirs| && dirs[t] == d
    ensures Rank(dirs, d, t) < |Ids(dirs, d)| && Ids(dirs, d)[Rank(dirs, d, t)] == t
  {
    var rest := dirs[..|dirs| - 1];
    if t == |dirs| - 1 {
      assert dirs[..t] == rest;
    } else {
      RankIs(rest, d, t);
      assert rest[..t] == dirs[..t];
    }
  }

  lemma IdsDistinct(dirs: seq<Uuid>, d: Uuid, i: nat, k: nat)
    requires i < |Ids(dirs, d)| && k < |Ids(dirs, d)| && Ids(dirs, d)[i] == Ids(dirs, d)[k]
    ensures i == k
  {
    if i < k {
      IdsIncrease(dirs, d, i, k);
    } else if k < i {
      IdsIncrease(dirs, d, k, i);
    }
  }

  /** The live transaction is the last, and the swapped-out one comes just before it. */
  lemma Ends(l: Line, d: Uuid)
    requires InOrder(l)
    ensures var ids := Ids(l.dirs, d);
            && |DoneOf(l, d)| + |InHand(l, d)| <= FrozenOf(l, d)
            && FrozenOf(l, d) + |At(l.batch, d)| + |At(l.live, d)| == |ids|
            && (d in l.live ==> ids[|ids| - 1] == l.live[d])
            && (d in l.batch ==> ids[FrozenOf(l, d)] == l.batch[d])
            && (InHand(l, d) != [] ==> ids[|DoneOf(l, d)|] == l.hands[Route(d)].id)
  {
    assert Watch(d);
    ChainParts(DoneOf(l, d), InHand(l, d), Queued(Queue(l, Route(d)), d), One(l.frozen, d), At(l.batch, d),
               At(l.live, d));
  }

  lemma ChainParts(a: seq<nat>, b: seq<nat>, c: seq<nat>, d: seq<nat>, e: seq<nat>, f: seq<nat>)
    ensures var s := Chain(a, b, c, d, e, f); var n := |a| + |b| + |c| + |d|;
            && |s| == n + |e| + |f|
            && (|b| == 1 ==> s[|a|] == b[0])
            && (|e| == 1 ==> s[n] == e[0])
            && (|f| == 1 ==> s[|s| - 1] == f[0])
  {
  }

  lemma IdInRange(dirs: seq<Uuid>, d: Uuid, k: nat)
    requires k < |Ids(dirs, d)|
    ensures Ids(dirs, d)[k] < |dirs| && dirs[Ids(dirs, d)[k]] == d
  {
    IdsMembers(dirs, d, Ids(dirs, d)[k]);
  }

  /** The transaction in a checkpoint thread's hands is one of its directory's. */
  lemma HandKnown(l: Line, i: nat)
    requires LineInv(l) && i in l.hands
    ensures var r := l.hands[i];
            && InHand(l, r.dir) == [r.id] && Route(r.dir) == i
            && r.id < |l.dirs| && l.dirs[r.id] == r.dir
  {
    Ends(l, l.hands[i].dir);
    IdInRange(l.dirs, l.hands[i].dir, |DoneOf(l, l.hands[i].dir)|);
  }
}
