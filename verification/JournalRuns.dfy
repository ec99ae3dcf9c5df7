/**
 * The journal under concurrency: calls that look up their directory's transaction in two phases, record themselves
 * or find it frozen and retry, while the commit and checkpoint threads move transactions along the stations.
 */
module JournalRuns {
  import opened Bytes
  import opened Transactions
  import opened Stages

  /** One transaction; `log` lists the calls recorded in it. */
  datatype Rec = Rec(committed: bool, tx: Tx, log: seq<nat>)

  /** One journal call; `before` are the calls already recorded when it began, `begun` the swaps done by then. */
  datatype Call = Call(dir: Uuid, op: Op, before: set<nat>, begun: nat)

  /**
   * Where an unfinished call stands: about to look up, past a miss, or holding a transaction fetched after `since`
   * swaps.
   */
  datatype Pc = Lookup | Missed | Has(tx: nat, since: nat)

  /**
   * `pos[c]` is the transaction and the place in its log where call `c` was recorded, `threw` are those whose recording
   * ended in a `logic_error`.
   */
  datatype State = State(
    line: Line,
    txs: seq<Rec>,
    calls: seq<Call>,
    pcs: map<nat, Pc>,
    retries: map<nat, nat>,
    pos: map<nat, (nat, nat)>,
    threw: set<nat>,
    swaps: nat,
    durable: map<Uuid, Durable>)

  datatype Step =
    | Start(dir: Uuid, op: Op)
    | Find(call: nat)
    | Miss(call: nat)
    | Enter(call: nat)
    | Log(call: nat)
    | Retry(call: nat)
    | Station(move: Move)

  function DurableOf(s: State, d: Uuid): Durable {
    DurableIn(s.durable, d)
  }

  predicate Begun(s: State, c: nat) {
    c in s.pcs && c < |s.calls|
  }

  predicate Holding(s: State, c: nat) {
    Begun(s, c) && s.pcs[c].Has? && s.pcs[c].tx < |s.txs|
  }

  predicate Enabled(s: State, step: Step) {
    match step
    case Start(_, _) => true
    case Find(c) => Begun(s, c) && s.pcs[c] == Lookup && s.calls[c].dir in s.line.live
    case Miss(c) => Begun(s, c) && s.pcs[c] == Lookup && s.calls[c].dir !in s.line.live
    case Enter(c) => Begun(s, c) && s.pcs[c] == Missed
    case Log(c) => Holding(s, c) && !s.txs[s.pcs[c].tx].committed
    case Retry(c) => Holding(s, c) && s.txs[s.pcs[c].tx].committed
    case Station(m) =>
      && !m.Create? && Can(s.line, m)
      && (m.Freeze? ==> s.line.batch[m.dir] < |s.txs|)
      && (m.Finish? ==>
            && s.line.hands[m.queue].id < |s.txs|
            && Sync(DurableOf(s, s.line.hands[m.queue].dir), s.txs[s.line.hands[m.queue].id].tx).Some?)
  }

  /** The second phase of `get_entry` inserts a transaction and call `c` holds it. */
  function Created(s: State, c: nat): State
    requires c < |s.calls| && s.calls[c].dir !in s.line.live
  {
    s.(line := Advance(s.line, Create(s.calls[c].dir)), txs := s.txs + [Rec(false, EMPTY, [])],
       pcs := s.pcs[c := Has(|s.line.dirs|, s.swaps)])
  }

  /** The recording of call `c` would end in a `logic_error`. */
  predicate Throws(s: State, c: nat)
    requires Holding(s, c)
  {
    Fails(s.txs[s.pcs[c].tx].tx, s.calls[c].op)
  }

  /** Call `c` takes effect on the transaction it holds, and returns or throws. */
  function Logged(s: State, c: nat): State
    requires Holding(s, c)
  {
    var threw := if Throws(s, c) then s.threw + {c} else s.threw;
    LoggedAs(s, c, Taken(s.txs[s.pcs[c].tx].tx, s.calls[c].op)).(threw := threw)
  }

  function LoggedAs(s: State, c: nat, tx: Tx): State
    requires Holding(s, c)
  {
    var t := s.pcs[c].tx;
    var r := s.txs[t];
    s.(txs := s.txs[t := r.(tx := tx, log := r.log + [c])], pcs := s.pcs - {c}, pos := s.pos[c := (t, |r.log|)])
  }

  function Take(s: State, step: Step): State
    requires Enabled(s, step)
  {
    match step
    case Start(d, op) =>
      s.(calls := s.calls + [Call(d, op, s.pos.Keys, s.swaps)],
         pcs := s.pcs[|s.calls| := Lookup], retries := s.retries[|s.calls| := 0])
    case Find(c) => s.(pcs := s.pcs[c := Has(s.line.live[s.calls[c].dir], s.swaps)])
    case Miss(c) => s.(pcs := s.pcs[c := Missed])
    case Enter(c) =>
      var d := s.calls[c].dir;
      if d in s.line.live then
        s.(pcs := s.pcs[c := Has(s.line.live[d], s.swaps)])
      else
        Created(s, c)
    case Log(c) => Logged(s, c)
    case Retry(c) =>
      s.(pcs := s.pcs[c := Lookup], retries := s.retries[c := (if c in s.retries then s.retries[c] else 0) + 1])
    case Station(m) =>
      var s' := s.(line := Advance(s.line, m));
      match m
      case Swap => s'.(swaps := s.swaps + 1)
      case Freeze(d) => s'.(txs := s.txs[s.line.batch[d] := s.txs[s.line.batch[d]].(committed := true)])
      case Finish(i) =>
        var r := s.line.hands[i];
        s'.(durable := s.durable[r.dir := Sync(DurableOf(s, r.dir), s.txs[r.id].tx).value])
      case _ => s'
  }

  predicate Init(s: State) {
    && s.line == START && s.txs == [] && s.calls == [] && s.pcs == map[] && s.retries == map[]
    && s.pos == map[] && s.threw == {} && s.swaps == 0
  }

  // Invariants

  predicate Earlier(p: (nat, nat), q: (nat, nat)) {
    p.0 < q.0 || (p.0 == q.0 && p.1 < q.1)
  }

  /** Transactions in the live or the swapped-out map are not frozen. */
  ghost predicate Thawed(m: map<Uuid, nat>, txs: seq<Rec>) {
    forall d :: d in m ==> m[d] < |txs| && !txs[m[d]].committed
  }

  /** Every call is unfinished or recorded, never both. */
  ghost predicate Accounted(calls: seq<Call>, pcs: map<nat, Pc>, pos: map<nat, (nat, nat)>) {
    && (forall c :: c in pcs ==> c < |calls| && c !in pos)
    && (forall c :: c in pos ==> c < |calls|)
    && (forall c :: 0 <= c < |calls| ==> c in pcs || c in pos)
    && (forall c, a :: 0 <= c < |calls| && a in calls[c].before ==> a in pos)
  }

  /** A recorded call is in exactly one place of one log, and that transaction is of its directory. */
  ghost predicate Placed(dirs: seq<Uuid>, txs: seq<Rec>, calls: seq<Call>, pos: map<nat, (nat, nat)>) {
    forall u {:trigger Unfold(u)} :: Unfold(u) && u == OfPlaces ==>
    && (forall c :: c in pos && c < |calls| ==>
          && pos[c].0 < |txs| && pos[c].0 < |dirs| && dirs[pos[c].0] == calls[c].dir
          && pos[c].1 < |txs[pos[c].0].log| && txs[pos[c].0].log[pos[c].1] == c)
    && (forall t, k :: 0 <= t < |txs| && 0 <= k < |txs[t].log| ==> txs[t].log[k] in pos && pos[txs[t].log[k]] == (t, k))
  }

  /**
   * A held transaction is of the right directory, no older than anything recorded before the call began, and the
   * live one unless a swap came since it was fetched.
   */
  ghost predicate HoldOk(dirs: seq<Uuid>, live: map<Uuid, nat>, swaps: nat, calls: seq<Call>, pos: map<nat, (nat, nat)>,
                         call: Call, t: nat, since: nat) {
    && t < |dirs| && dirs[t] == call.dir
    && since <= swaps && (since == swaps ==> call.dir in live && live[call.dir] == t)
    && (forall a :: a in call.before && a in pos && a < |calls| && calls[a].dir == call.dir ==> pos[a].0 <= t)
  }

  ghost predicate HoldsOk(dirs: seq<Uuid>, live: map<Uuid, nat>, swaps: nat, calls: seq<Call>,
                          pos: map<nat, (nat, nat)>, pcs: map<nat, Pc>) {
    forall u {:trigger Unfold(u)} :: Unfold(u) && u == OfHolds ==>
    forall c :: c in pcs && c < |calls| && pcs[c].Has? ==>
      HoldOk(dirs, live, swaps, calls, pos, calls[c], pcs[c].tx, pcs[c].since)
  }

  /** A call has retried no more often than maps were swapped since it began. */
  ghost predicate RetriesOk(calls: seq<Call>, pcs: map<nat, Pc>, retries: map<nat, nat>, swaps: nat) {
    forall c :: c in pcs && c < |calls| ==>
      && c in retries
      && calls[c].begun + retries[c] <= if pcs[c].Has? then pcs[c].since else swaps
  }

  /** Real-time order: what was recorded before a call began precedes it. */
  ghost predicate Linear(calls: seq<Call>, pos: map<nat, (nat, nat)>) {
    forall u {:trigger Unfold(u)} :: Unfold(u) && u == OfOrder ==>
    forall a, b ::
      b in pos && b < |calls| && a in calls[b].before && a in pos && a < |calls| && calls[a].dir == calls[b].dir ==>
      Earlier(pos[a], pos[b])
  }

  ghost predicate Inv(s: State) {
    && LineInv(s.line) && |s.txs| == |s.line.dirs|
    && Thawed(s.line.live, s.txs) && Thawed(s.line.batch, s.txs)
    && Accounted(s.calls, s.pcs, s.pos) && Placed(s.line.dirs, s.txs, s.calls, s.pos)
    && HoldsOk(s.line.dirs, s.line.live, s.swaps, s.calls, s.pos, s.pcs)
    && RetriesOk(s.calls, s.pcs, s.retries, s.swaps)
    && Linear(s.calls, s.pos)
  }

  // Steps

  lemma StartAccounted(calls: seq<Call>, pcs: map<nat, Pc>, pos: map<nat, (nat, nat)>, call: Call)
    requires Accounted(calls, pcs, pos) && call.before == pos.Keys
    ensures Accounted(calls + [call], pcs[|calls| := Lookup], pos)
  {
  }

  lemma StartHolds(s: State, call: Call)
    requires Inv(s)
    ensures HoldsOk(s.line.dirs, s.line.live, s.swaps, s.calls + [call], s.pos, s.pcs[|s.calls| := Lookup])
  {
    assert Unfold(OfHolds);
    var calls' := s.calls + [call];
    forall c | c in s.pcs && s.pcs[c].Has?
      ensures HoldOk(s.line.dirs, s.line.live, s.swaps, calls', s.pos, calls'[c], s.pcs[c].tx, s.pcs[c].since)
    {
      assert HoldOk(s.line.dirs, s.line.live, s.swaps, s.calls, s.pos, s.calls[c], s.pcs[c].tx, s.pcs[c].since);
    }
  }

  lemma StartPlaced(dirs: seq<Uuid>, txs: seq<Rec>, calls: seq<Call>, pos: map<nat, (nat, nat)>, call: Call)
    requires Placed(dirs, txs, calls, pos) && Linear(calls, pos)
    requires forall c :: c in pos ==> c < |calls|
    ensures Placed(dirs, txs, calls + [call], pos) && Linear(calls + [call], pos)
  {
    assert Unfold(OfPlaces) && Unfold(OfOrder);
  }

  lemma StartKeeps(s: State, d: Uuid, op: Op)
    requires Inv(s)
    ensures Inv(Take(s, Start(d, op)))
  {
    var call := Call(d, op, s.pos.Keys, s.swaps);
    StartAccounted(s.calls, s.pcs, s.pos, call);
    StartHolds(s, call);
    StartPlaced(s.line.dirs, s.txs, s.calls, s.pos, call);
  }

  /** A call takes the live transaction of its directory. */
  lemma FetchKeeps(s: State, c: nat)
    requires Inv(s) && c in s.pcs && !s.pcs[c].Has? && s.calls[c].dir in s.line.live
    ensures Inv(s.(pcs := s.pcs[c := Has(s.line.live[s.calls[c].dir], s.swaps)]))
  {
    assert Unfold(OfPlaces) && Unfold(OfHolds);
    LiveIsNewest(s.line, s.calls[c].dir);
    assert HoldOk(s.line.dirs, s.line.live, s.swaps, s.calls, s.pos, s.calls[c], s.line.live[s.calls[c].dir], s.swaps);
  }

  lemma CreateHolds(s: State, c: nat, d: Uuid)
    requires Inv(s) && c in s.pcs && !s.pcs[c].Has? && d == s.calls[c].dir && d !in s.line.live
    ensures HoldsOk(s.line.dirs + [d], s.line.live[d := |s.line.dirs|], s.swaps, s.calls, s.pos,
                    s.pcs[c := Has(|s.line.dirs|, s.swaps)])
  {
    assert Unfold(OfPlaces) && Unfold(OfHolds);
    var dirs', live' := s.line.dirs + [d], s.line.live[d := |s.line.dirs|];
    assert HoldOk(dirs', live', s.swaps, s.calls, s.pos, s.calls[c], |s.line.dirs|, s.swaps);
    forall e | e in s.pcs && e != c && s.pcs[e].Has?
      ensures HoldOk(dirs', live', s.swaps, s.calls, s.pos, s.calls[e], s.pcs[e].tx, s.pcs[e].since)
    {
      assert HoldOk(s.line.dirs, s.line.live, s.swaps, s.calls, s.pos, s.calls[e], s.pcs[e].tx, s.pcs[e].since);
    }
  }

  lemma CreatePlaced(dirs: seq<Uuid>, txs: seq<Rec>, calls: seq<Call>, pos: map<nat, (nat, nat)>, d: Uuid, r: Rec)
    requires Placed(dirs, txs, calls, pos) && |dirs| == |txs| && r.log == []
    ensures Placed(dirs + [d], txs + [r], calls, pos)
  {
    assert Unfold(OfPlaces);
  }

  lemma CreateKeepsLine(s: State, c: nat, d: Uuid, l: Line)
    requires Inv(s) && c in s.pcs && !s.pcs[c].Has? && d == s.calls[c].dir && d !in s.line.live
    requires LineInv(l) && l.dirs == s.line.dirs + [d] && l.live == s.line.live[d := |s.line.dirs|] &&
             l.batch == s.line.batch
    ensures Inv(s.(line := l, txs := s.txs + [Rec(false, EMPTY, [])], pcs := s.pcs[c := Has(|s.line.dirs|, s.swaps)]))
  {
    CreateHolds(s, c, d);
    CreatePlaced(s.line.dirs, s.txs, s.calls, s.pos, d, Rec(false, EMPTY, []));
    assert RetriesOk(s.calls, s.pcs[c := Has(|s.line.dirs|, s.swaps)], s.retries, s.swaps);
  }

  lemma CreateKeeps(s: State, c: nat)
    requires Inv(s) && c in s.pcs && !s.pcs[c].Has? && s.calls[c].dir !in s.line.live
    ensures Inv(Created(s, c))
  {
    var d := s.calls[c].dir;
    AdvanceKeeps(s.line, Create(d));
    CreateKeepsLine(s, c, d, Advance(s.line, Create(d)));
  }

  /** The log of one transaction grows by one call. */
  lemma LogPlaced(dirs: seq<Uuid>, txs: seq<Rec>, calls: seq<Call>, pos: map<nat, (nat, nat)>, t: nat, c: nat, tx: Tx)
    requires Placed(dirs, txs, calls, pos)
    requires t < |txs| && t < |dirs| && c < |calls| && c !in pos && dirs[t] == calls[c].dir
    ensures Placed(dirs, txs[t := txs[t].(tx := tx, log := txs[t].log + [c])], calls, pos[c := (t, |txs[t].log|)])
  {
    assert Unfold(OfPlaces);
  }

  lemma LogLinear(dirs: seq<Uuid>, txs: seq<Rec>, calls: seq<Call>, pos: map<nat, (nat, nat)>, t: nat, c: nat)
    requires Linear(calls, pos) && Placed(dirs, txs, calls, pos) && c < |calls| && c !in pos && t < |txs|
    requires forall b, a :: 0 <= b < |calls| && a in calls[b].before ==> a in pos
    requires forall a :: a in calls[c].before && a in pos && a < |calls| && calls[a].dir == calls[c].dir ==>
             pos[a].0 <= t
    ensures Linear(calls, pos[c := (t, |txs[t].log|)])
  {
    assert Unfold(OfPlaces) && Unfold(OfOrder);
  }

  lemma LogHolds(s: State, c: nat, p: (nat, nat))
    requires Inv(s) && c in s.pcs
    ensures HoldsOk(s.line.dirs, s.line.live, s.swaps, s.calls, s.pos[c := p], s.pcs - {c})
  {
    assert Unfold(OfHolds);
    forall e | e in s.pcs && e != c && s.pcs[e].Has?
      ensures HoldOk(s.line.dirs, s.line.live, s.swaps, s.calls, s.pos[c := p], s.calls[e], s.pcs[e].tx, s.pcs[e].since)
    {
      assert HoldOk(s.line.dirs, s.line.live, s.swaps, s.calls, s.pos, s.calls[e], s.pcs[e].tx, s.pcs[e].since);
    }
  }

  lemma LogAccounted(calls: seq<Call>, pcs: map<nat, Pc>, pos: map<nat, (nat, nat)>, c: nat, p: (nat, nat))
    requires Accounted(calls, pcs, pos) && c in pcs
    ensures Accounted(calls, pcs - {c}, pos[c := p])
  {
  }

  lemma LogKeeps(s: State, c: nat, tx: Tx)
    requires Inv(s) && Holding(s, c) && !s.txs[s.pcs[c].tx].committed
    ensures Inv(LoggedAs(s, c, tx))
  {
    assert Unfold(OfHolds);
    var t := s.pcs[c].tx;
    var p := (t, |s.txs[t].log|);
    assert HoldOk(s.line.dirs, s.line.live, s.swaps, s.calls, s.pos, s.calls[c], t, s.pcs[c].since);
    LogPlaced(s.line.dirs, s.txs, s.calls, s.pos, t, c, tx);
    LogLinear(s.line.dirs, s.txs, s.calls, s.pos, t, c);
    LogHolds(s, c, p);
    LogAccounted(s.calls, s.pcs, s.pos, c, p);
  }

  lemma RetryKeeps(s: State, c: nat)
    requires Inv(s) && Enabled(s, Retry(c))
    ensures Inv(Take(s, Retry(c)))
  {
    assert Unfold(OfHolds);
    assert HoldOk(s.line.dirs, s.line.live, s.swaps, s.calls, s.pos, s.calls[c], s.pcs[c].tx, s.pcs[c].since);
  }

  lemma FreezeThaws(s: State, d: Uuid)
    requires Inv(s) && Enabled(s, Station(Freeze(d)))
    ensures var txs' := Take(s, Station(Freeze(d))).txs;
            Thawed(s.line.live, txs') && Thawed(s.line.batch - {d}, txs')
  {
    BatchBeforeLive(s.line, d);
    forall e | e in s.line.live
      ensures s.line.live[e] != s.line.batch[d]
    {
      LiveIsNewest(s.line, e);
    }
    forall e | e in s.line.batch && e != d
      ensures s.line.batch[e] != s.line.batch[d]
    {
      BatchBeforeLive(s.line, e);
    }
  }

  lemma FreezePlaced(dirs: seq<Uuid>, txs: seq<Rec>, calls: seq<Call>, pos: map<nat, (nat, nat)>, t: nat)
    requires Placed(dirs, txs, calls, pos) && t < |txs|
    ensures Placed(dirs, txs[t := txs[t].(committed := true)], calls, pos)
  {
    assert Unfold(OfPlaces);
  }

  lemma FreezeKeeps(s: State, d: Uuid)
    requires Inv(s) && Enabled(s, Station(Freeze(d)))
    ensures Inv(Take(s, Station(Freeze(d))))
  {
    AdvanceKeeps(s.line, Freeze(d));
    FreezeThaws(s, d);
    FreezePlaced(s.line.dirs, s.txs, s.calls, s.pos, s.line.batch[d]);
  }

  lemma SwapKeeps(s: State)
    requires Inv(s) && Enabled(s, Station(Swap))
    ensures Inv(Take(s, Station(Swap)))
  {
    assert Unfold(OfHolds);
    AdvanceKeeps(s.line, Swap);
    forall c | c in s.pcs && c < |s.calls| && s.pcs[c].Has?
      ensures HoldOk(s.line.dirs, map[], s.swaps + 1, s.calls, s.pos, s.calls[c], s.pcs[c].tx, s.pcs[c].since)
    {
    }
  }

  /** The other moves leave the live map, the swapped-out map, the logs and the calls alone. */
  lemma MoveKeeps(s: State, m: Move)
    requires Inv(s) && Enabled(s, Station(m)) && !m.Freeze? && !m.Swap?
    ensures Inv(Take(s, Station(m)))
  {
    AdvanceKeeps(s.line, m);
    var s' := Take(s, Station(m));
    assert s'.line.dirs == s.line.dirs && s'.line.live == s.line.live && s'.line.batch == s.line.batch;
  }

  lemma StepKeeps(s: State, step: Step)
    requires Inv(s) && Enabled(s, step)
    ensures Inv(Take(s, step))
  {
    match step
    case Start(d, op) => StartKeeps(s, d, op);
    case Find(c) => FetchKeeps(s, c);
    case Miss(c) =>
    case Enter(c) => if s.calls[c].dir in s.line.live { FetchKeeps(s, c); } else { CreateKeeps(s, c); }
    case Log(c) => LogKeeps(s, c, Taken(s.txs[s.pcs[c].tx].tx, s.calls[c].op));
    case Retry(c) => RetryKeeps(s, c);
    case Station(m) =>
      if m.Freeze? {
        FreezeKeeps(s, m.dir);
      } else if m.Swap? {
        SwapKeeps(s);
      } else {
        MoveKeeps(s, m);
      }
  }

  // Frozen transactions come first

  /** Only transactions in the live or the swapped-out map are not frozen. */
  ghost predicate Settled(line: Line, txs: seq<Rec>) {
    forall t :: 0 <= t < |txs| && t < |line.dirs| && !txs[t].committed ==>
      || (line.dirs[t] in line.live && line.live[line.dirs[t]] == t)
      || (line.dirs[t] in line.batch && line.batch[line.dirs[t]] == t)
  }

  /** Transactions are frozen in order. */
  lemma FrozenIff(l: Line, txs: seq<Rec>, t: nat)
    requires InOrder(l) && |txs| == |l.dirs| && t < |txs|
    requires Settled(l, txs) && Thawed(l.live, txs) && Thawed(l.batch, txs)
    ensures txs[t].committed <==> Rank(l.dirs, l.dirs[t], t) < FrozenOf(l, l.dirs[t])
  {
    var d := l.dirs[t];
    var ids, k := Ids(l.dirs, d), Rank(l.dirs, d, t);
    RankIs(l.dirs, d, t);
    Ends(l, d);
    if !txs[t].committed {
      if d in l.live && l.live[d] == t {
        IdsDistinct(l.dirs, d, k, |ids| - 1);
      } else {
        IdsDistinct(l.dirs, d, k, FrozenOf(l, d));
      }
    }
  }

  lemma SettledKeeps(j: State, step: Step)
    requires Inv(j) && Settled(j.line, j.txs) && Enabled(j, step)
    ensures Settled(Take(j, step).line, Take(j, step).txs)
  {
    match step
    case Start(_, _) =>
    case Find(_) =>
    case Miss(_) =>
    case Enter(_) =>
    case Log(_) =>
    case Retry(_) =>
    case Station(m) => StationSettled(j, m);
  }

  lemma StationSettled(j: State, m: Move)
    requires Inv(j) && Settled(j.line, j.txs) && Enabled(j, Station(m))
    ensures Settled(Take(j, Station(m)).line, Take(j, Station(m)).txs)
  {
    var j' := Take(j, Station(m));
    if m.Freeze? {
      BatchBeforeLive(j.line, m.dir);
    } else if !m.Swap? {
      assert j'.txs == j.txs && j'.line.dirs == j.line.dirs && j'.line.live == j.line.live &&
          j'.line.batch == j.line.batch;
    }
  }

  // What a step leaves alone

  lemma StationFrame(j: State, m: Move)
    requires Enabled(j, Station(m))
    ensures var j' := Take(j, Station(m));
            && j'.calls == j.calls && j'.pcs == j.pcs && j'.pos == j.pos && j'.retries == j.retries
            && j'.line.dirs == j.line.dirs
            && (!m.Freeze? ==> j'.txs == j.txs)
            && (!m.Finish? ==> j'.durable == j.durable && j'.line.done == j.line.done)
  {
  }

  lemma EnterFrame(j: State, c: nat)
    requires Enabled(j, Enter(c))
    ensures var j' := Take(j, Enter(c));
            && j'.calls == j.calls && j'.pcs.Keys == j.pcs.Keys && j'.retries == j.retries
            && j'.durable == j.durable && j'.line.done == j.line.done && j'.line.batch == j.line.batch
  {
  }

  /** The journal steps other than `Start` leave calls alone; only `Log` ends one. */
  lemma JournalFrame(j: State, step: Step)
    requires Enabled(j, step) && !step.Start?
    ensures var j' := Take(j, step);
            && j'.calls == j.calls
            && j'.pcs.Keys == (if step.Log? then j.pcs.Keys - {step.call} else j.pcs.Keys)
            && j'.retries.Keys >= j.retries.Keys
  {
    if step.Station? {
      StationFrame(j, step.move);
    } else if step.Enter? {
      EnterFrame(j, step.call);
    }
  }

  // Whole runs

  ghost predicate Run(states: seq<State>, steps: seq<Step>) {
    && |states| == |steps| + 1 && Init(states[0])
    && forall i :: 0 <= i < |steps| ==> Enabled(states[i], steps[i]) && states[i + 1] == Take(states[i], steps[i])
  }

  lemma StartLine()
    ensures LineInv(START)
  {
  }

  lemma {:induction false} RunKeeps(states: seq<State>, steps: seq<Step>, n: nat)
    requires Run(states, steps) && n < |states|
    ensures Inv(states[n])
  {
    if n == 0 {
      StartLine();
    } else {
      RunKeeps(states, steps, n - 1);
      StepKeeps(states[n - 1], steps[n - 1]);
    }
  }

  /** A later log extends an earlier one, and a frozen transaction never changes. */
  ghost predicate TxsExtend(txs: seq<Rec>, txs': seq<Rec>) {
    && |txs| <= |txs'|
    && forall t :: 0 <= t < |txs| ==> txs[t].log <= txs'[t].log && (txs[t].committed ==> txs'[t] == txs[t])
  }

  /** Calls stay what they were, recorded calls stay where they were, and later calls know the recorded ones. */
  ghost predicate CallsExtend(calls: seq<Call>, pos: map<nat, (nat, nat)>, calls': seq<Call>,
                              pos': map<nat, (nat, nat)>) {
    && |calls| <= |calls'|
    && (forall c :: 0 <= c < |calls| ==> calls'[c] == calls[c])
    && (forall c :: c in pos ==> c in pos' && pos'[c] == pos[c])
    && (forall c :: |calls| <= c < |calls'| ==> pos.Keys <= calls'[c].before)
  }

  ghost predicate Extends(s: State, s': State) {
    forall u {:trigger Unfold(u)} :: Unfold(u) && u == OfHistory ==>
      TxsExtend(s.txs, s'.txs) && CallsExtend(s.calls, s.pos, s'.calls, s'.pos)
  }

  lemma ExtendsSelf(s: State)
    ensures Extends(s, s)
  {
  }

  lemma ReplaceExtends(txs: seq<Rec>, t: nat, r: Rec)
    requires t < |txs| && !txs[t].committed && txs[t].log <= r.log
    ensures TxsExtend(txs, txs[t := r])
  {
  }

  lemma LogExtends(s: State, c: nat, tx: Tx)
    requires Inv(s) && Holding(s, c) && !s.txs[s.pcs[c].tx].committed
    ensures Extends(s, LoggedAs(s, c, tx))
  {
    var t := s.pcs[c].tx;
    ReplaceExtends(s.txs, t, LoggedAs(s, c, tx).txs[t]);
  }

  lemma StationExtends(s: State, m: Move)
    requires Inv(s) && Enabled(s, Station(m))
    ensures Extends(s, Take(s, Station(m)))
  {
    var s' := Take(s, Station(m));
    assert s'.calls == s.calls && s'.pos == s.pos;
    if m.Freeze? {
      ReplaceExtends(s.txs, s.line.batch[m.dir], s'.txs[s.line.batch[m.dir]]);
    } else {
      assert s'.txs == s.txs;
    }
  }

  lemma StepExtends(s: State, step: Step)
    requires Inv(s) && Enabled(s, step)
    ensures Extends(s, Take(s, step))
  {
    match step
    case Log(c) => LogExtends(s, c, Taken(s.txs[s.pcs[c].tx].tx, s.calls[c].op));
    case Station(m) => StationExtends(s, m);
    case _ =>
  }

  lemma ExtendsTransitive(a: State, b: State, c: State)
    requires Extends(a, b) && Extends(b, c)
    ensures Extends(a, c)
  {
    assert Unfold(OfHistory);
    forall t | 0 <= t < |a.txs|
      ensures a.txs[t].log <= c.txs[t].log
    {
      assert a.txs[t].log <= b.txs[t].log && b.txs[t].log <= c.txs[t].log;
    }
  }

  lemma RunStepExtends(states: seq<State>, steps: seq<Step>, n: nat)
    requires Run(states, steps) && n < |steps|
    ensures Extends(states[n], states[n + 1])
  {
    RunKeeps(states, steps, n);
    StepExtends(states[n], steps[n]);
  }

  lemma {:induction false} RunExtends(states: seq<State>, steps: seq<Step>, i: nat, n: nat)
    requires Run(states, steps) && i <= n < |states|
    ensures Extends(states[i], states[n])
    decreases n - i
  {
    if i < n {
      RunExtends(states, steps, i, n - 1);
      RunStepExtends(states, steps, n - 1);
      ExtendsTransitive(states[i], states[n - 1], states[n]);
    } else {
      ExtendsSelf(states[i]);
    }
  }

  /**
   * Linearizability: an operation that was recorded before another on the same directory began sits in an earlier
   * transaction or earlier in the same one, in every later state.
   */
  lemma RealTimeOrder(states: seq<State>, steps: seq<Step>, i: nat, n: nat, a: nat, b: nat)
    requires Run(states, steps) && i <= n < |states|
    requires a in states[i].pos && |states[i].calls| <= b && b in states[n].pos
    requires a < |states[n].calls| && b < |states[n].calls| && states[n].calls[a].dir == states[n].calls[b].dir
    ensures a in states[n].pos && Earlier(states[n].pos[a], states[n].pos[b])
  {
    assert Unfold(OfOrder) && Unfold(OfHistory);
    RunExtends(states, steps, i, n);
    RunKeeps(states, steps, n);
  }

  /**
   * No loss: a finished call stands in exactly one place of one log, of its own directory; once that transaction is
   * frozen it never changes; and the transactions of a directory become durable in the order they were created.
   */
  lemma NothingLost(states: seq<State>, steps: seq<Step>, i: nat, n: nat, c: nat, t: nat, d: Uuid)
    requires Run(states, steps) && i <= n < |states|
    ensures c < |states[n].calls| && c !in states[n].pcs ==> c in states[n].pos
    ensures c in states[n].pos ==>
              var p := states[n].pos[c];
              && p.0 < |states[n].txs| && p.1 < |states[n].txs[p.0].log| && states[n].txs[p.0].log[p.1] == c
              && forall u, k ::
                   0 <= u < |states[n].txs| && 0 <= k < |states[n].txs[u].log| && states[n].txs[u].log[k] == c ==>
                     (u, k) == p
    ensures t < |states[i].txs| && states[i].txs[t].committed ==>
            t < |states[n].txs| && states[n].txs[t] == states[i].txs[t]
    ensures Order(states[n].line, d) == Ids(states[n].line.dirs, d)
  {
    assert Unfold(OfPlaces) && Unfold(OfHistory);
    RunExtends(states, steps, i, n);
    RunKeeps(states, steps, n);
    assert Watch(d);
  }

  /**
   * An unfinished call has retried at most once per `replace_map` since it began, and no live transaction is frozen.
   */
  lemma RetriesAreBounded(states: seq<State>, steps: seq<Step>, n: nat, c: nat, d: Uuid)
    requires Run(states, steps) && n < |states|
    ensures c in states[n].pcs ==>
              && c < |states[n].calls| && c in states[n].retries
              && states[n].retries[c] <= states[n].swaps - states[n].calls[c].begun
    ensures d in states[n].line.live ==>
            states[n].line.live[d] < |states[n].txs| && !states[n].txs[states[n].line.live[d]].committed
  {
    assert Unfold(OfHolds);
    RunKeeps(states, steps, n);
    if c in states[n].pcs && states[n].pcs[c].Has? {
      var s := states[n];
      assert HoldOk(s.line.dirs, s.line.live, s.swaps, s.calls, s.pos, s.calls[c], s.pcs[c].tx, s.pcs[c].since);
    }
  }

  /** Once checkpoint thread `Route(d)` has taken its sentinel, every transaction of `d` but a live one is durable. */
  lemma DrainedAtStop(states: seq<State>, steps: seq<Step>, n: nat, d: Uuid)
    requires Run(states, steps) && n < |states| && Route(d) in states[n].line.finished
    ensures Ids(states[n].line.dirs, d) == DoneOf(states[n].line, d) + At(states[n].line.live, d)
  {
    RunKeeps(states, steps, n);
    Drained(states[n].line, d);
  }

  lemma RunGrows(states: seq<State>, steps: seq<Step>, step: Step, s: State)
    requires Run(states, steps) && Enabled(states[|steps|], step) && Take(states[|steps|], step) == s
    ensures Run(states + [s], steps + [step])
  {
  }

  /** `mkself` of a new directory, with one empty transaction in the given station. */
  function Early(d: Uuid, self: Inode, line: Line, swaps: nat, frozen: bool, pc: Pc): State {
    State(line, [Rec(frozen, EMPTY, [])], [Call(d, MkSelf(self), {}, 0)], map[0 := pc], map[0 := 0], map[], {}, swaps,
          map[])
  }

  lemma EarlyEnter(d: Uuid, self: Inode) returns (states: seq<State>, steps: seq<Step>)
    ensures Run(states, steps)
    ensures states[|steps|] == Early(d, self, START.(dirs := [d], live := map[d := 0]), 0, false, Has(0, 0))
  {
    var s0 := State(START, [], [], map[], map[], map[], {}, 0, map[]);
    var s1 := s0.(calls := [Call(d, MkSelf(self), {}, 0)], pcs := map[0 := Lookup], retries := map[0 := 0]);
    var s2 := s1.(pcs := map[0 := Missed]);
    var s3 := Early(d, self, START.(dirs := [d], live := map[d := 0]), 0, false, Has(0, 0));
    states, steps := [s0], [];
    assert s0.pos.Keys == {} && Take(s0, Start(d, MkSelf(self))) == s1;
    RunGrows(states, steps, Start(d, MkSelf(self)), s1);
    states, steps := states + [s1], steps + [Start(d, MkSelf(self))];
    RunGrows(states, steps, Miss(0), s2);
    states, steps := states + [s2], steps + [Miss(0)];
    assert Created(s2, 0) == s3;
    RunGrows(states, steps, Enter(0), s3);
    states, steps := states + [s3], steps + [Enter(0)];
  }

  lemma EarlyFreeze(d: Uuid, self: Inode) returns (states: seq<State>, steps: seq<Step>)
    ensures Run(states, steps)
    ensures states[|steps|] == Early(d, self, START.(dirs := [d], frozen := Some(TxRef(0, d))), 1, true, Has(0, 0))
  {
    states, steps := EarlyEnter(d, self);
    var s4 := Early(d, self, START.(dirs := [d], batch := map[d := 0]), 1, false, Has(0, 0));
    var s5 := Early(d, self, START.(dirs := [d], frozen := Some(TxRef(0, d))), 1, true, Has(0, 0));
    RunGrows(states, steps, Station(Swap), s4);
    states, steps := states + [s4], steps + [Station(Swap)];
    assert map[d := 0] - {d} == map[];
    RunGrows(states, steps, Station(Freeze(d)), s5);
    states, steps := states + [s5], steps + [Station(Freeze(d))];
  }

  /** The empty transaction is in the hands of its checkpoint thread. */
  function Dispatched(d: Uuid): Line {
    START.(dirs := [d], queues := map[Route(d) := []], hands := map[Route(d) := TxRef(0, d)])
  }

  lemma EarlyDispatch(d: Uuid, self: Inode) returns (states: seq<State>, steps: seq<Step>)
    ensures Run(states, steps) && states[|steps|] == Early(d, self, Dispatched(d), 1, true, Has(0, 0))
  {
    states, steps := EarlyFreeze(d, self);
    var l6 := START.(dirs := [d], queues := map[Route(d) := [Some(TxRef(0, d))]]);
    var l7 := Dispatched(d);
    var s6, s7 := Early(d, self, l6, 1, true, Has(0, 0)), Early(d, self, l7, 1, true, Has(0, 0));
    var line, item: Option<TxRef> := states[|steps|].line, Some(TxRef(0, d));
    assert Queue(line, Route(d)) + [item] == [item];
    assert line.queues[Route(d) := [item]] == l6.queues;
    assert Advance(line, Issue) == l6;
    RunGrows(states, steps, Station(Issue), s6);
    states, steps := states + [s6], steps + [Station(Issue)];
    assert Advance(l6, Dispatch(Route(d))) == l7;
    RunGrows(states, steps, Station(Dispatch(Route(d))), s7);
    states, steps := states + [s7], steps + [Station(Dispatch(Route(d)))];
  }

  /**
   * The commit thread can freeze a new directory's first transaction before `mkself` reaches it: there is a run in
   * which its checkpoint can only throw while the `mkself` call has yet to retry.
   */
  lemma FrozenTooEarly(d: Uuid, self: Inode) returns (states: seq<State>, steps: seq<Step>)
    ensures Run(states, steps)
    ensures var s := states[|steps|]; var i := Route(d);
            && Begun(s, 0) && s.calls[0].op == MkSelf(self) && Enabled(s, Retry(0))
            && i in s.line.hands && s.line.hands[i] == TxRef(0, d) && !Enabled(s, Station(Finish(i)))
  {
    states, steps := EarlyDispatch(d, self);
  }
}
