/** Every step of the write-back cache is, for each directory, a step of its lane. */
module WriteBackRuns {
  import opened Bytes
  import opened Transactions
  import opened DentryTables
  import opened Stages
  import opened Lanes
  import opened WriteBack
  import J = JournalRuns

  // What the lanes do not show

  lemma OwnedFrame(j: J.State, busy: map<Uuid, Task>, j': J.State)
    requires Owned(j, busy) && j'.calls == j.calls && j'.pcs.Keys == j.pcs.Keys
    ensures Owned(j', busy)
  {
  }

  lemma OwnedLog(w: World, c: nat, threw: bool, j': J.State)
    requires Owned(w.j, w.busy) && c in w.j.pcs && c < |w.j.calls|
    requires j'.calls == w.j.calls && j'.pcs.Keys == w.j.pcs.Keys - {c}
    ensures Owned(j', Returned(w, c, threw))
  {
  }

  lemma OwnedKeeps(w: World, step: J.Step)
    requires J.Inv(w.j) && Owned(w.j, w.busy) && Enabled(w, Journal(step))
    ensures Owned(Take(w, Journal(step)).j, Take(w, Journal(step)).busy)
  {
    J.JournalFrame(w.j, step);
    if step.Log? {
      OwnedLog(w, step.call, J.Throws(w.j, step.call), J.Take(w.j, step));
    } else {
      OwnedFrame(w.j, w.busy, J.Take(w.j, step));
    }
  }

  /** `at` are the directories in which a step creates a transaction or has one done. */
  lemma ConfinedFrame(w: World, j': J.State, busy: map<Uuid, Task>, at: set<Uuid>)
    requires Confined(w) && at <= w.known && j'.calls == w.j.calls && busy.Keys <= w.known
    requires (forall t :: 0 <= t < |j'.line.dirs| ==>
              (t < |w.j.line.dirs| && j'.line.dirs[t] == w.j.line.dirs[t]) || j'.line.dirs[t] in at)
    requires j'.line.done.Keys <= w.j.line.done.Keys + at
    ensures Confined(w.(j := j', busy := busy))
  {
  }

  lemma EnterDirs(j: J.State, c: nat)
    requires J.Enabled(j, J.Enter(c))
    ensures var dirs' := J.Take(j, J.Enter(c)).line.dirs;
            dirs' == j.line.dirs || dirs' == j.line.dirs + [j.calls[c].dir]
  {
  }

  lemma FinishDone(j: J.State, i: nat)
    requires J.Enabled(j, J.Station(Finish(i)))
    ensures J.Take(j, J.Station(Finish(i))).line.done.Keys == j.line.done.Keys + {j.line.hands[i].dir}
  {
  }

  lemma Touched(j: J.State, step: J.Step) returns (at: set<Uuid>)
    requires LineInv(j.line) && J.Enabled(j, step) && !step.Start?
    ensures var l' := J.Take(j, step).line;
            && (forall t :: 0 <= t < |l'.dirs| ==>
                (t < |j.line.dirs| && l'.dirs[t] == j.line.dirs[t]) || l'.dirs[t] in at)
            && l'.done.Keys <= j.line.done.Keys + at
    ensures forall d :: d in at ==> d in j.line.dirs || exists c :: 0 <= c < |j.calls| && j.calls[c].dir == d
  {
    at := {};
    if step.Enter? {
      J.EnterFrame(j, step.call);
      EnterDirs(j, step.call);
      at := {j.calls[step.call].dir};
    } else if step.Station? {
      J.StationFrame(j, step.move);
      if step.move.Finish? {
        HandKnown(j.line, step.move.queue);
        FinishDone(j, step.move.queue);
        at := {j.line.hands[step.move.queue].dir};
      }
    }
  }

  lemma ConfinedKeeps(w: World, step: J.Step)
    requires LineInv(w.j.line) && Confined(w) && Enabled(w, Journal(step))
    ensures Confined(Take(w, Journal(step)))
  {
    J.JournalFrame(w.j, step);
    var at := Touched(w.j, step);
    ConfinedFrame(w, J.Take(w.j, step), Take(w, Journal(step)).busy, at);
  }

  lemma MakersFrame(w: World, j': J.State, busy: map<Uuid, Task>)
    requires MakersOk(w) && j'.calls == w.j.calls && w.j.retries.Keys <= j'.retries.Keys
    requires forall d :: d in busy ==> d in w.busy && (busy[d].call.None? || busy[d].call == w.busy[d].call)
    ensures MakersOk(w.(j := j', busy := busy))
  {
    var w' := w.(j := j', busy := busy);
    forall d | d in busy && PendingOf(w', d).Some?
      ensures PendingOf(w', d) == PendingOf(w, d)
    {
    }
  }

  lemma MakersKeep(w: World, step: J.Step)
    requires MakersOk(w) && Enabled(w, Journal(step))
    ensures MakersOk(Take(w, Journal(step)))
  {
    J.JournalFrame(w.j, step);
    var w' := Take(w, Journal(step));
    MakersFrame(w, w'.j, w'.busy);
  }

  // Lanes that a step leaves alone

  lemma SameQuiet(j: J.State, j': J.State, d: Uuid)
    requires j'.calls == j.calls && j'.pcs.Keys == j.pcs.Keys
    ensures WritersOf(j', d) == WritersOf(j, d) && QuietOf(j', d) == QuietOf(j, d)
  {
    forall c
      ensures IsQuiet(j', d, c) == IsQuiet(j, d, c)
    {
    }
    if QuietOf(j, d) {
      var c :| c in j.pcs && IsQuiet(j, d, c);
      assert c in j'.pcs;
    }
    if QuietOf(j', d) {
      var c :| c in j'.pcs && IsQuiet(j', d, c);
      assert c in j.pcs;
    }
  }

  /** A call looks at or takes a transaction that is there already. */
  lemma PcLane(w: World, c: nat, pc: J.Pc, d: Uuid)
    requires c in w.j.pcs
    ensures var w' := w.(j := w.j.(pcs := w.j.pcs[c := pc]));
            LaneOf(w', d) ==
            if CallOf(w, d) == Some(c) then
              LaneOf(w, d).(hold := if pc.Has? then Some(Rank(w.j.line.dirs, d, pc.tx)) else None)
            else LaneOf(w, d)
  {
    SameQuiet(w.j, w.j.(pcs := w.j.pcs[c := pc]), d);
  }

  /** Call `c` holds the live transaction of its directory. */
  function Fetched(w: World, c: nat): World
    requires J.Begun(w.j, c) && w.j.calls[c].dir in w.j.line.live
  {
    w.(j := w.j.(pcs := w.j.pcs[c := J.Has(w.j.line.live[w.j.calls[c].dir], w.j.swaps)]))
  }

  /** The lane of the call's own mutex holder, before. */
  lemma FetchReady(w: World, c: nat, d: Uuid)
    requires InOrder(w.j.line) && Owned(w.j, w.busy) && CallOf(w, d) == Some(c)
    requires J.Begun(w.j, c) && !w.j.pcs[c].Has? && w.j.calls[c].dir in w.j.line.live
    ensures w.j.calls[c].dir == d && PendingOf(w, d).Some? && HoldOf(w, d).None?
    ensures |Ids(w.j.line.dirs, d)| > FrozenOf(w.j.line, d)
    ensures Rank(w.j.line.dirs, d, w.j.line.live[d]) == |Ids(w.j.line.dirs, d)| - 1
  {
    LiveRank(w.j.line, d);
  }

  lemma FetchedLane(w: World, c: nat, d: Uuid)
    requires InOrder(w.j.line) && Owned(w.j, w.busy)
    requires J.Begun(w.j, c) && !w.j.pcs[c].Has? && w.j.calls[c].dir in w.j.line.live
    ensures CallOf(w, d) == Some(c) ==> var l := LaneOf(w, d); l.pending.Some? && l.hold.None? && l.frozen < |l.txs|
    ensures var l := LaneOf(w, d);
            LaneOf(Fetched(w, c), d) == if CallOf(w, d) == Some(c) then l.(hold := Some(|l.txs| - 1)) else l
  {
    if CallOf(w, d) == Some(c) {
      FetchReady(w, c, d);
    }
    PcLane(w, c, J.Has(w.j.line.live[w.j.calls[c].dir], w.j.swaps), d);
  }

  lemma FetchLanes(w: World, c: nat, d: Uuid)
    requires InOrder(w.j.line) && Owned(w.j, w.busy) && LaneInv(LaneOf(w, d))
    requires J.Begun(w.j, c) && !w.j.pcs[c].Has? && w.j.calls[c].dir in w.j.line.live
    ensures LaneInv(LaneOf(Fetched(w, c), d))
  {
    FetchedLane(w, c, d);
    FetchIf(LaneOf(w, d), LaneOf(Fetched(w, c), d), CallOf(w, d) == Some(c));
  }

  lemma FetchIf(l: Lane, l': Lane, here: bool)
    requires LaneInv(l) && (here ==> l.pending.Some? && l.hold.None? && l.frozen < |l.txs|)
    requires l' == if here then l.(hold := Some(|l.txs| - 1)) else l
    ensures LaneInv(l')
  {
    if here {
      FetchKeeps(l);
    }
  }

  lemma LiveRank(l: Line, d: Uuid)
    requires InOrder(l) && d in l.live
    ensures |Ids(l.dirs, d)| > FrozenOf(l, d) && Rank(l.dirs, d, l.live[d]) == |Ids(l.dirs, d)| - 1
  {
    Ends(l, d);
    LiveIsNewest(l, d);
    RankIs(l.dirs, d, l.live[d]);
    IdsDistinct(l.dirs, d, Rank(l.dirs, d, l.live[d]), |Ids(l.dirs, d)| - 1);
  }

  lemma CountLane(w: World, retries: map<nat, nat>, d: Uuid)
    ensures var w' := w.(j := w.j.(retries := retries));
            LaneOf(w', d) == LaneOf(w, d).(made := MadeOf(w', d))
  {
    SameQuiet(w.j, w.j.(retries := retries), d);
  }

  lemma RetryLane(w: World, c: nat, retries: map<nat, nat>, d: Uuid)
    requires MakersOk(w) && Owned(w.j, w.busy) && J.Begun(w.j, c)
    requires retries == w.j.retries[c := (if c in w.j.retries then w.j.retries[c] else 0) + 1]
    ensures LaneOf(w.(j := w.j.(pcs := w.j.pcs[c := J.Lookup], retries := retries)), d) ==
            if CallOf(w, d) == Some(c) then Dropped(LaneOf(w, d)) else LaneOf(w, d)
  {
    PcLane(w, c, J.Lookup, d);
    CountLane(w.(j := w.j.(pcs := w.j.pcs[c := J.Lookup])), retries, d);
    RetryMade(w, c, retries, d);
  }

  lemma RetryMade(w: World, c: nat, retries: map<nat, nat>, d: Uuid)
    requires MakersOk(w) && Owned(w.j, w.busy) && J.Begun(w.j, c)
    requires retries == w.j.retries[c := (if c in w.j.retries then w.j.retries[c] else 0) + 1]
    ensures MadeOf(w.(j := w.j.(retries := retries)), d) ==
            if CallOf(w, d) == Some(c) && PendingOf(w, d).value.MkSelf? then Some(MadeOf(w, d).value + 1)
                else MadeOf(w, d)
  {
  }

  lemma RetryLanes(w: World, c: nat, retries: map<nat, nat>, d: Uuid)
    requires MakersOk(w) && Owned(w.j, w.busy) && J.Begun(w.j, c) && LaneInv(LaneOf(w, d))
    requires retries == w.j.retries[c := (if c in w.j.retries then w.j.retries[c] else 0) + 1]
    requires CallOf(w, d) == Some(c) ==> HoldOf(w, d).Some? && HoldOf(w, d).value < FrozenOf(w.j.line, d)
    ensures LaneInv(LaneOf(w.(j := w.j.(pcs := w.j.pcs[c := J.Lookup], retries := retries)), d))
  {
    RetryLane(w, c, retries, d);
    if CallOf(w, d) == Some(c) {
      DropKeeps(LaneOf(w, d));
    }
  }

  // A transaction is created

  /** The mutex holder of `d` holds one of its transactions, if any. */
  predicate HeldOk(w: World, d: Uuid) {
    var c := CallOf(w, d);
    c.Some? && c.value in w.j.pcs && w.j.pcs[c.value].Has? ==>
      w.j.pcs[c.value].tx < |w.j.line.dirs| && w.j.line.dirs[w.j.pcs[c.value].tx] == d
  }

  lemma CreateTxs(dirs: seq<Uuid>, txs: seq<J.Rec>, e: Uuid, r: J.Rec, d: Uuid)
    requires |dirs| == |txs|
    ensures TxsOf(Ids(dirs + [e], d), txs + [r]) == TxsOf(Ids(dirs, d), txs) + if e == d then [r.tx] else []
  {
    IdsPush(dirs, e, d);
    forall k | 0 <= k < |Ids(dirs, d)|
      ensures Ids(dirs, d)[k] < |dirs|
    {
      IdInRange(dirs, d, k);
    }
  }

  lemma FrameHold(w: World, j': J.State, d: Uuid)
    requires j'.calls == w.j.calls && j'.pcs == w.j.pcs && w.j.line.dirs <= j'.line.dirs && HeldOk(w, d)
    ensures HoldOf(w.(j := j'), d) == HoldOf(w, d)
  {
    if HoldOf(w, d).Some? {
      var t := w.j.pcs[CallOf(w, d).value].tx;
      assert w.j.line.dirs[..t] == j'.line.dirs[..t];
    }
  }

  /** The calls stand still while transactions move. */
  lemma FrameLane(w: World, j': J.State, d: Uuid)
    requires j'.calls == w.j.calls && j'.pcs == w.j.pcs && j'.retries == w.j.retries
    requires w.j.line.dirs <= j'.line.dirs && HeldOk(w, d)
    ensures var w' := w.(j := j');
            LaneOf(w', d) ==
            LaneOf(w, d).(txs := TxsOf(Ids(j'.line.dirs, d), j'.txs), frozen := FrozenOf(j'.line, d),
                          done := |DoneOf(j'.line, d)|, durable := J.DurableOf(j', d).dentry)
  {
    SameQuiet(w.j, j', d);
    FrameHold(w, j', d);
  }

  function WithTx(j: J.State, e: Uuid): J.State
    requires e !in j.line.live
  {
    j.(line := Advance(j.line, Create(e)), txs := j.txs + [J.Rec(false, EMPTY, [])])
  }

  lemma CreateLane(w: World, e: Uuid, d: Uuid)
    requires e !in w.j.line.live && |w.j.txs| == |w.j.line.dirs| && HeldOk(w, d)
    ensures var l := LaneOf(w, d);
            LaneOf(w.(j := WithTx(w.j, e)), d) == if e == d then l.(txs := l.txs + [EMPTY]) else l
  {
    FrameLane(w, WithTx(w.j, e), d);
    CreateTxs(w.j.line.dirs, w.j.txs, e, J.Rec(false, EMPTY, []), d);
    CreateFrozen(w.j.line, e, d);
  }

  lemma CreateFrozen(l: Line, e: Uuid, d: Uuid)
    requires e !in l.live
    ensures FrozenOf(Advance(l, Create(e)), d) == FrozenOf(l, d) && Advance(l, Create(e)).dirs == l.dirs + [e]
    ensures DoneOf(Advance(l, Create(e)), d) == DoneOf(l, d)
  {
    IdsPush(l.dirs, e, d);
  }

  lemma CreateRankIs(dirs: seq<Uuid>, e: Uuid)
    ensures Rank(dirs + [e], e, |dirs|) == |Ids(dirs, e)|
  {
    assert (dirs + [e])[..|dirs|] == dirs;
  }

  lemma CreatedLane(w: World, c: nat, d: Uuid)
    requires J.Begun(w.j, c) && w.j.calls[c].dir !in w.j.line.live && |w.j.txs| == |w.j.line.dirs|
    requires Owned(w.j, w.busy) && HeldOk(w, d)
    ensures var l := LaneOf(w, d);
            LaneOf(w.(j := J.Created(w.j, c)), d) ==
            if w.j.calls[c].dir != d then l
            else if CallOf(w, d) == Some(c) then l.(txs := l.txs + [EMPTY], hold := Some(|l.txs|))
            else l.(txs := l.txs + [EMPTY])
  {
    var e := w.j.calls[c].dir;
    var w1, pc := w.(j := WithTx(w.j, e)), J.Has(|w.j.line.dirs|, w.j.swaps);
    CreateLane(w, e, d);
    PcLane(w1, c, pc, d);
    assert w.(j := J.Created(w.j, c)) == w1.(j := w1.j.(pcs := w1.j.pcs[c := pc]));
    CreateRankIs(w.j.line.dirs, e);
  }

  lemma CreateLanes(w: World, c: nat, d: Uuid)
    requires J.Begun(w.j, c) && !w.j.pcs[c].Has? && w.j.calls[c].dir !in w.j.line.live && |w.j.txs| == |w.j.line.dirs|
    requires Owned(w.j, w.busy) && HeldOk(w, d) && LaneInv(LaneOf(w, d))
    ensures LaneInv(LaneOf(w.(j := J.Created(w.j, c)), d))
  {
    CreatedLane(w, c, d);
    if w.j.calls[c].dir == d {
      if CallOf(w, d) == Some(c) {
        GrowKeeps(LaneOf(w, d));
      } else {
        assert IsQuiet(w.j, d, c);
        QuietGrowKeeps(LaneOf(w, d));
      }
    }
  }

  // A call is recorded

  lemma RecordTxs(dirs: seq<Uuid>, txs: seq<J.Rec>, t: nat, r: J.Rec, d: Uuid)
    requires |dirs| == |txs| && t < |txs|
    ensures var was := TxsOf(Ids(dirs, d), txs); var k := Rank(dirs, d, t);
            && (dirs[t] == d ==> k < |was| && was[k] == txs[t].tx)
            && TxsOf(Ids(dirs, d), txs[t := r]) == if dirs[t] == d then was[k := r.tx] else was
  {
    var ids := Ids(dirs, d);
    if dirs[t] == d {
      RankIs(dirs, d, t);
    }
    forall i | 0 <= i < |ids|
      ensures ids[i] < |dirs| && (ids[i] == t <==> dirs[t] == d && i == Rank(dirs, d, t))
    {
      IdInRange(dirs, d, i);
      if ids[i] == t {
        IdsDistinct(dirs, d, i, Rank(dirs, d, t));
      }
    }
  }

  /** One call fewer. */
  lemma EndedQuiet(j: J.State, c: nat, d: Uuid)
    requires J.Begun(j, c)
    ensures var j' := j.(pcs := j.pcs - {c});
            && WritersOf(j', d) <= WritersOf(j, d) && (QuietOf(j', d) ==> QuietOf(j, d))
            && (!IsQuiet(j, d, c) ==> WritersOf(j', d) == WritersOf(j, d) && QuietOf(j', d) == QuietOf(j, d))
  {
    var j' := j.(pcs := j.pcs - {c});
    forall e
      ensures IsQuiet(j', d, e) <==> IsQuiet(j, d, e) && e != c
    {
    }
    if QuietOf(j', d) {
      var e :| e in j'.pcs && IsQuiet(j', d, e);
      assert e in j.pcs && IsQuiet(j, d, e);
    }
    if QuietOf(j, d) && !IsQuiet(j, d, c) {
      var e :| e in j.pcs && IsQuiet(j, d, e);
      assert e in j'.pcs && IsQuiet(j', d, e);
    }
  }

  lemma EndHeld(w: World, c: nat, threw: bool, d: Uuid)
    requires J.Begun(w.j, c) && Owned(w.j, w.busy)
    ensures var w' := w.(j := w.j.(pcs := w.j.pcs - {c}), busy := Returned(w, c, threw));
            var here := CallOf(w, d) == Some(c);
            && NamesOf(w', d) == (if here then TableOf(w, d) else NamesOf(w, d))
            && PendingOf(w', d) == (if here then None else PendingOf(w, d))
            && HoldOf(w', d) == (if here then None else HoldOf(w, d))
            && TodoOf(w', d) == if here && threw then [] else TodoOf(w, d)
  {
  }

  /** The lane when call `c` ends. */
  lemma EndLane(w: World, c: nat, threw: bool, d: Uuid)
    requires J.Begun(w.j, c) && Owned(w.j, w.busy)
    ensures var w' := w.(j := w.j.(pcs := w.j.pcs - {c}), busy := Returned(w, c, threw)); var l := LaneOf(w, d);
            LaneOf(w', d) ==
            if CallOf(w, d) == Some(c) then
              l.(names := l.table, pending := None, hold := None, todo := if threw then [] else l.todo)
            else l.(writers := WritersOf(w'.j, d), quiet := QuietOf(w'.j, d))
    ensures var j' := w.j.(pcs := w.j.pcs - {c});
            && WritersOf(j', d) <= WritersOf(w.j, d) && (QuietOf(j', d) ==> QuietOf(w.j, d))
            && (!IsQuiet(w.j, d, c) ==> WritersOf(j', d) == WritersOf(w.j, d) && QuietOf(j', d) == QuietOf(w.j, d))
  {
    EndHeld(w, c, threw, d);
    EndedQuiet(w.j, c, d);
  }

  /** The transaction after the call, the call not yet ended. */
  function WithRec(j: J.State, c: nat): J.State
    requires J.Holding(j, c)
  {
    J.Logged(j, c).(pcs := j.pcs)
  }

  lemma RecLane(w: World, c: nat, d: Uuid)
    requires J.Holding(w.j, c) && |w.j.txs| == |w.j.line.dirs| && HeldOk(w, d)
    ensures var w' := w.(j := WithRec(w.j, c)); var l := LaneOf(w, d);
            var t := w.j.pcs[c].tx; var k := Rank(w.j.line.dirs, d, t);
            && (w.j.line.dirs[t] == d ==> k < |l.txs| && l.txs[k] == w.j.txs[t].tx)
            && LaneOf(w', d) ==
               if w.j.line.dirs[t] == d then l.(txs := l.txs[k := Taken(l.txs[k], w.j.calls[c].op)]) else l
  {
    var t := w.j.pcs[c].tx;
    var j' := WithRec(w.j, c);
    RecordTxs(w.j.line.dirs, w.j.txs, t, j'.txs[t], d);
    FrameLane(w, j', d);
  }

  /** The world after call `c` has taken effect, and has returned or thrown. */
  function AfterLog(w: World, c: nat): World
    requires J.Holding(w.j, c)
  {
    w.(j := J.Logged(w.j, c), busy := Returned(w, c, J.Throws(w.j, c)))
  }

  lemma LoggedLane(w: World, c: nat, d: Uuid)
    requires J.Holding(w.j, c) && |w.j.txs| == |w.j.line.dirs| && Owned(w.j, w.busy) && HeldOk(w, d)
    ensures var w1, threw := w.(j := WithRec(w.j, c)), J.Throws(w.j, c); var l := LaneOf(w1, d);
            LaneOf(AfterLog(w, c), d) ==
            if CallOf(w, d) == Some(c) then
              l.(names := l.table, pending := None, hold := None, todo := if threw then [] else l.todo)
            else l.(writers := WritersOf(J.Logged(w.j, c), d), quiet := QuietOf(J.Logged(w.j, c), d))
    ensures var j' := J.Logged(w.j, c);
            && WritersOf(j', d) <= WritersOf(w.j, d) && (QuietOf(j', d) ==> QuietOf(w.j, d))
            && (!IsQuiet(w.j, d, c) ==> WritersOf(j', d) == WritersOf(w.j, d) && QuietOf(j', d) == QuietOf(w.j, d))
  {
    var w1, threw := w.(j := WithRec(w.j, c)), J.Throws(w.j, c);
    EndLane(w1, c, threw, d);
    SameQuiet(w.j, w1.j, d);
    assert AfterLog(w, c) == w1.(j := w1.j.(pcs := w1.j.pcs - {c}), busy := Returned(w1, c, threw));
  }

  /** The structural call of the mutex holder takes effect. */
  lemma LogHeld(w: World, c: nat, d: Uuid)
    requires J.Holding(w.j, c) && |w.j.txs| == |w.j.line.dirs| && Owned(w.j, w.busy) && HeldOk(w, d)
    requires CallOf(w, d) == Some(c) && w.j.line.dirs[w.j.pcs[c].tx] == d
    requires LaneInv(LaneOf(w, d)) && FrozenOf(w.j.line, d) <= Rank(w.j.line.dirs, d, w.j.pcs[c].tx)
    ensures LaneInv(LaneOf(AfterLog(w, c), d))
  {
    RecLane(w, c, d);
    LoggedLane(w, c, d);
    TakeKeeps(LaneOf(w, d));
    assert !IsQuiet(w.j, d, c);
  }

  /** Recorded, or thrown. */
  lemma TakeKeeps(l: Lane)
    requires LaneInv(l) && l.hold.Some? && l.frozen <= l.hold.value
    ensures LaneInv(if Fails(l.txs[l.hold.value], l.pending.value) then Broken(l) else Recorded(l))
  {
    if Fails(l.txs[l.hold.value], l.pending.value) {
      BrokenKeeps(l);
    } else {
      RecordKeeps(l);
    }
  }

  lemma QuietTakes(l: Lane, k: nat, op: Op, writers: set<Uuid>, quiet: bool)
    requires LaneInv(l) && l.frozen <= k < |l.txs| && !Structural(op) && l.quiet
    requires (op.ChReg? ==> op.f.attrs.ino in l.writers) && writers <= l.writers
    ensures LaneInv(l.(txs := l.txs[k := Taken(l.txs[k], op)], writers := writers, quiet := quiet))
  {
    QuietRecordKeeps(l, k, op);
    QuietEndKeeps(l.(txs := l.txs[k := Record(l.txs[k], op)]), writers, quiet);
  }

  /** A `chreg` or `chself` is recorded. */
  lemma LogQuiet(w: World, c: nat, d: Uuid)
    requires J.Holding(w.j, c) && |w.j.txs| == |w.j.line.dirs| && Owned(w.j, w.busy) && HeldOk(w, d)
    requires IsQuiet(w.j, d, c) && w.j.line.dirs[w.j.pcs[c].tx] == d
    requires LaneInv(LaneOf(w, d)) && FrozenOf(w.j.line, d) <= Rank(w.j.line.dirs, d, w.j.pcs[c].tx)
    ensures LaneInv(LaneOf(AfterLog(w, c), d))
  {
    var j' := J.Logged(w.j, c);
    QuietLane(w, c, d);
    QuietTakes(LaneOf(w, d), Rank(w.j.line.dirs, d, w.j.pcs[c].tx), w.j.calls[c].op, WritersOf(j', d), QuietOf(j', d));
  }

  lemma QuietLane(w: World, c: nat, d: Uuid)
    requires J.Holding(w.j, c) && |w.j.txs| == |w.j.line.dirs| && Owned(w.j, w.busy) && HeldOk(w, d)
    requires IsQuiet(w.j, d, c) && w.j.line.dirs[w.j.pcs[c].tx] == d
    ensures var l, k, j', op := LaneOf(w, d), Rank(w.j.line.dirs, d, w.j.pcs[c].tx), J.Logged(w.j, c), w.j.calls[c].op;
            && k < |l.txs| && WritersOf(j', d) <= l.writers && l.quiet && (op.ChReg? ==> op.f.attrs.ino in l.writers)
            && LaneOf(AfterLog(w, c), d) ==
               l.(txs := l.txs[k := Taken(l.txs[k], op)], writers := WritersOf(j', d), quiet := QuietOf(j', d))
  {
    RecLane(w, c, d);
    LoggedLane(w, c, d);
  }

  /** A call of another directory takes effect. */
  lemma LogElsewhere(w: World, c: nat, d: Uuid)
    requires J.Holding(w.j, c) && |w.j.txs| == |w.j.line.dirs| && Owned(w.j, w.busy) && HeldOk(w, d)
    requires w.j.calls[c].dir != d && w.j.line.dirs[w.j.pcs[c].tx] != d
    ensures LaneOf(AfterLog(w, c), d) == LaneOf(w, d)
  {
    RecLane(w, c, d);
    LoggedLane(w, c, d);
  }

  // Transactions move

  lemma FreezeTxs(ids: seq<nat>, txs: seq<J.Rec>, t: nat)
    requires t < |txs|
    ensures TxsOf(ids, txs[t := txs[t].(committed := true)]) == TxsOf(ids, txs)
  {
  }

  /** Which transactions are frozen, and which are done, changes with the freezing and the finishing move only. */
  lemma MoveCounts(l: Line, m: Move, d: Uuid)
    requires InOrder(l) && Can(l, m) && !m.Create?
    ensures FrozenOf(Advance(l, m), d) == FrozenOf(l, d) + if m == Freeze(d) then 1 else 0
    ensures !m.Finish? ==> DoneOf(Advance(l, m), d) == DoneOf(l, d)
  {
    Ends(l, d);
    assert Advance(l, m).dirs == l.dirs;
  }

  /** Only calls' positions and transactions' stations differ. */
  predicate Moved(j: J.State, j': J.State) {
    j'.calls == j.calls && j'.pcs == j.pcs && j'.retries == j.retries && j'.line.dirs == j.line.dirs
  }

  lemma MoveTxs(j: J.State, m: Move, d: Uuid)
    requires J.Enabled(j, J.Station(m))
    ensures var j' := J.Take(j, J.Station(m)); TxsOf(Ids(j.line.dirs, d), j'.txs) == TxsOf(Ids(j.line.dirs, d), j.txs)
  {
    J.StationFrame(j, m);
    if m.Freeze? {
      FreezeTxs(Ids(j.line.dirs, d), j.txs, j.line.batch[m.dir]);
    }
  }

  lemma MovedLane(w: World, j': J.State, d: Uuid)
    requires Moved(w.j, j') && HeldOk(w, d)
    requires TxsOf(Ids(w.j.line.dirs, d), j'.txs) == TxsOf(Ids(w.j.line.dirs, d), w.j.txs)
    requires J.DurableOf(j', d) == J.DurableOf(w.j, d) && DoneOf(j'.line, d) == DoneOf(w.j.line, d)
    ensures LaneOf(w.(j := j'), d) == LaneOf(w, d).(frozen := FrozenOf(j'.line, d))
  {
    FrameLane(w, j', d);
  }

  lemma FreezeSome(l: Lane, n: nat)
    requires LaneInv(l) && (n == l.frozen || n == l.frozen + 1 <= |l.txs|)
    ensures LaneInv(l.(frozen := n))
  {
    if n != l.frozen {
      FreezeKeeps(l);
    } else {
      assert l.(frozen := n) == l;
    }
  }

  lemma MoveLanes(w: World, m: Move, d: Uuid)
    requires J.Enabled(w.j, J.Station(m)) && !m.Finish? && InOrder(w.j.line) && HeldOk(w, d) && LaneInv(LaneOf(w, d))
    ensures LaneInv(LaneOf(w.(j := J.Take(w.j, J.Station(m))), d))
  {
    var j' := MoveFacts(w.j, m, d);
    MovedLane(w, j', d);
    FreezeSome(LaneOf(w, d), FrozenOf(j'.line, d));
  }

  lemma MoveFacts(j: J.State, m: Move, d: Uuid) returns (j': J.State)
    requires J.Enabled(j, J.Station(m)) && !m.Finish? && InOrder(j.line)
    ensures j' == J.Take(j, J.Station(m)) && Moved(j, j')
    ensures TxsOf(Ids(j.line.dirs, d), j'.txs) == TxsOf(Ids(j.line.dirs, d), j.txs)
    ensures J.DurableOf(j', d) == J.DurableOf(j, d) && DoneOf(j'.line, d) == DoneOf(j.line, d)
    ensures FrozenOf(j'.line, d) != FrozenOf(j.line, d) ==>
              FrozenOf(j'.line, d) == FrozenOf(j.line, d) + 1 <= |Ids(j.line.dirs, d)|
  {
    j' := J.Take(j, J.Station(m));
    J.StationFrame(j, m);
    MoveTxs(j, m, d);
    MoveCounts(j.line, m, d);
    Ends(j.line, d);
  }

  lemma FinishParts(j: J.State, i: nat, d: Uuid)
    requires LineInv(j.line) && J.Enabled(j, J.Station(Finish(i))) && |j.txs| == |j.line.dirs|
    ensures var j' := J.Take(j, J.Station(Finish(i))); var here := j.line.hands[i].dir == d;
            && |DoneOf(j'.line, d)| == |DoneOf(j.line, d)| + (if here then 1 else 0)
            && (!here ==> J.DurableOf(j', d) == J.DurableOf(j, d))
            && (here ==> Sync(J.DurableOf(j, d), j.txs[j.line.hands[i].id].tx) == Some(J.DurableOf(j', d)))
  {
  }

  /** The transaction in hand is the first that is not done. */
  lemma HandNext(j: J.State, i: nat)
    requires LineInv(j.line) && i in j.line.hands && |j.txs| == |j.line.dirs|
    ensures var r := j.line.hands[i]; var k := |DoneOf(j.line, r.dir)|; var txs := TxsOf(Ids(j.line.dirs, r.dir),
            j.txs);
            r.id < |j.txs| && k < FrozenOf(j.line, r.dir) <= |txs| && txs[k] == j.txs[r.id].tx
  {
    HandKnown(j.line, i);
    Ends(j.line, j.line.hands[i].dir);
  }

  lemma FinishedLane(w: World, j': J.State, d: Uuid)
    requires Moved(w.j, j') && HeldOk(w, d) && j'.txs == w.j.txs && FrozenOf(j'.line, d) == FrozenOf(w.j.line, d)
    requires |DoneOf(j'.line, d)| == |DoneOf(w.j.line, d)| + 1
    ensures LaneOf(w.(j := j'), d) ==
            LaneOf(w, d).(done := LaneOf(w, d).done + 1, durable := J.DurableOf(j', d).dentry)
  {
    FrameLane(w, j', d);
  }

  lemma FinishOne(l: Lane, before: Durable, tx: Tx, after: Durable)
    requires LaneInv(l) && l.done < l.frozen && l.txs[l.done] == tx
    requires l.durable == before.dentry && Sync(before, tx) == Some(after)
    ensures LaneInv(l.(done := l.done + 1, durable := after.dentry))
  {
    SyncIsOver(before, tx);
    FinishKeeps(l);
  }

  lemma SameLane(w: World, j': J.State, d: Uuid)
    requires Moved(w.j, j') && HeldOk(w, d) && LaneInv(LaneOf(w, d))
    requires j'.txs == w.j.txs && FrozenOf(j'.line, d) == FrozenOf(w.j.line, d)
    requires |DoneOf(j'.line, d)| == |DoneOf(w.j.line, d)| && J.DurableOf(w.j, d) == J.DurableOf(j', d)
    ensures LaneInv(LaneOf(w.(j := j'), d))
  {
    FrameLane(w, j', d);
  }

  /** What the end of a checkpoint changes in the journal. */
  lemma FinishFacts(j: J.State, i: nat, d: Uuid) returns (j': J.State)
    requires J.Enabled(j, J.Station(Finish(i))) && LineInv(j.line) && |j.txs| == |j.line.dirs|
    ensures j' == J.Take(j, J.Station(Finish(i))) && Moved(j, j') && j'.txs == j.txs
    ensures FrozenOf(j'.line, d) == FrozenOf(j.line, d)
    ensures j.line.hands[i].dir != d ==>
              |DoneOf(j'.line, d)| == |DoneOf(j.line, d)| && J.DurableOf(j, d) == J.DurableOf(j', d)
    ensures j.line.hands[i].dir == d ==>
              var k, id, txs := |DoneOf(j.line, d)|, j.line.hands[i].id, TxsOf(Ids(j.line.dirs, d), j.txs);
              && |DoneOf(j'.line, d)| == k + 1 && id < |j.txs| && k < FrozenOf(j.line, d) <= |txs|
              && txs[k] == j.txs[id].tx && Sync(J.DurableOf(j, d), j.txs[id].tx) == Some(J.DurableOf(j', d))
  {
    j' := J.Take(j, J.Station(Finish(i)));
    J.StationFrame(j, Finish(i));
    FinishParts(j, i, d);
    MoveCounts(j.line, Finish(i), d);
    if j.line.hands[i].dir == d {
      HandNext(j, i);
    }
  }

  lemma FinishLanes(w: World, i: nat, d: Uuid)
    requires J.Enabled(w.j, J.Station(Finish(i))) && LineInv(w.j.line) && |w.j.txs| == |w.j.line.dirs|
    requires HeldOk(w, d) && LaneInv(LaneOf(w, d))
    ensures LaneInv(LaneOf(w.(j := J.Take(w.j, J.Station(Finish(i)))), d))
  {
    var j' := FinishFacts(w.j, i, d);
    if w.j.line.hands[i].dir == d {
      FinishedLane(w, j', d);
      FinishOne(LaneOf(w, d), J.DurableOf(w.j, d), w.j.txs[w.j.line.hands[i].id].tx, J.DurableOf(j', d));
    } else {
      SameLane(w, j', d);
    }
  }

  // Calls begin

  /** One call more. */
  lemma StartedQuiet(j: J.State, e: Uuid, op: Op, d: Uuid)
    requires forall c :: c in j.pcs ==> c < |j.calls|
    ensures var j' := J.Take(j, J.Start(e, op));
            && WritersOf(j', d) == WritersOf(j, d) + (if e == d && op.ChReg? then {op.f.attrs.ino} else {})
            && QuietOf(j', d) == (QuietOf(j, d) || (e == d && !Structural(op)))
  {
    var j', n := J.Take(j, J.Start(e, op)), |j.calls|;
    forall c
      ensures IsQuiet(j', d, c) <==> IsQuiet(j, d, c) || (c == n && e == d && !Structural(op))
    {
    }
    if QuietOf(j', d) {
      var c :| c in j'.pcs && IsQuiet(j', d, c);
      assert c == n || c in j.pcs;
    }
    if QuietOf(j, d) {
      var c :| c in j.pcs && IsQuiet(j, d, c);
      assert c in j'.pcs;
    }
    assert n in j'.pcs;
    StartedWriters(j, e, op, d);
  }

  lemma StartedWriters(j: J.State, e: Uuid, op: Op, d: Uuid)
    requires forall c :: c in j.pcs ==> c < |j.calls|
    ensures WritersOf(J.Take(j, J.Start(e, op)), d) == WritersOf(j, d) + if e == d && op.ChReg? then {op.f.attrs.ino}
            else {}
  {
    var j', n := J.Take(j, J.Start(e, op)), |j.calls|;
    forall c | c in j.pcs
      ensures c in j'.pcs && j'.calls[c] == j.calls[c] && IsQuiet(j', d, c) == IsQuiet(j, d, c)
    {
    }
    assert j'.pcs.Keys == j.pcs.Keys + {n};
    assert IsQuiet(j', d, n) <==> e == d && !Structural(op);
  }

  lemma StartLane(w: World, e: Uuid, op: Op, d: Uuid)
    requires MakersOk(w) && Owned(w.j, w.busy) && forall c :: c in w.j.pcs ==> c < |w.j.calls|
    ensures var l := LaneOf(w, d);
            LaneOf(w.(j := J.Take(w.j, J.Start(e, op))), d) ==
            if e == d && !Structural(op) then
              l.(quiet := true, writers := l.writers + if op.ChReg? then {op.f.attrs.ino} else {})
            else l
  {
    StartedQuiet(w.j, e, op, d);
    StartRest(w, e, op, d);
  }

  lemma StartRest(w: World, e: Uuid, op: Op, d: Uuid)
    requires MakersOk(w) && Owned(w.j, w.busy) && forall c :: c in w.j.pcs ==> c < |w.j.calls|
    ensures var w' := w.(j := J.Take(w.j, J.Start(e, op)));
            && PendingOf(w', d) == PendingOf(w, d) && HoldOf(w', d) == HoldOf(w, d) && MadeOf(w', d) == MadeOf(w, d)
  {
  }

  lemma QuietLanes(w: World, e: Uuid, op: Op, d: Uuid)
    requires MakersOk(w) && Owned(w.j, w.busy) && forall c :: c in w.j.pcs ==> c < |w.j.calls|
    requires Enabled(w, Quiet(e, op)) && LaneInv(LaneOf(w, d))
    ensures LaneInv(LaneOf(w.(j := J.Take(w.j, J.Start(e, op))), d))
  {
    StartLane(w, e, op, d);
    if e == d {
      QuietStartKeeps(LaneOf(w, d), op);
    }
  }

  /** Two worlds with the same journal that agree on `d`. */
  predicate AlikeAt(w: World, w': World, d: Uuid) {
    && w'.j == w.j
    && (d in w'.tables <==> d in w.tables) && (d in w'.tables ==> w'.tables[d] == w.tables[d])
    && (d in w'.busy <==> d in w.busy) && (d in w'.busy ==> w'.busy[d] == w.busy[d])
    && (d in w'.maker <==> d in w.maker) && (d in w'.maker ==> w'.maker[d] == w.maker[d])
    && (d in w'.origin <==> d in w.origin) && (d in w'.origin ==> w'.origin[d] == w.origin[d])
    && (d in w'.rough <==> d in w.rough)
  }

  lemma OtherLane(w: World, w': World, d: Uuid)
    requires AlikeAt(w, w', d)
    ensures LaneOf(w', d) == LaneOf(w, d)
  {
  }

  lemma TableEdited(w: World, d: Uuid, op: Op)
    requires TablesOk(w.tables) && Structural(op) && Doable(TableOf(w, d), op)
    ensures var w' := w.(tables := EditTable(w.tables, d, op));
            TableOf(w', d) == Effect(TableOf(w, d), op) && TablesOk(w'.tables)
  {
    if d in w.tables && !op.MkSelf? && !op.RmSelf? {
      EditsKeepStep(w.tables[d], op.name, if op.MkDir? || op.RmDir? then op.ino else op.f.attrs.ino);
      if op.name !in w.tables[d].children {
        assert w.tables[d].children - {op.name} == w.tables[d].children;
      }
    }
  }

  /** The mutex holder of `d`, after its call number `c` has begun. */
  lemma EditLane(w: World, w1: World, w': World, d: Uuid, op: Op, c: nat)
    requires w1 == w.(j := w1.j) && LaneOf(w1, d) == LaneOf(w, d) && CallOf(w, d).None?
    requires w'.j == w1.j && c < |w1.j.calls| && w1.j.calls[c].op == op
    requires c in w1.j.pcs && w1.j.pcs[c] == J.Lookup && c in w1.j.retries && w1.j.retries[c] == 0
    requires TodoOf(w, d) != [] && TodoOf(w, d)[0] == op
    requires d in w'.busy && w'.busy[d] == Task(TodoOf(w, d)[1..], Some(c), TableOf(w, d))
    requires TableOf(w', d) == Effect(TableOf(w, d), op)
    requires w'.maker == if op.MkSelf? then w.maker[d := c] else w.maker
    requires w'.origin == w.origin && w'.rough == w.rough
    ensures LaneOf(w', d) == Edited(LaneOf(w, d))
  {
  }

  lemma EditHere(w: World, d: Uuid)
    requires MakersOk(w) && Owned(w.j, w.busy) && TablesOk(w.tables) && J.Accounted(w.j.calls, w.j.pcs, w.j.pos)
    requires Enabled(w, Edit(d)) && LaneInv(LaneOf(w, d))
    ensures LaneOf(Take(w, Edit(d)), d) == Edited(LaneOf(w, d))
  {
    var op, w' := w.busy[d].todo[0], Take(w, Edit(d));
    EditDoable(LaneOf(w, d));
    StartLane(w, d, op, d);
    TableEdited(w, d, op);
    EditLane(w, w.(j := w'.j), w', d, op, |w.j.calls|);
  }

  lemma EditElsewhere(w: World, e: Uuid, d: Uuid)
    requires MakersOk(w) && Owned(w.j, w.busy) && J.Accounted(w.j.calls, w.j.pcs, w.j.pos)
    requires Enabled(w, Edit(e)) && d != e && Structural(w.busy[e].todo[0])
    ensures LaneOf(Take(w, Edit(e)), d) == LaneOf(w, d)
  {
    var w' := Take(w, Edit(e));
    StartLane(w, e, w.busy[e].todo[0], d);
    OtherLane(w.(j := w'.j), w', d);
  }

  lemma EditLanes(w: World, e: Uuid, d: Uuid)
    requires MakersOk(w) && Owned(w.j, w.busy) && TablesOk(w.tables) && J.Accounted(w.j.calls, w.j.pcs, w.j.pos)
    requires Enabled(w, Edit(e)) && Structural(w.busy[e].todo[0]) && LaneInv(LaneOf(w, d))
    ensures LaneInv(LaneOf(Take(w, Edit(e)), d))
  {
    if d == e {
      EditHere(w, d);
      EditKeeps(LaneOf(w, d));
    } else {
      EditElsewhere(w, e, d);
    }
  }

  lemma EditDoable(l: Lane)
    requires LaneInv(l) && l.todo != [] && l.pending.None?
    ensures Structural(l.todo[0]) && Doable(l.table, l.todo[0])
  {
    assert Unfold(OfLanes);
  }

  // Directories come into view

  /** A directory this client does not know. */
  lemma UnknownLane(w: World, d: Uuid)
    requires Confined(w) && J.Accounted(w.j.calls, w.j.pcs, w.j.pos) && d !in w.known
    ensures LaneOf(w, d) ==
            Lane([], 0, 0, None, J.DurableOf(w.j, d).dentry, None, None, None, None, [], {}, false, None, true)
  {
    if Ids(w.j.line.dirs, d) != [] {
      IdInRange(w.j.line.dirs, d, 0);
    }
  }

  lemma NewLane(l: Lane, m: Names)
    requires l == Lane([], 0, 0, m, m, m, m, None, None, [], {}, false, None, true) && m.Some? && Injective(m)
    ensures LaneInv(l)
  {
  }

  lemma LoadLanes(w: World, e: Uuid, d: Uuid)
    requires Confined(w) && J.Accounted(w.j.calls, w.j.pcs, w.j.pos) && Enabled(w, Load(e))
    requires d != e ==> LaneInv(LaneOf(w, d))
    ensures LaneInv(LaneOf(Take(w, Load(e)), d))
  {
    var w' := Take(w, Load(e));
    if d == e {
      UnknownLane(w, d);
      NewLane(LaneOf(w', d), J.DurableOf(w.j, d).dentry);
    } else {
      OtherLane(w, w', d);
    }
  }

  // What an operation sets out to do

  /**
   * The changes of a same-directory rename are lawful, with or without a replaced file, if and only if the old name
   * still stands for the inode that was looked up.
   */
  lemma RenameLawfulIff(m: map<Name, Uuid>, op: FileOp)
    requires op.Rename? && op.name != op.newName && Injective(Some(m))
    requires op.newName in m ==> m[op.newName] == op.replaced.attrs.ino
    ensures LawfulAll(Some(m), Plan(m, op).value) <==> op.name in m && m[op.name] == op.f.attrs.ino
  {
    var m1 := m - {op.newName};
    var m2 := m1 - {op.name};
    var rm, mk := RmReg(op.self, op.name, op.f), MkReg(op.self, op.newName, op.f);
    if op.name in m && m[op.name] == op.f.attrs.ino {
      assert op.f.attrs.ino !in m2.Values && op.newName !in m2;
      assert LawfulAll(Some(m2), [mk]);
    }
    assert [rm, mk][1..] == [mk];
    assert LawfulAll(Some(m1), [rm, mk]) <==> op.name in m && m[op.name] == op.f.attrs.ino;
    if op.newName in m {
      var plan := [RmReg(op.self, op.newName, op.replaced)] + [rm, mk];
      assert plan[0] == RmReg(op.self, op.newName, op.replaced) && plan[1..] == [rm, mk];
    } else {
      assert m1 == m;
    }
  }

  lemma RenameDoable(m: map<Name, Uuid>, op: FileOp)
    requires op.Rename? && op.name != op.newName
    ensures DoableAll(Some(m), Plan(m, op).value)
  {
    var m1 := m - {op.newName};
    var m2 := m1 - {op.name};
    var rm, mk := RmReg(op.self, op.name, op.f), MkReg(op.self, op.newName, op.f);
    assert DoableAll(Some(m2), [mk]);
    assert [rm, mk][1..] == [mk] && DoableAll(Some(m1), [rm, mk]);
    if op.newName in m {
      var plan := [RmReg(op.self, op.newName, op.replaced)] + [rm, mk];
      assert plan[0] == RmReg(op.self, op.newName, op.replaced) && plan[1..] == [rm, mk];
    } else {
      assert m1 == m;
    }
  }

  /** What each operation of `local_ops` finds lawful, at the moment it takes the mutex. */
  predicate InPlace(m: map<Name, Uuid>, op: FileOp) {
    match op
    case RmdirDown(_, name, ino) => name in m && m[name] == ino
    case Rename(_, name, _, f, _) => name in m && m[name] == f.attrs.ino
    case _ => true
  }

  /** The changes that the operations make have their plain effect, and are lawful exactly on what is still in place. */
  lemma PlanLawfulIff(w: World, d: Uuid, op: FileOp)
    requires d in w.tables && Proper(w, d, op) && Plan(w.tables[d].children, op).Some?
    ensures DoableAll(TableOf(w, d), Plan(w.tables[d].children, op).value)
    ensures Injective(TableOf(w, d)) ==>
              (LawfulAll(TableOf(w, d), Plan(w.tables[d].children, op).value) <==> InPlace(w.tables[d].children, op))
  {
    var m := w.tables[d].children;
    if op.Rename? {
      RenameDoable(m, op);
      if Injective(Some(m)) {
        RenameLawfulIff(m, op);
      }
    } else {
      var plan := Plan(m, op).value;
      assert plan == [plan[0]] && plan[1..] == [];
      assert Doable(Some(m), plan[0]);
      assert LawfulAll(Some(m), plan) == Lawful(Some(m), plan[0]);
    }
  }

  lemma PlanReady(w: World, d: Uuid, op: FileOp)
    requires d in w.tables && Proper(w, d, op) && Plan(w.tables[d].children, op).Some?
    ensures AllReady(LaneOf(w, d).txs, WritersOf(w.j, d), Plan(w.tables[d].children, op).value)
  {
    if op.Rename? {
      var plan := Plan(w.tables[d].children, op).value;
      assert Removes(plan[|plan| - 2], op.f.attrs.ino);
    }
  }

  lemma PlanShape(m: map<Name, Uuid>, op: FileOp)
    requires Plan(m, op).Some?
    ensures Solo(Plan(m, op).value)
    ensures var plan := Plan(m, op).value; !(|plan| == 1 && plan[0].MkSelf?)
  {
  }

  lemma AtRest(l: Lane)
    requires LaneInv(l) && l.pending.None?
    ensures l.names == l.table && (l.tidy ==> Injective(l.table))
  {
    assert Unfold(OfLanes);
  }

  lemma BeginHere(w: World, d: Uuid, op: FileOp, w': World)
    requires Enabled(w, Begin(d, op)) && LaneInv(LaneOf(w, d))
    requires var plan := Plan(w.tables[d].children, op).value;
             LaneOf(w', d) == LaneOf(w, d).(todo := plan, tidy := d !in w.rough && LawfulAll(TableOf(w, d), plan))
    ensures LaneInv(LaneOf(w', d))
  {
    var plan := Plan(w.tables[d].children, op).value;
    PlanLawfulIff(w, d, op);
    PlanShape(w.tables[d].children, op);
    PlanReady(w, d, op);
    BeginKeeps(LaneOf(w, d), plan);
  }

  lemma NewDirLane(l: Lane, self: Inode)
    requires l == Lane([], 0, 0, None, None, None, None, None, None, [MkSelf(self)], {}, false, None, true)
    ensures LaneInv(l)
  {
    assert [MkSelf(self)][1..] == [] && LawfulAll(Some(map[]), []) && DoableAll(Some(map[]), []);
    assert LawfulAll(None, [MkSelf(self)]) && DoableAll(None, [MkSelf(self)]);
  }

  lemma BeginLane(w: World, d: Uuid, op: FileOp)
    requires Enabled(w, Begin(d, op)) && d in w.known
    ensures var plan := Plan(w.tables[d].children, op).value;
            LaneOf(Take(w, Begin(d, op)), d) ==
            LaneOf(w, d).(todo := plan, tidy := d !in w.rough && LawfulAll(TableOf(w, d), plan))
  {
  }

  lemma BeginNew(w: World, e: Uuid, op: FileOp)
    requires Confined(w) && J.Accounted(w.j.calls, w.j.pcs, w.j.pos) && Enabled(w, Begin(e, op)) && op.MakeDir?
    ensures LaneInv(LaneOf(Take(w, Begin(e, op)), op.child.attrs.ino))
  {
    UnknownLane(w, op.child.attrs.ino);
    NewDirLane(LaneOf(Take(w, Begin(e, op)), op.child.attrs.ino), op.child);
  }

  lemma BeginLanes(w: World, e: Uuid, op: FileOp, d: Uuid)
    requires Confined(w) && J.Accounted(w.j.calls, w.j.pcs, w.j.pos) && Enabled(w, Begin(e, op))
    requires d in w.known ==> LaneInv(LaneOf(w, d))
    requires d in Take(w, Begin(e, op)).known
    ensures LaneInv(LaneOf(Take(w, Begin(e, op)), d))
  {
    if d == e {
      BeginLane(w, d, op);
      BeginHere(w, d, op, Take(w, Begin(e, op)));
    } else if op.MakeDir? && op.child.attrs.ino == d {
      BeginNew(w, e, op);
    } else {
      OtherLane(w, Take(w, Begin(e, op)), d);
    }
  }

  lemma ReleaseLanes(w: World, e: Uuid, d: Uuid)
    requires Enabled(w, Release(e)) && LaneInv(LaneOf(w, d))
    ensures LaneInv(LaneOf(Take(w, Release(e)), d))
  {
    var w' := Take(w, Release(e));
    if d != e {
      OtherLane(w, w', d);
    }
  }

  /** A held transaction belongs to the call's directory. */
  lemma HeldHere(w: World, c: nat)
    requires J.Inv(w.j) && c in w.j.pcs && w.j.pcs[c].Has?
    ensures w.j.pcs[c].tx < |w.j.txs| && w.j.line.dirs[w.j.pcs[c].tx] == w.j.calls[c].dir
  {
    assert Unfold(OfHolds);
    var j := w.j;
    assert J.HoldOk(j.line.dirs, j.line.live, j.swaps, j.calls, j.pos, j.calls[c], j.pcs[c].tx, j.pcs[c].since);
  }

  lemma AllHeld(w: World, d: Uuid)
    requires J.Inv(w.j) && Owned(w.j, w.busy)
    ensures HeldOk(w, d)
  {
    assert Unfold(OfPlaces);
    if HoldOf(w, d).Some? {
      HeldHere(w, CallOf(w, d).value);
    }
  }

  // Every step keeps every lane

  lemma LogLanes(w: World, c: nat, d: Uuid)
    requires J.Inv(w.j) && J.Settled(w.j.line, w.j.txs) && Owned(w.j, w.busy)
    requires J.Holding(w.j, c) && !w.j.txs[w.j.pcs[c].tx].committed && LaneInv(LaneOf(w, d))
    ensures LaneInv(LaneOf(AfterLog(w, c), d))
  {
    AllHeld(w, d);
    HeldHere(w, c);
    J.FrozenIff(w.j.line, w.j.txs, w.j.pcs[c].tx);
    if w.j.calls[c].dir != d {
      LogElsewhere(w, c, d);
    } else if Structural(w.j.calls[c].op) {
      LogHeld(w, c, d);
    } else {
      LogQuiet(w, c, d);
    }
  }

  /** A call that finds its transaction frozen holds one of the frozen transactions. */
  lemma HeldFrozen(w: World, c: nat)
    requires J.Inv(w.j) && J.Settled(w.j.line, w.j.txs) && J.Holding(w.j, c) && w.j.txs[w.j.pcs[c].tx].committed
    ensures var d := w.j.calls[c].dir; Rank(w.j.line.dirs, d, w.j.pcs[c].tx) < FrozenOf(w.j.line, d)
  {
    HeldHere(w, c);
    J.FrozenIff(w.j.line, w.j.txs, w.j.pcs[c].tx);
  }

  lemma RetryStep(w: World, c: nat, d: Uuid)
    requires Owned(w.j, w.busy) && MakersOk(w) && LaneInv(LaneOf(w, d))
    requires J.Enabled(w.j, J.Retry(c)) &&
             Rank(w.j.line.dirs, w.j.calls[c].dir, w.j.pcs[c].tx) < FrozenOf(w.j.line, w.j.calls[c].dir)
    ensures LaneInv(LaneOf(w.(j := J.Take(w.j, J.Retry(c))), d))
  {
    RetryLanes(w, c, J.Take(w.j, J.Retry(c)).retries, d);
  }

  lemma EnterLanes(w: World, c: nat, d: Uuid)
    requires J.Inv(w.j) && Owned(w.j, w.busy) && J.Enabled(w.j, J.Enter(c)) && LaneInv(LaneOf(w, d))
    ensures LaneInv(LaneOf(w.(j := J.Take(w.j, J.Enter(c))), d))
  {
    if w.j.calls[c].dir in w.j.line.live {
      FetchLanes(w, c, d);
    } else {
      AllHeld(w, d);
      CreateLanes(w, c, d);
    }
  }

  lemma StationLanes(w: World, m: Move, d: Uuid)
    requires J.Inv(w.j) && Owned(w.j, w.busy) && J.Enabled(w.j, J.Station(m)) && LaneInv(LaneOf(w, d))
    ensures LaneInv(LaneOf(w.(j := J.Take(w.j, J.Station(m))), d))
  {
    AllHeld(w, d);
    if m.Finish? {
      FinishLanes(w, m.queue, d);
    } else {
      MoveLanes(w, m, d);
    }
  }

  lemma MissLanes(w: World, c: nat, d: Uuid)
    requires c in w.j.pcs && w.j.pcs[c] == J.Lookup && LaneInv(LaneOf(w, d))
    ensures LaneInv(LaneOf(w.(j := w.j.(pcs := w.j.pcs[c := J.Missed])), d))
  {
    PcLane(w, c, J.Missed, d);
    assert LaneOf(w.(j := w.j.(pcs := w.j.pcs[c := J.Missed])), d) == LaneOf(w, d);
  }

  lemma JournalLanes(w: World, step: J.Step, d: Uuid)
    requires J.Inv(w.j) && J.Settled(w.j.line, w.j.txs) && Owned(w.j, w.busy) && MakersOk(w)
    requires Enabled(w, Journal(step)) && LaneInv(LaneOf(w, d))
    ensures LaneInv(LaneOf(Take(w, Journal(step)), d))
  {
    match step
    case Find(c) => FetchLanes(w, c, d);
    case Miss(c) => MissLanes(w, c, d);
    case Enter(c) => EnterLanes(w, c, d);
    case Log(c) => LogLanes(w, c, d);
    case Retry(c) =>
      HeldFrozen(w, c);
      RetryStep(w, c, d);
    case Station(m) => StationLanes(w, m, d);
  }

  lemma JournalKeeps(w: World, step: J.Step)
    requires Inv(w) && Enabled(w, Journal(step))
    ensures Inv(Take(w, Journal(step)))
  {
    J.StepKeeps(w.j, step);
    J.SettledKeeps(w.j, step);
    OwnedKeeps(w, step);
    ConfinedKeeps(w, step);
    MakersKeep(w, step);
    forall d | d in w.known
      ensures LaneInv(LaneOf(Take(w, Journal(step)), d))
    {
      assert Watch(d);
      JournalLanes(w, step, d);
    }
  }

  lemma LoadRest(w: World, e: Uuid, m: map<Name, Uuid>)
    requires MakersOk(w) && Confined(w) && TablesOk(w.tables)
    ensures var w' := w.(tables := w.tables[e := Table(m, m)], known := w.known + {e}, origin := w.origin[e := m]);
            MakersOk(w') && Confined(w') && TablesOk(w'.tables)
  {
    var w' := w.(tables := w.tables[e := Table(m, m)], known := w.known + {e}, origin := w.origin[e := m]);
    forall d | d in w.busy
      ensures PendingOf(w', d) == PendingOf(w, d)
    {
    }
  }

  lemma LoadKeeps(w: World, e: Uuid)
    requires Inv(w) && Enabled(w, Load(e))
    ensures Inv(Take(w, Load(e)))
  {
    var w' := Take(w, Load(e));
    LoadRest(w, e, J.DurableOf(w.j, e).dentry.value);
    forall d | d in w'.known
      ensures LaneInv(LaneOf(w', d))
    {
      assert Watch(d);
      LoadLanes(w, e, d);
    }
  }

  lemma FindKeeps(w: World, e: Uuid, name: Name)
    requires Inv(w) && Enabled(w, Find(e, name))
    ensures Inv(Take(w, Find(e, name)))
  {
    var w' := Take(w, Find(e, name));
    TasksMakers(w, w'.busy, w'.known, w'.rough, w'.looks);
    forall d | d in w.known
      ensures LaneInv(LaneOf(w', d))
    {
      assert Watch(d);
      OtherLane(w, w', d);
    }
  }

  /** Fresh tasks have no call yet. */
  lemma TasksMakers(w: World, busy: map<Uuid, Task>, known: set<Uuid>, rough: set<Uuid>, looks: set<Look>)
    requires MakersOk(w)
    requires forall d :: d in busy && busy[d].call.Some? ==> d in w.busy && busy[d] == w.busy[d]
    ensures var w' := w.(busy := busy, known := known, rough := rough, looks := looks); MakersOk(w')
  {
    var w' := w.(busy := busy, known := known, rough := rough, looks := looks);
    forall d | d in busy && busy[d].call.Some?
      ensures PendingOf(w', d) == PendingOf(w, d)
    {
    }
  }

  lemma TasksOwned(j: J.State, was: map<Uuid, Task>, busy: map<Uuid, Task>)
    requires Owned(j, was)
    requires forall d :: d in busy && busy[d].call.Some? ==> d in was && busy[d] == was[d]
    requires forall d :: d in was && was[d].call.Some? ==> d in busy && busy[d] == was[d]
    ensures Owned(j, busy)
  {
  }

  lemma TasksConfined(w: World, busy: map<Uuid, Task>, known: set<Uuid>, rough: set<Uuid>)
    requires Confined(w) && w.known <= known && busy.Keys <= known && rough <= known
    ensures Confined(w.(busy := busy, known := known, rough := rough))
  {
  }

  lemma BeginMakers(w: World, e: Uuid, op: FileOp)
    requires Enabled(w, Begin(e, op)) && MakersOk(w) && Owned(w.j, w.busy) && Confined(w)
    ensures var w' := Take(w, Begin(e, op)); MakersOk(w') && Owned(w'.j, w'.busy) && Confined(w')
  {
    var busy, known, rough := BeginTasks(w, e, op);
    TasksMakers(w, busy, known, rough, w.looks);
    TasksOwned(w.j, w.busy, busy);
    TasksConfined(w, busy, known, rough);
  }

  lemma BeginTasks(w: World, e: Uuid, op: FileOp) returns (busy: map<Uuid, Task>, known: set<Uuid>, rough: set<Uuid>)
    requires Enabled(w, Begin(e, op)) && w.busy.Keys <= w.known && w.tables.Keys <= w.known && w.rough <= w.known
    ensures Take(w, Begin(e, op)) == w.(busy := busy, known := known, rough := rough)
    ensures w.known <= known && busy.Keys <= known && rough <= known
    ensures forall d :: d in busy && busy[d].call.Some? ==> d in w.busy && busy[d] == w.busy[d]
    ensures forall d :: d in w.busy ==> d in busy && busy[d] == w.busy[d]
  {
    var w' := Take(w, Begin(e, op));
    busy, known, rough := w'.busy, w'.known, w'.rough;
  }

  lemma BeginStep(w: World, e: Uuid, op: FileOp)
    requires Inv(w) && Enabled(w, Begin(e, op))
    ensures Inv(Take(w, Begin(e, op)))
  {
    var w' := Take(w, Begin(e, op));
    BeginMakers(w, e, op);
    forall d | d in w'.known
      ensures LaneInv(LaneOf(w', d))
    {
      assert Watch(d);
      BeginLanes(w, e, op, d);
    }
  }

  lemma EditRest(w: World, e: Uuid)
    requires Enabled(w, Edit(e)) && Owned(w.j, w.busy) && Confined(w)
    requires J.Accounted(w.j.calls, w.j.pcs, w.j.pos) && Structural(w.busy[e].todo[0])
    ensures var w' := Take(w, Edit(e)); Owned(w'.j, w'.busy) && Confined(w')
  {
  }

  lemma EditedMakers(w: World, w': World, e: Uuid, call: J.Call, todo: seq<Op>)
    requires MakersOk(w) && Owned(w.j, w.busy) && call.dir == e
    requires w'.j.calls == w.j.calls + [call] && w'.j.retries == w.j.retries[|w.j.calls| := 0]
    requires w'.busy == w.busy[e := Task(todo, Some(|w.j.calls|), TableOf(w, e))]
    requires w'.maker == if call.op.MkSelf? then w.maker[e := |w.j.calls|] else w.maker
    ensures MakersOk(w')
  {
    forall d | d in w'.busy && d != e
      ensures PendingOf(w', d) == PendingOf(w, d) && w'.busy[d] == w.busy[d]
    {
    }
  }

  lemma EditMakers(w: World, e: Uuid)
    requires Enabled(w, Edit(e)) && MakersOk(w) && Owned(w.j, w.busy)
    ensures MakersOk(Take(w, Edit(e)))
  {
    var w', call := Take(w, Edit(e)), J.Call(e, w.busy[e].todo[0], w.j.pos.Keys, w.j.swaps);
    EditedMakers(w, w', e, call, w.busy[e].todo[1..]);
  }

  lemma EditStep(w: World, e: Uuid)
    requires Inv(w) && Enabled(w, Edit(e))
    ensures Inv(Take(w, Edit(e)))
  {
    assert Watch(e);
    EditDoable(LaneOf(w, e));
    J.StepKeeps(w.j, J.Start(e, w.busy[e].todo[0]));
    EditRest(w, e);
    EditMakers(w, e);
    TableEdited(w, e, w.busy[e].todo[0]);
    forall d | d in w.known
      ensures LaneInv(LaneOf(Take(w, Edit(e)), d))
    {
      assert Watch(d);
      EditLanes(w, e, d);
    }
  }

  lemma QuietRest(w: World, e: Uuid, op: Op)
    requires Enabled(w, Quiet(e, op)) && Owned(w.j, w.busy) && Confined(w)
    requires J.Accounted(w.j.calls, w.j.pcs, w.j.pos)
    ensures var w' := Take(w, Quiet(e, op)); Owned(w'.j, w'.busy) && Confined(w')
  {
  }

  lemma QuietMakers(w: World, e: Uuid, op: Op)
    requires Enabled(w, Quiet(e, op)) && Owned(w.j, w.busy) && MakersOk(w)
    ensures var w' := Take(w, Quiet(e, op)); MakersOk(w')
  {
    var w' := Take(w, Quiet(e, op));
    forall d | d in w'.busy
      ensures PendingOf(w', d) == PendingOf(w, d)
    {
    }
  }

  lemma QuietStep(w: World, e: Uuid, op: Op)
    requires Inv(w) && Enabled(w, Quiet(e, op))
    ensures Inv(Take(w, Quiet(e, op)))
  {
    J.StepKeeps(w.j, J.Start(e, op));
    QuietRest(w, e, op);
    QuietMakers(w, e, op);
    forall d | d in w.known
      ensures LaneInv(LaneOf(Take(w, Quiet(e, op)), d))
    {
      assert Watch(d);
      QuietLanes(w, e, op, d);
    }
  }

  lemma ReleaseStep(w: World, e: Uuid)
    requires Inv(w) && Enabled(w, Release(e))
    ensures Inv(Take(w, Release(e)))
  {
    var w' := Take(w, Release(e));
    TasksMakers(w, w'.busy, w'.known, w'.rough, w'.looks);
    TasksOwned(w.j, w.busy, w'.busy);
    forall d | d in w.known
      ensures LaneInv(LaneOf(w', d))
    {
      assert Watch(d);
      ReleaseLanes(w, e, d);
    }
  }

  lemma StepKeeps(w: World, step: Step)
    requires Inv(w) && Enabled(w, step)
    ensures Inv(Take(w, step))
  {
    match step
    case Load(d) => LoadKeeps(w, d);
    case Find(d, name) => FindKeeps(w, d, name);
    case Begin(d, op) => BeginStep(w, d, op);
    case Edit(d) => EditStep(w, d);
    case Quiet(d, op) => QuietStep(w, d, op);
    case Journal(step) => JournalKeeps(w, step);
    case Release(d) => ReleaseStep(w, d);
  }

  // Whole runs

  ghost predicate Follows(w: World, step: Step, w': World) {
    forall u {:trigger Unfold(u)} :: Unfold(u) && u == OfSteps ==> Enabled(w, step) && w' == Take(w, step)
  }

  ghost predicate Run(worlds: seq<World>, steps: seq<Step>) {
    && |worlds| == |steps| + 1 && Init(worlds[0])
    && forall i :: 0 <= i < |steps| ==> Follows(worlds[i], steps[i], worlds[i + 1])
  }

  lemma {:induction false} RunKeeps(worlds: seq<World>, steps: seq<Step>, n: nat)
    requires Run(worlds, steps) && n < |worlds|
    ensures Inv(worlds[n])
  {
    assert Unfold(OfSteps);
    if n == 0 {
      J.StartLine();
    } else {
      RunKeeps(worlds, steps, n - 1);
      assert Follows(worlds[n - 1], steps[n - 1], worlds[n - 1 + 1]);
      StepKeeps(worlds[n - 1], steps[n - 1]);
    }
  }

  /** The transactions of `d` not yet checkpointed: in hand, queued, frozen, swapped out, live. */
  function Waiting(l: Line, d: Uuid): seq<nat> {
    InHand(l, d) + (Queued(Queue(l, Route(d)), d) + (One(l.frozen, d) + (At(l.batch, d) + At(l.live, d))))
  }

  lemma WaitingIs(w: World, d: Uuid)
    requires InOrder(w.j.line)
    ensures |DoneOf(w.j.line, d)| <= |LaneOf(w, d).txs|
    ensures LaneOf(w, d).txs[|DoneOf(w.j.line, d)|..] == TxsOf(Waiting(w.j.line, d), w.j.txs)
  {
    assert Watch(d);
    var l := w.j.line;
    TxsOfTail(DoneOf(l, d), Waiting(l, d), w.j.txs);
  }

  lemma TxsOfTail(a: seq<nat>, b: seq<nat>, txs: seq<J.Rec>)
    ensures TxsOf(a + b, txs)[|a|..] == TxsOf(b, txs)
  {
  }

  /** No transaction records that directory `d` was removed. */
  ghost predicate Standing(w: World, d: Uuid) {
    Lanes.Standing(LaneOf(w, d).txs)
  }

  /**
   * Write-back cache agreement: in every reachable state the durable entries of a directory, with the overlays still
   * to be checkpointed applied in order, are those of its LOCAL table, or become so with the one change whose journal
   * call is in progress; and the child inodes carry the same names and numbers. Stale renames and operations that threw
   * are among what came before.
   */
  lemma CacheAgreement(worlds: seq<World>, steps: seq<Step>, n: nat, d: Uuid)
    requires Run(worlds, steps) && n < |worlds| && d in worlds[n].tables && Standing(worlds[n], d)
    ensures var w := worlds[n];
            var pending := Fold(J.DurableOf(w.j, d).dentry, TxsOf(Waiting(w.j.line, d), w.j.txs));
            && (PendingOf(w, d).None? ==> pending == Some(w.tables[d].children))
            && (PendingOf(w, d).Some? ==> Effect(pending, PendingOf(w, d).value) == Some(w.tables[d].children))
            && w.tables[d].inodes == w.tables[d].children
  {
    RunKeeps(worlds, steps, n);
    assert Watch(d);
    WaitingIs(worlds[n], d);
    WaitingAgrees(LaneOf(worlds[n], d));
  }

  /**
   * At rest: once the checkpoint thread of `d` has taken its sentinel, and `d` has no live transaction and no call in
   * progress, its durable entries are those of its LOCAL table.
   */
  lemma AtRestDurable(worlds: seq<World>, steps: seq<Step>, n: nat, d: Uuid)
    requires Run(worlds, steps) && n < |worlds| && d in worlds[n].tables && Standing(worlds[n], d)
    requires Route(d) in worlds[n].j.line.finished && d !in worlds[n].j.line.live && PendingOf(worlds[n], d).None?
    ensures J.DurableOf(worlds[n].j, d).dentry == Some(worlds[n].tables[d].children)
  {
    var w := worlds[n];
    RunKeeps(worlds, steps, n);
    CacheAgreement(worlds, steps, n, d);
    Drained(w.j.line, d);
    WaitingIs(w, d);
    assert TxsOf(Waiting(w.j.line, d), w.j.txs) == [];
  }

  /** The last record of a name among these overlays. */
  function LastOf(txs: seq<Tx>, name: Name): Option<Entry> {
    if txs == [] then None
    else
      var tx := txs[|txs| - 1];
      if name in tx.dentries then Some(tx.dentries[name]) else LastOf(txs[..|txs| - 1], name)
  }

  /** A binding that the last record of its name leaves as it is. */
  predicate Confirmed(m: map<Name, Uuid>, last: Option<Entry>, name: Name) {
    last.Some? ==> if last.value.alive then name in m && m[name] == last.value.ino else name !in m
  }

  lemma {:induction false} LiveByName(m: map<Name, Uuid>, txs: seq<Tx>, name: Name)
    ensures var last, after := LastOf(txs, name), Live(m, txs);
            if last.Some? then
              if last.value.alive then name in after && after[name] == last.value.ino else name !in after
            else (name in after <==> name in m) && (name in m ==> after[name] == m[name])
    decreases |txs|
  {
    if txs != [] {
      var front, tx := txs[..|txs| - 1], txs[|txs| - 1];
      LiveByName(m, front, name);
      LiveSplit(m, front, [tx]);
      assert txs == front + [tx] && [tx][1..] == [];
    }
  }

  /** Every name's last record leaves its binding as it is. */
  ghost predicate AllConfirmed(m: map<Name, Uuid>, txs: seq<Tx>) {
    forall name: Name :: Confirmed(m, LastOf(txs, name), name)
  }

  lemma LiveSameIff(m: map<Name, Uuid>, txs: seq<Tx>)
    ensures Live(m, txs) == m <==> AllConfirmed(m, txs)
  {
    var after := Live(m, txs);
    if AllConfirmed(m, txs) {
      forall name: Name
        ensures (name in after <==> name in m) && (name in m && name in after ==> after[name] == m[name])
      {
        assert Confirmed(m, LastOf(txs, name), name);
        LiveByName(m, txs, name);
      }
      assert after.Keys == m.Keys;
    } else {
      var name: Name :| !Confirmed(m, LastOf(txs, name), name);
      LiveByName(m, txs, name);
    }
  }

  /**
   * Loading a directory again, as after an expired lease, finds the entries of its table if and only if there is a
   * DENTRY object and, for every name, the last waiting record agrees with what that object says of it.
   */
  lemma ReloadAgreesIff(worlds: seq<World>, steps: seq<Step>, n: nat, d: Uuid)
    requires Run(worlds, steps) && n < |worlds| && d in worlds[n].tables && Standing(worlds[n], d)
    requires PendingOf(worlds[n], d).None?
    ensures var w := worlds[n];
            var durable, waiting := J.DurableOf(w.j, d).dentry, TxsOf(Waiting(w.j.line, d), w.j.txs);
            durable == TableOf(w, d) <==>
            durable.Some? && AllConfirmed(durable.value, waiting)
  {
    var w := worlds[n];
    RunKeeps(worlds, steps, n);
    assert Watch(d);
    CacheAgreement(worlds, steps, n, d);
    WaitingIs(w, d);
    var durable, waiting := J.DurableOf(w.j, d).dentry, TxsOf(Waiting(w.j.line, d), w.j.txs);
    if durable.Some? {
      WaitingUnchanged(LaneOf(w, d));
      FoldIsLive(durable.value, waiting);
      LiveSameIff(durable.value, waiting);
    }
  }

  /** Once a standing directory is durable, no waiting overlay makes or removes it. */
  lemma WaitingUnchanged(l: Lane)
    requires LaneInv(l) && Lanes.Standing(l.txs) && l.durable.Some?
    ensures forall k :: 0 <= k < |l.txs[l.done..]| ==> l.txs[l.done..][k].status == Unchanged
  {
    assert Unfold(OfLanes);
  }

  /** The place and the lane of a call that can be recorded. */
  lemma HeldInLane(w: World, c: nat)
    requires Inv(w) && J.Holding(w.j, c) && !w.j.txs[w.j.pcs[c].tx].committed && Structural(w.j.calls[c].op)
    ensures var l := LaneOf(w, w.j.calls[c].dir);
            && LaneInv(l) && l.pending == Some(w.j.calls[c].op) && l.hold.Some? && l.frozen <= l.hold.value < |l.txs|
            && l.txs[l.hold.value] == w.j.txs[w.j.pcs[c].tx].tx
  {
    var d, t := w.j.calls[c].dir, w.j.pcs[c].tx;
    HeldHere(w, c);
    J.FrozenIff(w.j.line, w.j.txs, t);
    RankIs(w.j.line.dirs, d, t);
    assert Watch(d);
  }

  /**
   * Exactly when a call meets a `logic_error`, in every reachable state and wherever commits fall: it removes a name
   * or a file whose removal the transaction it holds records already.
   */
  lemma LogicErrorIff(worlds: seq<World>, steps: seq<Step>, n: nat, c: nat)
    requires Run(worlds, steps) && n < |worlds|
    requires J.Holding(worlds[n].j, c) && !worlds[n].j.txs[worlds[n].j.pcs[c].tx].committed
    ensures var w := worlds[n];
            J.Throws(w.j, c) <==>
            RemovedAlready(NamesOf(w, w.j.calls[c].dir), w.j.txs[w.j.pcs[c].tx].tx, w.j.calls[c].op)
  {
    RunKeeps(worlds, steps, n);
    var w := worlds[n];
    if Structural(w.j.calls[c].op) {
      HeldInLane(w, c);
      FailsIff(LaneOf(w, w.j.calls[c].dir));
    }
  }

  /**
   * No `logic_error` in a directory all of whose operations found in place, when they took the mutex, what they had
   * come for. `chreg` on an unlinked file is among them.
   */
  lemma NoLogicError(worlds: seq<World>, steps: seq<Step>, n: nat, c: nat)
    requires Run(worlds, steps) && n < |worlds|
    requires J.Holding(worlds[n].j, c) && !worlds[n].j.txs[worlds[n].j.pcs[c].tx].committed
    requires worlds[n].j.calls[c].dir !in worlds[n].rough
    ensures !J.Throws(worlds[n].j, c)
  {
    RunKeeps(worlds, steps, n);
    HeldThrowsNot(worlds[n], c);
  }

  lemma HeldThrowsNot(w: World, c: nat)
    requires Inv(w) && J.Holding(w.j, c) && !w.j.txs[w.j.pcs[c].tx].committed && w.j.calls[c].dir !in w.rough
    ensures !J.Throws(w.j, c)
  {
    if Structural(w.j.calls[c].op) {
      HeldInLane(w, c);
      NeverFails(LaneOf(w, w.j.calls[c].dir));
    }
  }

  /** Which operations make a directory rough: those that no longer find in place what they had come for. */
  lemma RoughIff(worlds: seq<World>, steps: seq<Step>, n: nat)
    requires Run(worlds, steps) && n < |steps| && steps[n].Begin?
    ensures var w, d, op := worlds[n], steps[n].dir, steps[n].op;
            d in w.tables && (d !in w.rough ==> (d in worlds[n + 1].rough <==> !InPlace(w.tables[d].children, op)))
  {
    assert Unfold(OfSteps) && Follows(worlds[n], steps[n], worlds[n + 1]);
    RunKeeps(worlds, steps, n);
    BeginRough(worlds[n], steps[n].dir, steps[n].op);
  }

  lemma BeginRough(w: World, d: Uuid, op: FileOp)
    requires Inv(w) && Enabled(w, Begin(d, op))
    ensures d !in w.rough ==> (d in Take(w, Begin(d, op)).rough <==> !InPlace(w.tables[d].children, op))
  {
    assert Watch(d);
    if d !in w.rough {
      AtRest(LaneOf(w, d));
      PlanLawfulIff(w, d, op);
    }
  }

  /** One name for each inode, in a directory that is not rough. */
  lemma OneNamePerInode(worlds: seq<World>, steps: seq<Step>, n: nat, d: Uuid)
    requires Run(worlds, steps) && n < |worlds| && d in worlds[n].tables && d !in worlds[n].rough
    ensures Injective(TableOf(worlds[n], d))
  {
    RunKeeps(worlds, steps, n);
    assert Watch(d);
    TidyInjective(LaneOf(worlds[n], d));
  }

  lemma TidyInjective(l: Lane)
    requires LaneInv(l) && l.tidy
    ensures Injective(l.table)
  {
    assert Unfold(OfLanes);
    if l.pending.Some? {
      EffectInjective(l.names, l.pending.value);
    }
  }

  /** The `mkself` call of `d` was not recorded in the first transaction it fetched. */
  predicate MadeLate(w: World, d: Uuid) {
    d in w.maker && (w.maker[d] in w.j.pcs || (w.maker[d] in w.j.retries && w.j.retries[w.maker[d]] > 0))
  }

  /** A transaction of `d` that records its removal has been checkpointed. */
  ghost predicate Removed(w: World, d: Uuid) {
    RemovedBefore(LaneOf(w, d).txs, |DoneOf(w.j.line, d)|)
  }

  lemma MakingIs(w: World, d: Uuid)
    requires MakersOk(w) && Owned(w.j, w.busy)
    ensures Making(LaneOf(w, d)) || Late(MadeOf(w, d)) <==> MadeLate(w, d)
  {
  }

  lemma HandThrowsIff(w: World, i: nat)
    requires LineInv(w.j.line) && |w.j.txs| == |w.j.line.dirs| && MakersOk(w) && Owned(w.j, w.busy)
    requires i in w.j.line.hands && LaneInv(LaneOf(w, w.j.line.hands[i].dir))
    ensures var r := w.j.line.hands[i];
            && i < NUM_CP_THREAD && r.id < |w.j.txs|
            && (Sync(J.DurableOf(w.j, r.dir), w.j.txs[r.id].tx).None? <==>
                  MadeLate(w, r.dir) || (Removed(w, r.dir) && w.j.txs[r.id].tx.status != Deleted))
  {
    var r := w.j.line.hands[i];
    HandNext(w.j, i);
    SyncIsOver(J.DurableOf(w.j, r.dir), w.j.txs[r.id].tx);
    ThrowsIff(LaneOf(w, r.dir));
    MakingIs(w, r.dir);
  }

  /**
   * A checkpoint of a directory loaded or made by this client finds its DENTRY object, unless the commit thread froze
   * the directory's first transaction before `mkself` was recorded in it, or a removal of the directory is checkpointed
   * and this transaction is not itself a removal; then, and only then, it throws.
   */
  lemma CheckpointThrowsIff(worlds: seq<World>, steps: seq<Step>, n: nat, i: nat)
    requires Run(worlds, steps) && n < |worlds| && i in worlds[n].j.line.hands
    ensures var w, r := worlds[n], worlds[n].j.line.hands[i];
            && i < NUM_CP_THREAD && r.id < |w.j.txs|
            && (!J.Enabled(w.j, J.Station(Finish(i))) <==>
                  MadeLate(w, r.dir) || (Removed(w, r.dir) && w.j.txs[r.id].tx.status != Deleted))
  {
    RunKeeps(worlds, steps, n);
    HandReachable(worlds[n], i);
    FinishEnabled(worlds[n].j, i);
  }

  lemma HandReachable(w: World, i: nat)
    requires Inv(w) && i in w.j.line.hands
    ensures var r := w.j.line.hands[i];
            && i < NUM_CP_THREAD && r.id < |w.j.txs|
            && (Sync(J.DurableOf(w.j, r.dir), w.j.txs[r.id].tx).None? <==>
                  MadeLate(w, r.dir) || (Removed(w, r.dir) && w.j.txs[r.id].tx.status != Deleted))
  {
    HandKnown(w.j.line, i);
    assert Watch(w.j.line.hands[i].dir);
    HandThrowsIff(w, i);
  }

  lemma FinishEnabled(j: J.State, i: nat)
    requires i < NUM_CP_THREAD && i in j.line.hands && j.line.hands[i].id < |j.txs|
    ensures J.Enabled(j, J.Station(Finish(i))) <==>
            Sync(J.DurableOf(j, j.line.hands[i].dir), j.txs[j.line.hands[i].id].tx).Some?
  {
  }
}
