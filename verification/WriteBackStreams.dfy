/**
 * The streams that file operations leave in the journal: in every reachable state they keep to the directory's life, so
 * that what is durable does not depend on how the threads were scheduled.
 */
module WriteBackStreams {
  import opened Bytes
  import opened Transactions
  import opened Stages
  import opened Lanes
  import opened WriteBack
  import W = WriteBackRuns
  import C = JournalContents
  import J = JournalRuns
  import Batching

  /** A directory as it was before the run. */
  function FirstDir(d0: Durable): Batching.Dir {
    if d0.dentry.Some? then Batching.Dir(Batching.Alive, d0.dentry.value, d0.self, d0.files, {}, {})
        else Batching.UNMADE
  }

  /** Each directory is made by one call. */
  ghost predicate Roles(w: World) {
    forall c :: 0 <= c < |w.j.calls| ==>
      && (w.j.calls[c].op.MkSelf? ==> w.j.calls[c].dir in w.maker && w.maker[w.j.calls[c].dir] == c)
      && Addressed(w.j.calls[c].dir, w.j.calls[c].op)
  }

  /** A transaction that records an `rmself` says so. */
  ghost predicate RemovalsShow(j: J.State) {
    forall t, k :: 0 <= t < |j.txs| && 0 <= k < |j.txs[t].log| && RemovesAt(j, t, k) ==> j.txs[t].tx.status == Deleted
  }

  predicate RemovesAt(j: J.State, t: nat, k: nat)
    requires t < |j.txs| && k < |j.txs[t].log|
  {
    var c := j.txs[t].log[k];
    c < |j.calls| && j.calls[c].op.RmSelf?
  }

  /** What threw did so in a directory where something was not in place. */
  ghost predicate ThrewRough(w: World) {
    forall c :: c in w.j.threw ==> c < |w.j.calls| && w.j.calls[c].dir in w.rough
  }

  /** What mutex holders have still to do is addressed to their directories. */
  ghost predicate TodoAddressed(w: World) {
    forall d :: d in w.busy ==> AllAddressed(d, w.busy[d].todo)
  }

  /** Every other call on a directory made in this run began after its `mkself` was recorded. */
  ghost predicate MadeFirst(w: World) {
    forall c :: 0 <= c < |w.j.calls| && w.j.calls[c].dir in w.maker && c != w.maker[w.j.calls[c].dir] ==>
      w.maker[w.j.calls[c].dir] in w.j.calls[c].before
  }

  predicate ToBeMade(w: World, d: Uuid) {
    |TodoOf(w, d)| == 1 && TodoOf(w, d)[0].MkSelf?
  }

  /** A directory about to be made has seen no call. */
  ghost predicate NoneYet(w: World) {
    forall c :: 0 <= c < |w.j.calls| ==> !ToBeMade(w, w.j.calls[c].dir)
  }

  /** The directories made in this run did not exist before it; the others did. */
  ghost predicate Kinds(first: map<Uuid, Durable>, w: World) {
    forall d :: d in w.known ==>
      if d in w.maker || ToBeMade(w, d) then DurableIn(first, d).dentry.None? && DurableIn(first, d).self.None?
      else DurableIn(first, d).dentry.Some?
  }

  ghost predicate Inv(first: map<Uuid, Durable>, w: World) {
    WriteBack.Inv(w) && C.Inv(first, w.j) && Facts(first, w) && Marks(w)
  }

  ghost predicate Facts(first: map<Uuid, Durable>, w: World) {
    Roles(w) && MadeFirst(w) && NoneYet(w) && Kinds(first, w)
  }

  ghost predicate Marks(w: World) {
    RemovalsShow(w.j) && ThrewRough(w) && TodoAddressed(w)
  }

  // Steps

  // Steps that leave calls alone

  /** Calls, makers and plans to make a directory stay as they are. */
  ghost predicate Alike(w: World, w': World) {
    && w'.j.calls == w.j.calls && w'.maker == w.maker && w'.known == w.known
    && forall d :: ToBeMade(w', d) <==> ToBeMade(w, d)
  }

  lemma AlikeKeeps(first: map<Uuid, Durable>, w: World, w': World)
    requires Alike(w, w') && Facts(first, w)
    ensures Facts(first, w')
  {
  }

  /** With a call in progress nothing is about to be made. */
  lemma PendingNotPlanned(l: Lane)
    requires LaneInv(l) && l.pending.Some?
    ensures !Planned(l)
  {
    assert Unfold(OfLanes);
  }

  lemma ReturnedAlike(w: World, c: nat, threw: bool, d: Uuid)
    requires c < |w.j.calls| && (Structural(w.j.calls[c].op) ==> !ToBeMade(w, w.j.calls[c].dir))
    ensures ToBeMade(w.(busy := Returned(w, c, threw)), d) <==> ToBeMade(w, d)
  {
  }

  lemma LogAlike(w: World, c: nat)
    requires J.Holding(w.j, c) && Owned(w.j, w.busy) && LaneInv(LaneOf(w, w.j.calls[c].dir))
    ensures Alike(w, W.AfterLog(w, c))
  {
    if Structural(w.j.calls[c].op) {
      PendingNotPlanned(LaneOf(w, w.j.calls[c].dir));
    }
    forall d
      ensures ToBeMade(W.AfterLog(w, c), d) <==> ToBeMade(w, d)
    {
      ReturnedAlike(w, c, J.Throws(w.j, c), d);
    }
  }

  lemma OtherAlike(w: World, step: J.Step)
    requires Enabled(w, Journal(step)) && !step.Log?
    ensures Alike(w, Take(w, Journal(step)))
  {
    J.JournalFrame(w.j, step);
  }

  lemma JournalAlike(w: World, step: J.Step)
    requires Owned(w.j, w.busy) && Enabled(w, Journal(step))
    requires step.Log? ==> LaneInv(LaneOf(w, w.j.calls[step.call].dir))
    ensures Alike(w, Take(w, Journal(step)))
  {
    if step.Log? {
      LogAlike(w, step.call);
    } else {
      OtherAlike(w, step);
    }
  }

  /** Every call recorded in the same log as an `mkself` would come before it; there is none. */
  lemma FirstInLog(w: World, c: nat)
    requires J.Inv(w.j) && Roles(w) && MadeFirst(w) && J.Holding(w.j, c) && w.j.calls[c].op.MkSelf?
    requires w.j.line.dirs[w.j.pcs[c].tx] == w.j.calls[c].dir
    ensures w.j.txs[w.j.pcs[c].tx].log == []
  {
    var t := w.j.pcs[c].tx;
    if w.j.txs[t].log != [] {
      LogFacts(w, w.j.calls[c].dir, t, 0);
    }
  }

  lemma LogRemovals(w: World, c: nat)
    requires J.Inv(w.j) && Roles(w) && MadeFirst(w) && RemovalsShow(w.j) && Enabled(w, Journal(J.Log(c)))
    ensures RemovalsShow(J.Logged(w.j, c))
  {
    W.HeldHere(w, c);
    if w.j.calls[c].op.MkSelf? {
      FirstInLog(w, c);
    }
    var j', held := J.Logged(w.j, c), w.j.pcs[c].tx;
    forall t, k | 0 <= t < |j'.txs| && 0 <= k < |j'.txs[t].log| && RemovesAt(j', t, k)
      ensures j'.txs[t].tx.status == Deleted
    {
      assert t != held || k < |w.j.txs[t].log| ==> RemovesAt(w.j, t, k);
    }
  }

  lemma LogThrew(w: World, c: nat)
    requires WriteBack.Inv(w) && ThrewRough(w) && Enabled(w, Journal(J.Log(c)))
    ensures ThrewRough(W.AfterLog(w, c))
  {
    if w.j.calls[c].dir !in w.rough {
      W.HeldThrowsNot(w, c);
    }
  }

  lemma LogTodo(w: World, c: nat)
    requires J.Holding(w.j, c) && TodoAddressed(w)
    ensures TodoAddressed(W.AfterLog(w, c))
  {
  }

  lemma LogMarks(w: World, c: nat)
    requires WriteBack.Inv(w) && Roles(w) && MadeFirst(w) && Marks(w) && Enabled(w, Journal(J.Log(c)))
    ensures Marks(W.AfterLog(w, c))
  {
    LogRemovals(w, c);
    LogThrew(w, c);
    LogTodo(w, c);
  }

  /** The transactions that are there keep their logs and statuses, and a new one has no log. */
  lemma OtherTxs(j: J.State, step: J.Step)
    requires J.Enabled(j, step) && !step.Log? && !step.Start?
    ensures var j' := J.Take(j, step);
            && j'.calls == j.calls && j'.threw == j.threw
            && forall t :: 0 <= t < |j'.txs| ==>
                 j'.txs[t].log == [] || (t < |j.txs| && j'.txs[t].log == j.txs[t].log && j'.txs[t].tx == j.txs[t].tx)
  {
    J.JournalFrame(j, step);
    if step.Station? {
      J.StationFrame(j, step.move);
    }
  }

  lemma RemovalsStay(j: J.State, j': J.State)
    requires RemovalsShow(j) && j'.calls == j.calls
    requires forall t :: 0 <= t < |j'.txs| ==>
               j'.txs[t].log == [] || (t < |j.txs| && j'.txs[t].log == j.txs[t].log && j'.txs[t].tx == j.txs[t].tx)
    ensures RemovalsShow(j')
  {
    forall t, k | 0 <= t < |j'.txs| && 0 <= k < |j'.txs[t].log| && RemovesAt(j', t, k)
      ensures j'.txs[t].tx.status == Deleted
    {
      assert RemovesAt(j, t, k);
    }
  }

  lemma OtherMarks(w: World, step: J.Step)
    requires Marks(w) && Enabled(w, Journal(step)) && !step.Log?
    ensures Marks(Take(w, Journal(step)))
  {
    OtherTxs(w.j, step);
    RemovalsStay(w.j, J.Take(w.j, step));
  }

  lemma JournalKeeps(first: map<Uuid, Durable>, w: World, step: J.Step)
    requires Inv(first, w) && Enabled(w, Journal(step))
    ensures Inv(first, Take(w, Journal(step)))
  {
    W.StepKeeps(w, Journal(step));
    C.StepKeeps(first, w.j, step);
    assert step.Log? ==> Watch(w.j.calls[step.call].dir);
    JournalAlike(w, step);
    AlikeKeeps(first, w, Take(w, Journal(step)));
    if step.Log? {
      LogMarks(w, step.call);
    } else {
      OtherMarks(w, step);
    }
  }

  lemma FrameAlike(w: World, step: Step)
    requires Enabled(w, step) && (step.Find? || step.Release?) && Marks(w)
    ensures Alike(w, Take(w, step)) && Take(w, step).j == w.j && Marks(Take(w, step))
  {
  }

  lemma FrameKeeps(first: map<Uuid, Durable>, w: World, step: Step)
    requires Inv(first, w) && Enabled(w, step) && (step.Find? || step.Release?)
    ensures Inv(first, Take(w, step))
  {
    W.StepKeeps(w, step);
    FrameAlike(w, step);
    AlikeKeeps(first, w, Take(w, step));
  }

  // Directories come into view

  /** Nothing has changed in a directory this client does not know. */
  lemma Unmoved(first: map<Uuid, Durable>, w: World, d: Uuid)
    requires Confined(w) && C.Inv(first, w.j) && d !in w.known
    ensures DurableIn(first, d) == J.DurableOf(w.j, d)
  {
    assert Watch(d);
    assert C.TxsIn(DoneOf(w.j.line, d), w.j.txs) == [];
  }

  lemma LoadFacts(first: map<Uuid, Durable>, w: World, d: Uuid)
    requires Confined(w) && Facts(first, w) && Marks(w) && Enabled(w, Load(d))
    requires DurableIn(first, d) == J.DurableOf(w.j, d)
    ensures Facts(first, Take(w, Load(d))) && Marks(Take(w, Load(d)))
  {
    assert forall e :: TodoOf(Take(w, Load(d)), e) == TodoOf(w, e);
  }

  lemma LoadKeeps(first: map<Uuid, Durable>, w: World, d: Uuid)
    requires Inv(first, w) && Enabled(w, Load(d))
    ensures Inv(first, Take(w, Load(d)))
  {
    W.StepKeeps(w, Load(d));
    Unmoved(first, w, d);
    LoadFacts(first, w, d);
  }

  /** Plans begin in `d` and, perhaps, in a directory that nobody knew. */
  lemma PlansBegin(first: map<Uuid, Durable>, w: World, w': World, d: Uuid, child: Option<Uuid>)
    requires Confined(w) && NoneYet(w) && Kinds(first, w) && d in w.known && w'.j == w.j && w'.maker == w.maker
    requires !ToBeMade(w, d) && !ToBeMade(w', d) && forall e :: e != d && child != Some(e) ==>
             TodoOf(w', e) == TodoOf(w, e)
    requires w'.known == w.known + if child.Some? then {child.value} else {}
    requires child.Some? ==>
               && child.value !in w.known && ToBeMade(w', child.value)
               && DurableIn(first, child.value).dentry.None? && DurableIn(first, child.value).self.None?
    ensures NoneYet(w') && Kinds(first, w')
  {
  }

  lemma BeginKinds(first: map<Uuid, Durable>, w: World, d: Uuid, op: FileOp)
    requires Confined(w) && NoneYet(w) && Kinds(first, w) && Enabled(w, Begin(d, op))
    requires op.MakeDir? ==> DurableIn(first, op.child.attrs.ino) == J.DurableOf(w.j, op.child.attrs.ino)
    ensures NoneYet(Take(w, Begin(d, op))) && Kinds(first, Take(w, Begin(d, op)))
  {
    W.PlanShape(w.tables[d].children, op);
    PlansBegin(first, w, Take(w, Begin(d, op)), d, if op.MakeDir? then Some(op.child.attrs.ino) else None);
  }

  lemma BeginRoles(w: World, d: Uuid, op: FileOp)
    requires Roles(w) && MadeFirst(w) && Marks(w) && Enabled(w, Begin(d, op))
    ensures var w' := Take(w, Begin(d, op)); w'.j == w.j && Roles(w') && MadeFirst(w') && Marks(w')
  {
  }

  lemma BeginKeeps(first: map<Uuid, Durable>, w: World, d: Uuid, op: FileOp)
    requires Inv(first, w) && Enabled(w, Begin(d, op))
    ensures Inv(first, Take(w, Begin(d, op)))
  {
    W.StepKeeps(w, Begin(d, op));
    if op.MakeDir? {
      Unmoved(first, w, op.child.attrs.ino);
    }
    BeginKinds(first, w, d, op);
    BeginRoles(w, d, op);
  }

  // Calls begin

  /** `mkself` is always alone. */
  lemma PlanFacts(l: Lane)
    requires LaneInv(l) && l.pending.None? && l.todo != []
    ensures l.todo[0].MkSelf? ==> |l.todo| == 1
    ensures |l.todo| > 1 ==> !l.todo[|l.todo| - 1].MkSelf?
  {
    assert Unfold(OfLanes);
  }

  /** A directory whose mutex holder waits for no `mkself` call is made already, if it was made at all. */
  lemma MadeAlready(w: World, d: Uuid)
    requires MakersOk(w) && Owned(w.j, w.busy) && J.Accounted(w.j.calls, w.j.pcs, w.j.pos)
    requires d in w.maker && !Making(LaneOf(w, d))
    ensures w.maker[d] in w.j.pos
  {
  }

  /** One more call on `d`. */
  lemma CallRoles(w: World, w': World, call: J.Call)
    requires Roles(w) && MadeFirst(w) && NoneYet(w) && w'.j.calls == w.j.calls + [call] && Addressed(call.dir, call.op)
    requires w'.maker == if call.op.MkSelf? then w.maker[call.dir := |w.j.calls|] else w.maker
    requires call.op.MkSelf? ==> ToBeMade(w, call.dir)
    requires !call.op.MkSelf? && call.dir in w.maker ==> w.maker[call.dir] in call.before
    ensures Roles(w') && MadeFirst(w')
  {
  }

  lemma CallMarks(w: World, w': World, call: J.Call)
    requires J.Inv(w.j) && RemovalsShow(w.j) && ThrewRough(w) && w'.rough == w.rough
    requires w'.j.calls == w.j.calls + [call] && w'.j.txs == w.j.txs && w'.j.threw == w.j.threw
    ensures RemovalsShow(w'.j) && ThrewRough(w')
  {
    forall t, k | 0 <= t < |w'.j.txs| && 0 <= k < |w'.j.txs[t].log| && RemovesAt(w'.j, t, k)
      ensures w'.j.txs[t].tx.status == Deleted
    {
      C.LogInRange(w.j, t);
      assert RemovesAt(w.j, t, k);
    }
  }

  lemma EditKinds(first: map<Uuid, Durable>, w: World, d: Uuid)
    requires NoneYet(w) && Kinds(first, w) && Enabled(w, Edit(d)) && LaneInv(LaneOf(w, d)) && CallOf(w, d).None?
    ensures NoneYet(Take(w, Edit(d))) && Kinds(first, Take(w, Edit(d)))
  {
    var w' := Take(w, Edit(d));
    PlanFacts(LaneOf(w, d));
    forall e | e != d
      ensures TodoOf(w', e) == TodoOf(w, e)
    {
    }
    assert TodoOf(w', d) == TodoOf(w, d)[1..];
  }

  lemma EditCall(w: World, d: Uuid) returns (w': World, call: J.Call)
    requires Enabled(w, Edit(d)) && TodoAddressed(w)
    ensures w' == Take(w, Edit(d)) && call == J.Call(d, w.busy[d].todo[0], w.j.pos.Keys, w.j.swaps)
    ensures w'.j.calls == w.j.calls + [call] && w'.j.txs == w.j.txs && w'.j.threw == w.j.threw && w'.rough == w.rough
    ensures w'.maker == if call.op.MkSelf? then w.maker[d := |w.j.calls|] else w.maker
    ensures Addressed(d, call.op) && TodoAddressed(w')
  {
    w', call := Take(w, Edit(d)), J.Call(d, w.busy[d].todo[0], w.j.pos.Keys, w.j.swaps);
  }

  /** What an edit finds: a directory made already, or about to be. */
  lemma EditFacts(w: World, d: Uuid)
    requires MakersOk(w) && Owned(w.j, w.busy) && J.Accounted(w.j.calls, w.j.pcs, w.j.pos)
    requires Enabled(w, Edit(d)) && LaneInv(LaneOf(w, d))
    ensures (w.busy[d].todo[0].MkSelf? ==> ToBeMade(w, d)) && (d in w.maker ==> w.maker[d] in w.j.pos)
  {
    PlanFacts(LaneOf(w, d));
    if d in w.maker {
      MadeAlready(w, d);
    }
  }

  lemma EditRoles(w: World, d: Uuid)
    requires MakersOk(w) && Owned(w.j, w.busy) && J.Inv(w.j)
    requires Roles(w) && MadeFirst(w) && NoneYet(w) && Marks(w) && Enabled(w, Edit(d)) && LaneInv(LaneOf(w, d))
    ensures var w' := Take(w, Edit(d)); Roles(w') && MadeFirst(w') && Marks(w')
  {
    EditFacts(w, d);
    var w', call := EditCall(w, d);
    CallRoles(w, w', call);
    CallMarks(w, w', call);
  }

  lemma EditKeeps(first: map<Uuid, Durable>, w: World, d: Uuid)
    requires Inv(first, w) && Enabled(w, Edit(d))
    ensures Inv(first, Take(w, Edit(d)))
  {
    W.StepKeeps(w, Edit(d));
    C.StepKeeps(first, w.j, J.Start(d, w.busy[d].todo[0]));
    assert Watch(d);
    EditRoles(w, d);
    EditKinds(first, w, d);
  }

  lemma QuietRoles(w: World, d: Uuid, op: Op)
    requires MakersOk(w) && Owned(w.j, w.busy) && J.Inv(w.j)
    requires Roles(w) && MadeFirst(w) && NoneYet(w) && Marks(w) && Enabled(w, Quiet(d, op))
    ensures var w' := Take(w, Quiet(d, op)); Roles(w') && MadeFirst(w') && Marks(w')
  {
    if d in w.maker {
      MadeAlready(w, d);
    }
    var w', call := Take(w, Quiet(d, op)), J.Call(d, op, w.j.pos.Keys, w.j.swaps);
    CallRoles(w, w', call);
    CallMarks(w, w', call);
  }

  lemma QuietKinds(first: map<Uuid, Durable>, w: World, d: Uuid, op: Op)
    requires NoneYet(w) && Kinds(first, w) && Enabled(w, Quiet(d, op))
    ensures NoneYet(Take(w, Quiet(d, op))) && Kinds(first, Take(w, Quiet(d, op)))
  {
    var w' := Take(w, Quiet(d, op));
    assert forall e :: TodoOf(w', e) == TodoOf(w, e);
  }

  lemma QuietKeeps(first: map<Uuid, Durable>, w: World, d: Uuid, op: Op)
    requires Inv(first, w) && Enabled(w, Quiet(d, op))
    ensures Inv(first, Take(w, Quiet(d, op)))
  {
    W.StepKeeps(w, Quiet(d, op));
    C.StepKeeps(first, w.j, J.Start(d, op));
    QuietRoles(w, d, op);
    QuietKinds(first, w, d, op);
  }

  lemma StepKeeps(first: map<Uuid, Durable>, w: World, step: Step)
    requires Inv(first, w) && Enabled(w, step)
    ensures Inv(first, Take(w, step))
  {
    match step
    case Load(d) => LoadKeeps(first, w, d);
    case Begin(d, op) => BeginKeeps(first, w, d, op);
    case Edit(d) => EditKeeps(first, w, d);
    case Quiet(d, op) => QuietKeeps(first, w, d, op);
    case Journal(step) => JournalKeeps(first, w, step);
    case Find(_, _) => FrameKeeps(first, w, step);
    case Release(_) => FrameKeeps(first, w, step);
  }

  lemma {:induction false} RunKeeps(worlds: seq<World>, steps: seq<Step>, n: nat)
    requires W.Run(worlds, steps) && n < |worlds|
    ensures Inv(worlds[0].j.durable, worlds[n])
  {
    assert Unfold(OfSteps);
    if n == 0 {
      J.StartLine();
    } else {
      RunKeeps(worlds, steps, n - 1);
      assert W.Follows(worlds[n - 1], steps[n - 1], worlds[n - 1 + 1]);
      StepKeeps(worlds[0].j.durable, worlds[n - 1], steps[n - 1]);
    }
  }

  // The stream

  predicate Plain(ops: seq<Op>) {
    forall i :: 0 <= i < |ops| ==> !ops[i].MkSelf? && !ops[i].RmSelf?
  }

  lemma {:induction false} PlainTimely(m: Batching.Dir, ops: seq<Op>)
    requires m.life == Batching.Alive && Plain(ops)
    ensures Batching.TimelyAll(m, ops) && Batching.ApplyAll(m, ops).life == Batching.Alive
    decreases |ops|
  {
    if ops != [] {
      PlainTimely(Batching.Apply(m, ops[0]), ops[1..]);
    }
  }

  lemma {:induction false} PlainLog(log: seq<nat>, calls: seq<J.Call>)
    requires forall i :: 0 <= i < |log| && log[i] < |calls| ==> !calls[log[i]].op.MkSelf? && !calls[log[i]].op.RmSelf?
    ensures Plain(C.OpsOf(log, calls))
  {
    if log != [] {
      PlainLog(log[..|log| - 1], calls);
    }
  }

  lemma {:induction false} OpsHead(log: seq<nat>, calls: seq<J.Call>)
    requires log != [] && log[0] < |calls|
    ensures C.OpsOf(log, calls) == [calls[log[0]].op] + C.OpsOf(log[1..], calls)
  {
    if |log| == 1 {
      assert log[..0] == [] && log[1..] == [];
    } else {
      var front, rest := log[..|log| - 1], log[1..];
      var last := if log[|log| - 1] < |calls| then [calls[log[|log| - 1]].op] else [];
      OpsHead(front, calls);
      assert front[1..] == rest[..|rest| - 1] && rest[|rest| - 1] == log[|log| - 1];
      Regroup([calls[log[0]].op], C.OpsOf(front[1..], calls), last);
    }
  }

  lemma Regroup(a: seq<Op>, b: seq<Op>, c: seq<Op>)
    ensures a + b + c == a + (b + c)
  {
  }

  lemma {:induction false} JoinedPush(cut: seq<seq<Op>>, ops: seq<Op>)
    ensures Batching.Joined(cut + [ops]) == Batching.Joined(cut) + ops
  {
    if cut == [] {
      assert [ops][1..] == [] && cut + [ops] == [ops];
    } else {
      assert (cut + [ops])[1..] == cut[1..] + [ops];
      JoinedPush(cut[1..], ops);
    }
  }

  /** The stream of the first `k` transactions of `d`, checkpointed or not. */
  function Stream(j: J.State, d: Uuid, k: nat): seq<Op>
    requires k <= |Ids(j.line.dirs, d)|
  {
    Batching.Joined(C.CutOf(Ids(j.line.dirs, d)[..k], j.txs, j.calls))
  }

  lemma StreamGrows(j: J.State, d: Uuid, k: nat)
    requires k < |Ids(j.line.dirs, d)| && Ids(j.line.dirs, d)[k] < |j.txs|
    ensures Stream(j, d, k + 1) == Stream(j, d, k) + C.OpsOf(j.txs[Ids(j.line.dirs, d)[k]].log, j.calls)
  {
    var ids := Ids(j.line.dirs, d);
    assert ids[..k + 1] == ids[..k] + [ids[k]];
    C.CutPush(ids[..k], ids[k], j.txs, j.calls);
    JoinedPush(C.CutOf(ids[..k], j.txs, j.calls), C.OpsOf(j.txs[ids[k]].log, j.calls));
  }

  /** What is recorded in a transaction of `d`. */
  lemma LogFacts(w: World, d: Uuid, t: nat, i: nat)
    requires J.Inv(w.j) && Roles(w) && t < |w.j.txs| && w.j.line.dirs[t] == d && i < |w.j.txs[t].log|
    ensures var c := w.j.txs[t].log[i];
            && c < |w.j.calls| && w.j.calls[c].dir == d && c in w.j.pos && w.j.pos[c] == (t, i)
            && (w.j.calls[c].op.MkSelf? ==> d in w.maker && c == w.maker[d])
  {
    assert Unfold(OfPlaces);
  }

  /** A log without the `mkself` and the `rmself` call of its directory. */
  lemma LogPlain(w: World, d: Uuid, t: nat, from: nat)
    requires J.Inv(w.j) && Roles(w) && t < |w.j.txs| && w.j.line.dirs[t] == d && from <= |w.j.txs[t].log|
    requires d in w.maker && w.maker[d] in w.j.pos ==> w.j.pos[w.maker[d]].0 != t || w.j.pos[w.maker[d]].1 < from
    requires RemovalsShow(w.j) && w.j.txs[t].tx.status != Deleted
    ensures Plain(C.OpsOf(w.j.txs[t].log[from..], w.j.calls))
  {
    var log := w.j.txs[t].log[from..];
    forall i | 0 <= i < |log| && log[i] < |w.j.calls|
      ensures !w.j.calls[log[i]].op.MkSelf? && !w.j.calls[log[i]].op.RmSelf?
    {
      LogFacts(w, d, t, from + i);
      assert log[i] == w.j.txs[t].log[from + i];
      assert w.j.calls[log[i]].op.RmSelf? ==> RemovesAt(w.j, t, from + i);
    }
    PlainLog(log, w.j.calls);
  }

  /**
   * What was recorded before a call began sits in an earlier transaction of the directory, or earlier in the same one.
   */
  lemma BeforePlace(j: J.State, a: nat, c: nat)
    requires J.Inv(j) && c in j.pos && a in j.calls[c].before && a < |j.calls| && j.calls[a].dir == j.calls[c].dir
    ensures a in j.pos && J.Earlier(j.pos[a], j.pos[c])
    ensures var p := j.pos[a]; p.0 < |j.txs| && j.line.dirs[p.0] == j.calls[c].dir && p.1 < |j.txs[p.0].log|
  {
    assert Unfold(OfOrder) && Unfold(OfPlaces);
  }

  /** An earlier transaction of a directory comes earlier among its transactions. */
  lemma EarlierId(dirs: seq<Uuid>, d: Uuid, u: nat, k: nat) returns (i: nat)
    requires u < |dirs| && dirs[u] == d && k < |Ids(dirs, d)| && u < Ids(dirs, d)[k]
    ensures i < k && Ids(dirs, d)[i] == u
  {
    RankIs(dirs, d, u);
    i := Rank(dirs, d, u);
    if i > k {
      IdsIncrease(dirs, d, k, i);
    }
  }

  /** The first call recorded on a directory made in this run is its `mkself`. */
  lemma FirstIsMaker(w: World, d: Uuid, k: nat)
    requires J.Inv(w.j) && Roles(w) && MadeFirst(w) && MakersOk(w) && d in w.maker && k < |Ids(w.j.line.dirs, d)|
    requires var ids := Ids(w.j.line.dirs, d); ids[k] < |w.j.txs| && w.j.txs[ids[k]].log != []
    requires forall i :: 0 <= i < k ==>
             Ids(w.j.line.dirs, d)[i] < |w.j.txs| && w.j.txs[Ids(w.j.line.dirs, d)[i]].log == []
    ensures w.j.txs[Ids(w.j.line.dirs, d)[k]].log[0] == w.maker[d]
  {
    var t := Ids(w.j.line.dirs, d)[k];
    IdInRange(w.j.line.dirs, d, k);
    LogFacts(w, d, t, 0);
    var c := w.j.txs[t].log[0];
    if c != w.maker[d] {
      BeforePlace(w.j, w.maker[d], c);
      var i := EarlierId(w.j.line.dirs, d, w.j.pos[w.maker[d]].0, k);
      assert false;
    }
  }

  /** How far the life of `d` has got after its first `k` transactions. */
  ghost predicate Begun(w: World, d: Uuid, k: nat)
    requires k <= |Ids(w.j.line.dirs, d)|
  {
    exists i :: 0 <= i < k && Ids(w.j.line.dirs, d)[i] < |w.j.txs| && w.j.txs[Ids(w.j.line.dirs, d)[i]].log != []
  }

  /** A directory made in this run: nothing, or `mkself` and then the rest. */
  ghost predicate MadeStream(w: World, d: Uuid, k: nat)
    requires k <= |Ids(w.j.line.dirs, d)| && d in w.maker
  {
    var ops, ids := Stream(w.j, d, k), Ids(w.j.line.dirs, d);
    if Begun(w, d, k) then
      && Batching.TimelyAll(Batching.UNMADE, ops) && Batching.ApplyAll(Batching.UNMADE, ops).life == Batching.Alive
      && w.maker[d] in w.j.pos && exists i :: 0 <= i < k && ids[i] == w.j.pos[w.maker[d]].0
    else ops == []
  }

  ghost predicate StreamFacts(w: World, d: Uuid) {
    && J.Inv(w.j) && Roles(w) && MadeFirst(w) && MakersOk(w) && RemovalsShow(w.j)
    && forall k :: 0 <= k < |Ids(w.j.line.dirs, d)| && Ids(w.j.line.dirs, d)[k] < |w.j.txs| ==>
         w.j.txs[Ids(w.j.line.dirs, d)[k]].tx.status != Deleted
  }

  lemma MadeFirstLog(w: World, d: Uuid, k: nat)
    requires StreamFacts(w, d) && d in w.maker && k < |Ids(w.j.line.dirs, d)| && !Begun(w, d, k) &&
             Stream(w.j, d, k) == []
    requires Ids(w.j.line.dirs, d)[k] < |w.j.txs| && w.j.txs[Ids(w.j.line.dirs, d)[k]].log != []
    ensures MadeStream(w, d, k + 1)
  {
    var ids := Ids(w.j.line.dirs, d);
    var t := ids[k];
    var log, m := w.j.txs[t].log, Batching.UNMADE;
    forall i | 0 <= i < k
      ensures ids[i] < |w.j.txs|
    {
      IdInRange(w.j.line.dirs, d, i);
    }
    IdInRange(w.j.line.dirs, d, k);
    FirstIsMaker(w, d, k);
    LogFacts(w, d, t, 0);
    LogPlain(w, d, t, 1);
    OpsHead(log, w.j.calls);
    StreamGrows(w.j, d, k);
    var mk, rest := w.j.calls[log[0]].op, C.OpsOf(log[1..], w.j.calls);
    PlainTimely(Batching.Apply(m, mk), rest);
    HeadTimely(m, mk, rest);
    assert Stream(w.j, d, k + 1) == [mk] + rest;
    assert Begun(w, d, k + 1);
    assert ids[k] == w.j.pos[w.maker[d]].0;
  }

  lemma HeadTimely(m: Batching.Dir, op: Op, rest: seq<Op>)
    requires Batching.Timely(m, op) && Batching.TimelyAll(Batching.Apply(m, op), rest)
    ensures Batching.TimelyAll(m, [op] + rest)
    ensures Batching.ApplyAll(m, [op] + rest) == Batching.ApplyAll(Batching.Apply(m, op), rest)
  {
    assert ([op] + rest)[1..] == rest;
  }

  lemma MadeLaterLog(w: World, d: Uuid, k: nat)
    requires StreamFacts(w, d) && d in w.maker && k < |Ids(w.j.line.dirs, d)| && Begun(w, d, k) && MadeStream(w, d, k)
    requires Ids(w.j.line.dirs, d)[k] < |w.j.txs|
    ensures MadeStream(w, d, k + 1)
  {
    var ids, m := Ids(w.j.line.dirs, d), Batching.UNMADE;
    var t := ids[k];
    IdInRange(w.j.line.dirs, d, k);
    var i :| 0 <= i < k && ids[i] == w.j.pos[w.maker[d]].0;
    IdsIncrease(w.j.line.dirs, d, i, k);
    LogPlain(w, d, t, 0);
    assert w.j.txs[t].log[0..] == w.j.txs[t].log;
    StreamGrows(w.j, d, k);
    var ops, more := Stream(w.j, d, k), C.OpsOf(w.j.txs[t].log, w.j.calls);
    PlainTimely(Batching.ApplyAll(m, ops), more);
    Batching.Split(m, ops, more);
    assert Begun(w, d, k + 1);
  }

  lemma MadeNone(w: World, d: Uuid)
    requires d in w.maker
    ensures MadeStream(w, d, 0)
  {
    assert Ids(w.j.line.dirs, d)[..0] == [];
  }

  lemma MadeStep(w: World, d: Uuid, k: nat)
    requires StreamFacts(w, d) && d in w.maker && k < |Ids(w.j.line.dirs, d)| && MadeStream(w, d, k)
    ensures MadeStream(w, d, k + 1)
  {
    IdInRange(w.j.line.dirs, d, k);
    if Begun(w, d, k) {
      MadeLaterLog(w, d, k);
    } else if w.j.txs[Ids(w.j.line.dirs, d)[k]].log != [] {
      MadeFirstLog(w, d, k);
    } else {
      MadeNothing(w, d, k);
    }
  }

  lemma {:induction false} MadeTimely(w: World, d: Uuid, k: nat)
    requires StreamFacts(w, d) && d in w.maker && k <= |Ids(w.j.line.dirs, d)|
    ensures MadeStream(w, d, k)
  {
    if k == 0 {
      MadeNone(w, d);
    } else {
      MadeTimely(w, d, k - 1);
      MadeStep(w, d, k - 1);
    }
  }

  lemma MadeNothing(w: World, d: Uuid, k: nat)
    requires d in w.maker && k < |Ids(w.j.line.dirs, d)| && !Begun(w, d, k) && Stream(w.j, d, k) == []
    requires Ids(w.j.line.dirs, d)[k] < |w.j.txs| && w.j.txs[Ids(w.j.line.dirs, d)[k]].log == []
    ensures MadeStream(w, d, k + 1)
  {
    StreamGrows(w.j, d, k);
    assert !Begun(w, d, k + 1);
  }

  /** A directory that was there before. */
  lemma {:induction false} LoadedPlain(w: World, d: Uuid, k: nat)
    requires StreamFacts(w, d) && d !in w.maker && k <= |Ids(w.j.line.dirs, d)|
    ensures Plain(Stream(w.j, d, k))
  {
    if k == 0 {
      assert Ids(w.j.line.dirs, d)[..0] == [];
    } else {
      LoadedPlain(w, d, k - 1);
      IdInRange(w.j.line.dirs, d, k - 1);
      var t := Ids(w.j.line.dirs, d)[k - 1];
      LogPlain(w, d, t, 0);
      assert w.j.txs[t].log[0..] == w.j.txs[t].log;
      StreamGrows(w.j, d, k - 1);
    }
  }

  /** A directory that stands records no removal. */
  lemma StandingFacts(first: map<Uuid, Durable>, w: World, d: Uuid)
    requires Inv(first, w) && W.Standing(w, d)
    ensures StreamFacts(w, d)
  {
    forall k | 0 <= k < |Ids(w.j.line.dirs, d)| && Ids(w.j.line.dirs, d)[k] < |w.j.txs|
      ensures w.j.txs[Ids(w.j.line.dirs, d)[k]].tx.status != Deleted
    {
      assert LaneOf(w, d).txs[k] == w.j.txs[Ids(w.j.line.dirs, d)[k]].tx;
    }
  }

  lemma TimelyStream(first: map<Uuid, Durable>, w: World, d: Uuid, k: nat)
    requires Inv(first, w) && d in w.known && W.Standing(w, d) && k <= |Ids(w.j.line.dirs, d)|
    ensures var m := FirstDir(DurableIn(first, d));
            && Batching.Blank(m) && Batching.Match(m, DurableIn(first, d)) && Batching.SelfMatch(m, DurableIn(first, d))
            && Batching.TimelyAll(m, Stream(w.j, d, k))
  {
    var m := FirstDir(DurableIn(first, d));
    StandingFacts(first, w, d);
    if d in w.maker {
      MadeTimely(w, d, k);
    } else {
      LoadedPlain(w, d, k);
      if ToBeMade(w, d) {
        NoTransactions(w, d);
      } else {
        PlainTimely(m, Stream(w.j, d, k));
      }
    }
  }

  /** A directory about to be made has no transaction. */
  lemma NoTransactions(w: World, d: Uuid)
    requires WriteBack.Inv(w) && d in w.known && ToBeMade(w, d)
    ensures Ids(w.j.line.dirs, d) == []
  {
    assert Watch(d);
    PlannedEmpty(LaneOf(w, d));
  }

  lemma PlannedEmpty(l: Lane)
    requires LaneInv(l) && Planned(l)
    ensures l.txs == []
  {
    assert Unfold(OfLanes);
  }

  lemma DoneStream(j: J.State, d: Uuid)
    requires LineInv(j.line)
    ensures |DoneOf(j.line, d)| <= |Ids(j.line.dirs, d)|
    ensures Stream(j, d, |DoneOf(j.line, d)|) == C.StreamOf(j, d)
  {
    assert Watch(d);
    Ends(j.line, d);
    assert Ids(j.line.dirs, d)[..|DoneOf(j.line, d)|] == DoneOf(j.line, d);
  }

  /**
   * In every reachable state, what file operations and the calls beside them have recorded on a directory, in the order
   * of its transactions, makes the directory first, if it was not there, and does nothing else to its life until it is
   * removed. That order is all that the cuts and the schedules have to preserve.
   */
  lemma RecordedStreamIsTimely(worlds: seq<World>, steps: seq<Step>, n: nat, d: Uuid)
    requires W.Run(worlds, steps) && n < |worlds| && d in worlds[n].known && W.Standing(worlds[n], d)
    ensures var j := worlds[n].j;
            Batching.TimelyAll(FirstDir(J.DurableOf(worlds[0].j, d)), Stream(j, d, |Ids(j.line.dirs, d)|))
  {
    RunKeeps(worlds, steps, n);
    TimelyStream(worlds[0].j.durable, worlds[n], d, |Ids(worlds[n].j.line.dirs, d)|);
  }

  /**
   * Two runs of file operations on a directory that started from the same objects and have checkpointed the same
   * stream, nothing of which threw, leave, however they were scheduled, the same DENTRY object, the same INODE for
   * every file whose last operation is not a removal and, if only `mkself` and `chself` change more than its times, the
   * same self INODE.
   */
  lemma FileOperationsAgree(a: seq<World>, stepsA: seq<Step>, n: nat, b: seq<World>, stepsB: seq<Step>, k: nat, d: Uuid)
    requires W.Run(a, stepsA) && n < |a| && W.Run(b, stepsB) && k < |b|
    requires d in a[n].known && W.Standing(a[n], d) && C.NoneThrew(a[n].j, d) && C.NoneThrew(b[k].j, d)
    requires J.DurableOf(a[0].j, d) == J.DurableOf(b[0].j, d)
    requires C.StreamOf(a[n].j, d) == C.StreamOf(b[k].j, d)
    ensures var d0 := J.DurableOf(a[0].j, d);
            C.Agree(FirstDir(d0), C.StreamOf(a[n].j, d), d0, J.DurableOf(a[n].j, d), J.DurableOf(b[k].j, d))
  {
    RunKeeps(a, stepsA, n);
    RunKeeps(b, stepsB, k);
    DoneStream(a[n].j, d);
    TimelyStream(a[0].j.durable, a[n], d, |DoneOf(a[n].j.line, d)|);
    assert Watch(d);
    C.StatesAgree(a[0].j.durable, a[n].j, b[0].j.durable, b[k].j, d, FirstDir(J.DurableOf(a[0].j, d)));
  }

  /** Nothing throws where every operation found in place what it had come for. */
  lemma TidyThrowsNothing(worlds: seq<World>, steps: seq<Step>, n: nat, d: Uuid)
    requires W.Run(worlds, steps) && n < |worlds| && d !in worlds[n].rough
    ensures C.NoneThrew(worlds[n].j, d)
  {
    RunKeeps(worlds, steps, n);
  }
}
