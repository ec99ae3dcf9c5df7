/**
 * The regular files of the write-back cache: what a client creates and does not unlink has its INODE object once its
 * directory is at rest, holding one of the inodes that operations gave for it.
 */
module WriteBackFiles {
  import opened Bytes
  import opened Transactions
  import opened Stages
  import opened Lanes
  import opened WriteBack
  import W = WriteBackRuns
  import S = WriteBackStreams
  import C = JournalContents
  import J = JournalRuns
  import Batching

  // What operations do to file `i`

  /** The inode that goes with a name an operation enters for a file or a symbolic link. */
  function Entered(op: FileOp): Option<Inode> {
    match op
    case CreateFile(_, _, f) => Some(f)
    case Symlink(_, _, f) => Some(f)
    case Rename(_, _, _, f, _) => Some(f)
    case _ => None
  }

  /** The inode that a step gives for file `i` of `d`: by creating it, by renaming it or by `chreg`. */
  function GivenBy(step: Step, d: Uuid, i: Uuid): set<Inode> {
    if step.Begin? && step.dir == d && Entered(step.op).Some? && Entered(step.op).value.attrs.ino == i then
      {Entered(step.op).value}
    else if step.Quiet? && step.dir == d && Changes(step.change, i) then {step.change.f}
    else {}
  }

  function Given(steps: seq<Step>, d: Uuid, i: Uuid): set<Inode> {
    if steps == [] then {} else Given(steps[..|steps| - 1], d, i) + GivenBy(steps[|steps| - 1], d, i)
  }

  /** File `i` of `d` is unlinked, or replaced by a rename: it stood under the name that the operation takes away. */
  predicate Unlinks(w: World, step: Step, d: Uuid, i: Uuid) {
    && step.Begin? && step.dir == d && d in w.tables
    && match step.op
       case Unlink(_, name, _) => name in w.tables[d].children && w.tables[d].children[name] == i
       case Rename(_, _, name, _, _) => name in w.tables[d].children && w.tables[d].children[name] == i
       case _ => false
  }

  // The file in one lane

  predicate Enters(op: Op, i: Uuid) {
    op.MkReg? && op.f.attrs.ino == i
  }

  predicate Changes(op: Op, i: Uuid) {
    op.ChReg? && op.f.attrs.ino == i
  }

  ghost predicate Owed(series: seq<Op>, i: Uuid) {
    exists k :: 0 <= k < |series| && Enters(series[k], i)
  }

  /** Whoever removes the file is about to enter it again. */
  ghost predicate Repaid(series: seq<Op>, i: Uuid) {
    forall k :: 0 <= k < |series| && Removes(series[k], i) ==> Owed(series[k + 1..], i)
  }

  ghost predicate Recorded(txs: seq<Tx>, i: Uuid) {
    exists u :: 0 <= u < |txs| && i in txs[u].files && txs[u].files[i].Some?
  }

  /** Whatever stands for the file is one of `given`. */
  ghost predicate Among(txs: seq<Tx>, series: seq<Op>, i: Uuid, given: set<Inode>) {
    && (forall u :: 0 <= u < |txs| && i in txs[u].files && txs[u].files[i].Some? ==> txs[u].files[i].value in given)
    && (forall k :: 0 <= k < |series| && Enters(series[k], i) ==> series[k].f in given)
  }

  ghost predicate FileOk(txs: seq<Tx>, series: seq<Op>, i: Uuid, given: set<Inode>) {
    Repaid(series, i) && (Owed(series, i) || Recorded(txs, i)) && Among(txs, series, i, given)
  }

  lemma GrowOk(txs: seq<Tx>, series: seq<Op>, i: Uuid, given: set<Inode>)
    requires FileOk(txs, series, i, given)
    ensures FileOk(txs + [EMPTY], series, i, given)
  {
    if Recorded(txs, i) {
      var u :| 0 <= u < |txs| && i in txs[u].files && txs[u].files[i].Some?;
      assert (txs + [EMPTY])[u] == txs[u];
    }
  }

  /** The file stays recorded unless it is removed there. */
  lemma RecordedStays(txs: seq<Tx>, k: nat, op: Op, i: Uuid)
    requires k < |txs| && Recorded(txs, i) && !Removes(op, i)
    ensures Recorded(txs[k := Record(txs[k], op)], i)
  {
    var u :| 0 <= u < |txs| && i in txs[u].files && txs[u].files[i].Some?;
    assert i in txs[k := Record(txs[k], op)][u].files;
  }

  lemma RecordOk(txs: seq<Tx>, k: nat, series: seq<Op>, i: Uuid, given: set<Inode>)
    requires k < |txs| && series != [] && Structural(series[0]) && FileOk(txs, series, i, given)
    ensures FileOk(txs[k := Record(txs[k], series[0])], series[1..], i, given)
  {
    var op, txs' := series[0], txs[k := Record(txs[k], series[0])];
    forall m | 0 <= m < |series[1..]| && Removes(series[1..][m], i)
      ensures Owed(series[1..][m + 1..], i)
    {
      assert series[1..][m + 1..] == series[m + 1 + 1..];
    }
    forall m | 0 <= m < |series[1..]| && Enters(series[1..][m], i)
      ensures series[1..][m].f in given
    {
      assert series[1..][m] == series[m + 1];
    }
    if Enters(op, i) {
      assert i in txs'[k].files;
    } else if Removes(op, i) {
      assert series[0 + 1..] == series[1..];
    } else if Owed(series, i) {
      var m :| 0 <= m < |series| && Enters(series[m], i);
      assert series[1..][m - 1] == series[m];
    } else {
      RecordedStays(txs, k, op, i);
    }
  }

  lemma QuietOk(txs: seq<Tx>, k: nat, op: Op, series: seq<Op>, i: Uuid, given: set<Inode>)
    requires k < |txs| && !Structural(op) && FileOk(txs, series, i, given)
    requires Changes(op, i) ==> op.f in given
    ensures FileOk(txs[k := Record(txs[k], op)], series, i, given)
  {
    if Recorded(txs, i) {
      RecordedStays(txs, k, op, i);
    }
  }

  lemma MoreOk(txs: seq<Tx>, series: seq<Op>, i: Uuid, given: set<Inode>, more: set<Inode>)
    requires FileOk(txs, series, i, given)
    ensures FileOk(txs, series, i, given + more)
  {
  }

  /** A new operation that does not unlink the file. */
  lemma PlanOk(w: World, d: Uuid, op: FileOp, txs: seq<Tx>, i: Uuid, given: set<Inode>)
    requires Enabled(w, Begin(d, op)) && !Unlinks(w, Begin(d, op), d, i) && FileOk(txs, [], i, given)
    ensures FileOk(txs, Plan(w.tables[d].children, op).value, i, given + GivenBy(Begin(d, op), d, i))
  {
    var plan := Plan(w.tables[d].children, op).value;
    if op.Rename? {
      var last := |plan| - 1;
      forall k | 0 <= k < |plan| && Removes(plan[k], i)
        ensures Owed(plan[k + 1..], i)
      {
        assert plan[k + 1..][last - (k + 1)] == plan[last];
      }
    }
  }

  /** The operation that creates it. */
  lemma CreationOk(w: World, d: Uuid, op: FileOp, txs: seq<Tx>, i: Uuid)
    requires Enabled(w, Begin(d, op)) && (op.CreateFile? || op.Symlink?) && op.f.attrs.ino == i && Unwritten(txs, i)
    ensures FileOk(txs, Plan(w.tables[d].children, op).value, i, GivenBy(Begin(d, op), d, i))
  {
    var plan := Plan(w.tables[d].children, op).value;
    assert Enters(plan[0], i);
  }

  // The file in every step

  /** So is what the `chreg` calls in progress carry. */
  predicate CallsGiven(j: J.State, d: Uuid, i: Uuid, given: set<Inode>) {
    forall c :: c in j.pcs && c < |j.calls| && j.calls[c].dir == d && Changes(j.calls[c].op, i) ==>
      j.calls[c].op.f in given
  }

  ghost predicate FileKept(w: World, d: Uuid, i: Uuid, given: set<Inode>) {
    forall u {:trigger Unfold(u)} :: Unfold(u) && u == OfFiles ==>
      FileOk(LaneOf(w, d).txs, Series(LaneOf(w, d)), i, given) && CallsGiven(w.j, d, i, given)
  }

  /** Nothing that concerns the file. */
  lemma SameKept(w: World, w': World, d: Uuid, i: Uuid, given: set<Inode>)
    requires FileKept(w, d, i, given) && w'.j.calls == w.j.calls && w'.j.pcs.Keys <= w.j.pcs.Keys
    requires LaneOf(w', d).txs == LaneOf(w, d).txs && Series(LaneOf(w', d)) == Series(LaneOf(w, d))
    ensures FileKept(w', d, i, given)
  {
    assert Unfold(OfFiles);
  }

  lemma LogHeldKept(w: World, c: nat, d: Uuid, i: Uuid, given: set<Inode>)
    requires J.Inv(w.j) && Owned(w.j, w.busy) && FileKept(w, d, i, given) && J.Holding(w.j, c) && !J.Throws(w.j, c)
    requires w.j.calls[c].dir == d && Structural(w.j.calls[c].op)
    ensures FileKept(W.AfterLog(w, c), d, i, given)
  {
    assert Unfold(OfFiles);
    var k := LogHeldSeries(w, c, d);
    RecordOk(LaneOf(w, d).txs, k, Series(LaneOf(w, d)), i, given);
  }

  /** The call of the mutex holder goes into a transaction and out of what it has in hand. */
  lemma LogHeldSeries(w: World, c: nat, d: Uuid) returns (k: nat)
    requires J.Inv(w.j) && Owned(w.j, w.busy) && J.Holding(w.j, c) && !J.Throws(w.j, c)
    requires w.j.calls[c].dir == d && Structural(w.j.calls[c].op)
    ensures var l, l' := LaneOf(w, d), LaneOf(W.AfterLog(w, c), d);
            && k < |l.txs| && Series(l) == [w.j.calls[c].op] + Series(l')
            && l'.txs == l.txs[k := Record(l.txs[k], w.j.calls[c].op)]
  {
    W.AllHeld(w, d);
    W.HeldHere(w, c);
    W.RecLane(w, c, d);
    W.LoggedLane(w, c, d);
    assert CallOf(w, d) == Some(c) && LaneOf(w, d).pending == Some(w.j.calls[c].op);
    k := Rank(w.j.line.dirs, d, w.j.pcs[c].tx);
  }

  lemma LogQuietKept(w: World, c: nat, d: Uuid, i: Uuid, given: set<Inode>)
    requires J.Inv(w.j) && Owned(w.j, w.busy) && FileKept(w, d, i, given) && J.Holding(w.j, c)
    requires w.j.calls[c].dir == d && !Structural(w.j.calls[c].op)
    ensures FileKept(W.AfterLog(w, c), d, i, given)
  {
    assert Unfold(OfFiles);
    var k := LogQuietSeries(w, c, d);
    QuietOk(LaneOf(w, d).txs, k, w.j.calls[c].op, Series(LaneOf(w, d)), i, given);
  }

  lemma LogQuietSeries(w: World, c: nat, d: Uuid) returns (k: nat)
    requires J.Inv(w.j) && Owned(w.j, w.busy) && J.Holding(w.j, c)
    requires w.j.calls[c].dir == d && !Structural(w.j.calls[c].op)
    ensures var l, l' := LaneOf(w, d), LaneOf(W.AfterLog(w, c), d);
            && k < |l.txs| && Series(l') == Series(l) && l'.txs == l.txs[k := Record(l.txs[k], w.j.calls[c].op)]
  {
    W.AllHeld(w, d);
    W.HeldHere(w, c);
    W.QuietLane(w, c, d);
    k := Rank(w.j.line.dirs, d, w.j.pcs[c].tx);
    var j' := J.Logged(w.j, c);
    QuietSeries(LaneOf(w, d), LaneOf(W.AfterLog(w, c), d), k, w.j.calls[c].op, WritersOf(j', d), QuietOf(j', d));
  }

  lemma QuietSeries(l: Lane, l': Lane, k: nat, op: Op, writers: set<Uuid>, quiet: bool)
    requires k < |l.txs| && !Structural(op)
    requires l' == l.(txs := l.txs[k := Taken(l.txs[k], op)], writers := writers, quiet := quiet)
    ensures Series(l') == Series(l) && l'.txs == l.txs[k := Record(l.txs[k], op)]
  {
  }

  lemma LogKept(w: World, c: nat, d: Uuid, i: Uuid, given: set<Inode>)
    requires WriteBack.Inv(w) && d in w.known && FileKept(w, d, i, given)
    requires Enabled(w, Journal(J.Log(c))) && C.NoneThrew(J.Logged(w.j, c), d)
    ensures FileKept(W.AfterLog(w, c), d, i, given)
  {
    if w.j.calls[c].dir != d {
      W.AllHeld(w, d);
      W.HeldHere(w, c);
      W.LogElsewhere(w, c, d);
      SameKept(w, W.AfterLog(w, c), d, i, given);
    } else if Structural(w.j.calls[c].op) {
      LogHeldKept(w, c, d, i, given);
    } else {
      LogQuietKept(w, c, d, i, given);
    }
  }

  /** No more than a new, empty transaction. */
  predicate Idle(w: World, w': World, d: Uuid) {
    && w'.j.calls == w.j.calls && w'.j.pcs.Keys == w.j.pcs.Keys
    && var l, l' := LaneOf(w, d), LaneOf(w', d);
       (l'.txs == l.txs || l'.txs == l.txs + [EMPTY]) && Series(l') == Series(l)
  }

  lemma IdleKept(w: World, w': World, d: Uuid, i: Uuid, given: set<Inode>)
    requires FileKept(w, d, i, given) && Idle(w, w', d)
    ensures FileKept(w', d, i, given)
  {
    assert Unfold(OfFiles);
    GrowOk(LaneOf(w, d).txs, Series(LaneOf(w, d)), i, given);
  }

  lemma FetchIdle(w: World, c: nat, d: Uuid)
    requires J.Inv(w.j) && Owned(w.j, w.busy)
    requires J.Begun(w.j, c) && !w.j.pcs[c].Has? && w.j.calls[c].dir in w.j.line.live
    ensures Idle(w, W.Fetched(w, c), d)
  {
    W.FetchedLane(w, c, d);
  }

  lemma CreateIdle(w: World, c: nat, d: Uuid)
    requires J.Inv(w.j) && Owned(w.j, w.busy) && J.Begun(w.j, c) && w.j.calls[c].dir !in w.j.line.live
    ensures Idle(w, w.(j := J.Created(w.j, c)), d)
  {
    W.AllHeld(w, d);
    W.CreatedLane(w, c, d);
    CreatedIdle(LaneOf(w, d), LaneOf(w.(j := J.Created(w.j, c)), d), w.j.calls[c].dir == d, CallOf(w, d) == Some(c));
  }

  lemma CreatedIdle(l: Lane, l': Lane, here: bool, held: bool)
    requires l' == if !here then l else if held then l.(txs := l.txs + [EMPTY], hold := Some(|l.txs|))
                   else l.(txs := l.txs + [EMPTY])
    ensures (l'.txs == l.txs || l'.txs == l.txs + [EMPTY]) && Series(l') == Series(l)
  {
  }

  lemma EnterIdle(w: World, c: nat, d: Uuid)
    requires J.Inv(w.j) && Owned(w.j, w.busy) && J.Enabled(w.j, J.Enter(c))
    ensures Idle(w, w.(j := J.Take(w.j, J.Enter(c))), d)
  {
    if w.j.calls[c].dir in w.j.line.live {
      FetchIdle(w, c, d);
    } else {
      CreateIdle(w, c, d);
    }
  }

  lemma StationIdle(w: World, m: Move, d: Uuid)
    requires J.Inv(w.j) && Owned(w.j, w.busy) && J.Enabled(w.j, J.Station(m))
    ensures Idle(w, w.(j := J.Take(w.j, J.Station(m))), d)
  {
    W.AllHeld(w, d);
    J.StationFrame(w.j, m);
    if m.Finish? {
      var j' := W.FinishFacts(w.j, m.queue, d);
      W.FrameLane(w, j', d);
    } else {
      var j' := W.MoveFacts(w.j, m, d);
      W.MovedLane(w, j', d);
    }
  }

  lemma OtherIdle(w: World, step: J.Step, d: Uuid)
    requires J.Inv(w.j) && Owned(w.j, w.busy) && MakersOk(w) && Enabled(w, Journal(step)) && !step.Log?
    ensures Idle(w, Take(w, Journal(step)), d)
  {
    match step
    case Enter(c) => EnterIdle(w, c, d);
    case Station(m) => StationIdle(w, m, d);
    case Find(c) => W.FetchedLane(w, c, d);
    case Miss(c) => W.PcLane(w, c, J.Missed, d);
    case Retry(c) => W.RetryLane(w, c, J.Take(w.j, step).retries, d);
  }

  lemma JournalKept(w: World, step: J.Step, d: Uuid, i: Uuid, given: set<Inode>)
    requires WriteBack.Inv(w) && d in w.known && FileKept(w, d, i, given) && Enabled(w, Journal(step))
    requires C.NoneThrew(J.Take(w.j, step), d)
    ensures FileKept(Take(w, Journal(step)), d, i, given)
  {
    if step.Log? {
      LogKept(w, step.call, d, i, given);
    } else {
      OtherIdle(w, step, d);
      IdleKept(w, Take(w, Journal(step)), d, i, given);
    }
  }

  /** An edit turns what was ahead into what is in hand. */
  lemma EditedSeries(l: Lane)
    requires l.pending.None? && l.todo != []
    ensures Edited(l).txs == l.txs && Series(Edited(l)) == Series(l)
  {
  }

  lemma EditOwn(w: World, d: Uuid)
    requires WriteBack.Inv(w) && d in w.known && Enabled(w, Edit(d))
    ensures var l, l' := LaneOf(w, d), LaneOf(Take(w, Edit(d)), d); l'.txs == l.txs && Series(l') == Series(l)
    ensures Structural(w.busy[d].todo[0])
  {
    assert Watch(d);
    W.EditDoable(LaneOf(w, d));
    W.EditHere(w, d);
    EditedSeries(LaneOf(w, d));
  }

  lemma EditSeries(w: World, e: Uuid, d: Uuid)
    requires WriteBack.Inv(w) && d in w.known && Enabled(w, Edit(e))
    ensures var l, l' := LaneOf(w, d), LaneOf(Take(w, Edit(e)), d); l'.txs == l.txs && Series(l') == Series(l)
    ensures Structural(w.busy[e].todo[0])
  {
    EditOwn(w, e);
    if e != d {
      W.EditElsewhere(w, e, d);
    }
  }

  lemma EditKept(w: World, e: Uuid, d: Uuid, i: Uuid, given: set<Inode>)
    requires WriteBack.Inv(w) && d in w.known && FileKept(w, d, i, given) && Enabled(w, Edit(e))
    ensures FileKept(Take(w, Edit(e)), d, i, given)
  {
    assert Unfold(OfFiles);
    EditSeries(w, e, d);
  }

  lemma QuietKept(w: World, e: Uuid, op: Op, d: Uuid, i: Uuid, given: set<Inode>)
    requires MakersOk(w) && Owned(w.j, w.busy) && J.Accounted(w.j.calls, w.j.pcs, w.j.pos)
    requires FileKept(w, d, i, given) && Enabled(w, Quiet(e, op))
    ensures FileKept(Take(w, Quiet(e, op)), d, i, given + GivenBy(Quiet(e, op), d, i))
  {
    assert Unfold(OfFiles);
    W.StartLane(w, e, op, d);
    MoreOk(LaneOf(w, d).txs, Series(LaneOf(w, d)), i, given, GivenBy(Quiet(e, op), d, i));
  }

  lemma BeginKept(w: World, d: Uuid, op: FileOp, i: Uuid, given: set<Inode>)
    requires d in w.known && w.tables.Keys <= w.known && FileKept(w, d, i, given) && Enabled(w, Begin(d, op))
    requires PendingOf(w, d).None? && !Unlinks(w, Begin(d, op), d, i)
    ensures FileKept(Take(w, Begin(d, op)), d, i, given + GivenBy(Begin(d, op), d, i))
  {
    assert Unfold(OfFiles);
    W.BeginLane(w, d, op);
    PlanOk(w, d, op, LaneOf(w, d).txs, i, given);
  }

  /** A step that concerns another directory, or nothing that is journalled. */
  lemma FrameKept(w: World, step: Step, d: Uuid, i: Uuid, given: set<Inode>)
    requires d in w.known && FileKept(w, d, i, given) && Enabled(w, step)
    requires step.Load? || step.Find? || step.Release? || (step.Begin? && step.dir != d)
    ensures FileKept(Take(w, step), d, i, given)
  {
    if step.Release? && step.dir == d {
      ReleaseSeries(w, d);
    } else {
      W.OtherLane(w, Take(w, step), d);
    }
    SameKept(w, Take(w, step), d, i, given);
  }

  lemma ReleaseSeries(w: World, d: Uuid)
    requires Enabled(w, Release(d))
    ensures var l, l' := LaneOf(w, d), LaneOf(Take(w, Release(d)), d); l'.txs == l.txs && Series(l') == Series(l)
  {
  }

  /** A step that gives no inode. */
  lemma RestKept(w: World, step: Step, d: Uuid, i: Uuid, given: set<Inode>)
    requires WriteBack.Inv(w) && d in w.known && FileKept(w, d, i, given) && Enabled(w, step)
    requires !step.Quiet? && !(step.Begin? && step.dir == d) && C.NoneThrew(Take(w, step).j, d)
    ensures FileKept(Take(w, step), d, i, given)
  {
    if step.Edit? {
      EditKept(w, step.dir, d, i, given);
    } else if step.Journal? {
      JournalKept(w, step.step, d, i, given);
    } else {
      FrameKept(w, step, d, i, given);
    }
  }

  /** Each step keeps the file, unless it unlinks it or something throws. */
  lemma StepKept(w: World, step: Step, d: Uuid, i: Uuid, given: set<Inode>)
    requires WriteBack.Inv(w) && d in w.known && FileKept(w, d, i, given) && Enabled(w, step)
    requires !Unlinks(w, step, d, i) && C.NoneThrew(Take(w, step).j, d)
    ensures FileKept(Take(w, step), d, i, given + GivenBy(step, d, i))
  {
    if step.Begin? && step.dir == d {
      BeginKept(w, d, step.op, i, given);
    } else if step.Quiet? {
      QuietKept(w, step.dir, step.change, d, i, given);
    } else {
      RestKept(w, step, d, i, given);
      assert given + GivenBy(step, d, i) == given;
    }
  }

  // The file in a run

  /** What threw stays so. */
  lemma NoneThrewBefore(w: World, step: Step, d: Uuid)
    requires WriteBack.Inv(w) && Enabled(w, step) && C.NoneThrew(Take(w, step).j, d)
    ensures C.NoneThrew(w.j, d) && w.known <= Take(w, step).known
  {
    if step.Journal? {
      J.JournalFrame(w.j, step.step);
      J.StepExtends(w.j, step.step);
    }
  }

  /** Step number `i` creates the file of inode `f` in `d`, and no later step unlinks it. */
  ghost predicate CreatedAt(worlds: seq<World>, steps: seq<Step>, n: nat, d: Uuid, i: nat, f: Inode) {
    && W.Run(worlds, steps) && i < n < |worlds| && steps[i].Begin? && steps[i].dir == d
    && (steps[i].op.CreateFile? || steps[i].op.Symlink?) && steps[i].op.f == f
    && forall k :: i < k < n ==> !Unlinks(worlds[k], steps[k], d, f.attrs.ino)
  }

  lemma GivenFirst(steps: seq<Step>, d: Uuid, i: nat, ino: Uuid)
    requires i < |steps|
    ensures Given(steps[i..i + 1], d, ino) == GivenBy(steps[i], d, ino)
  {
    assert steps[i..i + 1] == [steps[i]] && [steps[i]][..0] == [];
  }

  lemma GivenNext(steps: seq<Step>, d: Uuid, i: nat, n: nat, ino: Uuid)
    requires i < n <= |steps|
    ensures Given(steps[i..n], d, ino) == Given(steps[i..n - 1], d, ino) + GivenBy(steps[n - 1], d, ino)
  {
    assert steps[i..n][..n - i - 1] == steps[i..n - 1] && steps[i..n][n - i - 1] == steps[n - 1];
  }

  lemma CreationKept(worlds: seq<World>, steps: seq<Step>, d: Uuid, i: nat, f: Inode)
    requires CreatedAt(worlds, steps, i + 1, d, i, f)
    ensures d in worlds[i + 1].known
    ensures FileKept(worlds[i + 1], d, f.attrs.ino, Given(steps[i..i + 1], d, f.attrs.ino))
  {
    RunStep(worlds, steps, i);
    var w, op, ino := worlds[i], steps[i].op, f.attrs.ino;
    W.BeginLane(w, d, op);
    assert Unfold(OfFiles);
    CreationOk(w, d, op, LaneOf(w, d).txs, ino);
    GivenFirst(steps, d, i, ino);
  }

  /** One step of a run. */
  lemma RunStep(worlds: seq<World>, steps: seq<Step>, k: nat)
    requires W.Run(worlds, steps) && k < |steps|
    ensures WriteBack.Inv(worlds[k]) && Enabled(worlds[k], steps[k]) && worlds[k + 1] == Take(worlds[k], steps[k])
  {
    assert Unfold(OfSteps) && W.Follows(worlds[k], steps[k], worlds[k + 1]);
    W.RunKeeps(worlds, steps, k);
  }

  lemma NextKept(w: World, step: Step, w': World, d: Uuid, i: Uuid, given: set<Inode>)
    requires WriteBack.Inv(w) && Enabled(w, step) && w' == Take(w, step)
    requires C.NoneThrew(w.j, d) ==> d in w.known && FileKept(w, d, i, given)
    requires !Unlinks(w, step, d, i) && C.NoneThrew(w'.j, d)
    ensures d in w'.known && FileKept(w', d, i, given + GivenBy(step, d, i))
  {
    NoneThrewBefore(w, step, d);
    StepKept(w, step, d, i, given);
  }

  ghost predicate KeptAt(worlds: seq<World>, steps: seq<Step>, n: nat, d: Uuid, i: nat, ino: Uuid)
    requires i <= n < |worlds| && n <= |steps|
  {
    C.NoneThrew(worlds[n].j, d) ==> d in worlds[n].known && FileKept(worlds[n], d, ino, Given(steps[i..n], d, ino))
  }

  /**
   * In every later state in which nothing has thrown: the file is recorded or about to be, nobody removes it for good,
   * and whatever stands for it anywhere was given by one of the steps since.
   */
  lemma {:induction false} CreatedFileKept(worlds: seq<World>, steps: seq<Step>, n: nat, d: Uuid, i: nat, f: Inode)
    requires CreatedAt(worlds, steps, n, d, i, f)
    ensures KeptAt(worlds, steps, n, d, i, f.attrs.ino)
  {
    if n == i + 1 {
      CreationKept(worlds, steps, d, i, f);
    } else {
      CreatedFileKept(worlds, steps, n - 1, d, i, f);
      RunStep(worlds, steps, n - 1);
      GivenNext(steps, d, i, n, f.attrs.ino);
      if C.NoneThrew(worlds[n].j, d) {
        NextKept(worlds[n - 1], steps[n - 1], worlds[n], d, f.attrs.ino, Given(steps[i..n - 1], d, f.attrs.ino));
      }
    }
  }

  // What is durable

  /** A checkpoint of a standing directory writes the file inodes it carries, and takes none away. */
  lemma {:induction false} SyncedFile(d0: Durable, txs: seq<Tx>, i: Uuid, given: set<Inode>)
    requires Lanes.Standing(txs) && Batching.SyncTxs(d0, txs).Some? && Among(txs, [], i, given)
    requires Recorded(txs, i) || (i in d0.files && d0.files[i] in given)
    ensures var d1 := Batching.SyncTxs(d0, txs).value; i in d1.files && d1.files[i] in given
    decreases |txs|
  {
    if txs != [] {
      var d1 := Sync(d0, txs[0]).value;
      if !(i in txs[0].files && txs[0].files[i].Some?) && Recorded(txs, i) {
        var u :| 0 <= u < |txs| && i in txs[u].files && txs[u].files[i].Some?;
        assert txs[1..][u - 1] == txs[u];
      }
      SyncedFile(d1, txs[1..], i, given);
    }
  }

  lemma {:induction false} TxsInAre(ids: seq<nat>, txs: seq<J.Rec>)
    ensures C.TxsIn(ids, txs) == TxsOf(ids, txs)
  {
    if ids != [] {
      var front, t := ids[..|ids| - 1], ids[|ids| - 1];
      TxsInAre(front, txs);
      assert TxsOf(ids, txs) == TxsOf(front, txs) + [if t < |txs| then txs[t].tx else EMPTY];
    }
  }

  /** At rest everything is checkpointed. */
  lemma AllDone(w: World, d: Uuid)
    requires WriteBack.Inv(w) && Route(d) in w.j.line.finished && d !in w.j.line.live
    ensures C.TxsIn(DoneOf(w.j.line, d), w.j.txs) == LaneOf(w, d).txs
  {
    assert Watch(d);
    Drained(w.j.line, d);
    W.WaitingIs(w, d);
    Ends(w.j.line, d);
    TxsInAre(DoneOf(w.j.line, d), w.j.txs);
    assert DoneOf(w.j.line, d) == Ids(w.j.line.dirs, d);
  }

  lemma FileDurable(first: map<Uuid, Durable>, w: World, d: Uuid, i: Uuid, given: set<Inode>)
    requires S.Inv(first, w) && d in w.known && FileKept(w, d, i, given) && W.Standing(w, d)
    requires Route(d) in w.j.line.finished && d !in w.j.line.live && d !in w.busy
    ensures i in J.DurableOf(w.j, d).files && J.DurableOf(w.j, d).files[i] in given
  {
    AllDone(w, d);
    assert Watch(d) && Unfold(OfFiles);
    assert Series(LaneOf(w, d)) == [];
    SyncedFile(DurableIn(first, d), LaneOf(w, d).txs, i, given);
  }

  /**
   * What is created is durable: at rest, in a standing directory where nothing threw, every file that this client
   * created there and did not unlink has its INODE object, holding an inode given by the operation that created it or
   * by a later one on it; so when there is no later one, the inode it was created with.
   */
  lemma CreatedFilesDurable(worlds: seq<World>, steps: seq<Step>, n: nat, d: Uuid, i: nat, f: Inode)
    requires CreatedAt(worlds, steps, n, d, i, f) && C.NoneThrew(worlds[n].j, d) && W.Standing(worlds[n], d)
    requires Route(d) in worlds[n].j.line.finished && d !in worlds[n].j.line.live && d !in worlds[n].busy
    ensures var files := J.DurableOf(worlds[n].j, d).files;
            f.attrs.ino in files && files[f.attrs.ino] in Given(steps[i..n], d, f.attrs.ino)
  {
    CreatedFileKept(worlds, steps, n, d, i, f);
    S.RunKeeps(worlds, steps, n);
    FileDurable(worlds[0].j.durable, worlds[n], d, f.attrs.ino, Given(steps[i..n], d, f.attrs.ino));
  }

  /** The same in a tidy directory, where nothing can have thrown. */
  lemma TidyFilesDurable(worlds: seq<World>, steps: seq<Step>, n: nat, d: Uuid, i: nat, f: Inode)
    requires CreatedAt(worlds, steps, n, d, i, f) && d !in worlds[n].rough && W.Standing(worlds[n], d)
    requires Route(d) in worlds[n].j.line.finished && d !in worlds[n].j.line.live && d !in worlds[n].busy
    ensures var files := J.DurableOf(worlds[n].j, d).files;
            f.attrs.ino in files && files[f.attrs.ino] in Given(steps[i..n], d, f.attrs.ino)
  {
    S.TidyThrowsNothing(worlds, steps, n, d);
    CreatedFilesDurable(worlds, steps, n, d, i, f);
  }

  /** With no later `chreg` and no rename of it, the inode is the one it was created with. */
  lemma {:induction false} GivenAlone(steps: seq<Step>, d: Uuid, i: nat, n: nat, ino: Uuid)
    requires i < n <= |steps| && forall k :: i < k < n ==> GivenBy(steps[k], d, ino) == {}
    ensures Given(steps[i..n], d, ino) == GivenBy(steps[i], d, ino)
    decreases n
  {
    if n == i + 1 {
      GivenFirst(steps, d, i, ino);
    } else {
      GivenAlone(steps, d, i, n - 1, ino);
      GivenNext(steps, d, i, n, ino);
    }
  }
}
