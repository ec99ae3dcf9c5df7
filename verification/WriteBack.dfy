/**
 * The write-back cache of one client: file operations edit a LOCAL table under its mutex and journal the same change,
 * while commit and checkpoint threads run between any two steps.
 */
module WriteBack {
  import opened Bytes
  import opened Transactions
  import opened DentryTables
  import opened Stages
  import opened Lanes
  import J = JournalRuns

  /**
   * What the holder of a table's mutex has still to do, the journal call it waits for, and the table's entries before
   * the edit that goes with that call.
   */
  datatype Task = Task(todo: seq<Op>, call: Option<nat>, before: Names)

  /** A rename's first critical section found inode `ino` under `name` and released the mutex. */
  datatype Look = Look(dir: Uuid, name: Name, ino: Uuid)

  /**
   * `tables` are the LOCAL tables ever opened: one that `rmdir_top` has dropped stays with the operations that fetched
   * it before, and they may take its mutex at any time after. `known` are the directories this client has loaded or is
   * making, `origin` the entries of those it loaded, `maker` the `mkself` calls of the others; `looks` are what renames
   * have looked up, `rough` the directories in which an operation once began on a table it was not lawful for.
   */
  datatype World = World(j: J.State, tables: map<Uuid, Table>, busy: map<Uuid, Task>, known: set<Uuid>,
                         origin: map<Uuid, map<Name, Uuid>>, maker: map<Uuid, nat>, looks: set<Look>, rough: set<Uuid>)

  /** The operations of `local_ops`; `self` is the parent's inode as journalled. */
  datatype FileOp =
    | CreateFile(self: Inode, name: Name, f: Inode)
    | Symlink(self: Inode, name: Name, f: Inode)
    | MakeDir(self: Inode, name: Name, child: Inode)
    | Unlink(self: Inode, name: Name, f: Inode)
    | RmdirDown(self: Inode, name: Name, ino: Uuid)
    | Rename(self: Inode, name: Name, newName: Name, f: Inode, replaced: Inode)
    | RmdirTop

  /**
   * The changes an operation makes, in order, to the table and to the journal, once it holds the mutex; `None` when it
   * is refused there. A rename does not look at its old name again.
   */
  function Plan(m: map<Name, Uuid>, op: FileOp): Option<seq<Op>> {
    match op
    case CreateFile(self, name, f) => Some([MkReg(self, name, f)])
    case Symlink(self, name, f) => if name in m then None else Some([MkReg(self, name, f)])
    case MakeDir(self, name, child) => Some([MkDir(self, name, child.attrs.ino)])
    case Unlink(self, name, f) => if name !in m then None else Some([RmReg(self, name, f)])
    case RmdirDown(self, name, ino) => Some([RmDir(self, name, ino)])
    case Rename(self, name, newName, f, replaced) =>
      var move := [RmReg(self, name, f), MkReg(self, newName, f)];
      Some(if newName in m then [RmReg(self, newName, replaced)] + move else move)
    case RmdirTop => if m == map[] then Some([RmSelf]) else None
  }

  datatype Step =
    /** `lease_dentry_table` loads a durable directory. */
    | Load(dir: Uuid)
    /** The first critical section of a rename. */
    | Find(dir: Uuid, name: Name)
    /** An operation takes the mutex of the table; `mkdir` also sets out to make the new directory. */
    | Begin(dir: Uuid, op: FileOp)
    /** The mutex holder edits the table and makes the journal call for the same change. */
    | Edit(dir: Uuid)
    /** A `chreg` or `chself` call, without the mutex. */
    | Quiet(dir: Uuid, change: Op)
    | Journal(step: J.Step)
    | Release(dir: Uuid)

  // The lane of each directory

  function TxsOf(ids: seq<nat>, txs: seq<J.Rec>): seq<Tx> {
    seq(|ids|, k requires 0 <= k < |ids| => if ids[k] < |txs| then txs[ids[k]].tx else EMPTY)
  }

  function CallOf(w: World, d: Uuid): Option<nat> {
    if d in w.busy && w.busy[d].call.Some? && w.busy[d].call.value < |w.j.calls| then w.busy[d].call else None
  }

  function PendingOf(w: World, d: Uuid): Option<Op> {
    var c := CallOf(w, d);
    if c.Some? then Some(w.j.calls[c.value].op) else None
  }

  function HoldOf(w: World, d: Uuid): Option<nat> {
    var c := CallOf(w, d);
    if c.Some? && c.value in w.j.pcs && w.j.pcs[c.value].Has? then Some(Rank(w.j.line.dirs, d, w.j.pcs[c.value].tx))
        else None
  }

  predicate IsQuiet(j: J.State, d: Uuid, c: nat) {
    c in j.pcs && c < |j.calls| && j.calls[c].dir == d && !Structural(j.calls[c].op)
  }

  function WritersOf(j: J.State, d: Uuid): set<Uuid> {
    set c | c in j.pcs && IsQuiet(j, d, c) && j.calls[c].op.ChReg? :: j.calls[c].op.f.attrs.ino
  }

  predicate QuietOf(j: J.State, d: Uuid) {
    exists c :: c in j.pcs && IsQuiet(j, d, c)
  }

  function MadeOf(w: World, d: Uuid): Option<nat> {
    if d in w.maker && w.maker[d] in w.j.retries then Some(w.j.retries[w.maker[d]]) else None
  }

  function TableOf(w: World, d: Uuid): Names {
    if d in w.tables then Some(w.tables[d].children) else None
  }

  /** The entries recorded so far: those of the table, without the change whose call is in progress. */
  function NamesOf(w: World, d: Uuid): Names {
    if PendingOf(w, d).Some? && d in w.busy then w.busy[d].before else TableOf(w, d)
  }

  function TodoOf(w: World, d: Uuid): seq<Op> {
    if d in w.busy then w.busy[d].todo else []
  }

  /** The DENTRY object before the run's first transaction of a directory. */
  function FirstOf(w: World, d: Uuid): Names {
    if d in w.origin then Some(w.origin[d]) else None
  }

  function LaneOf(w: World, d: Uuid): Lane {
    Lane(TxsOf(Ids(w.j.line.dirs, d), w.j.txs), FrozenOf(w.j.line, d), |DoneOf(w.j.line, d)|,
         FirstOf(w, d), J.DurableOf(w.j, d).dentry, NamesOf(w, d), TableOf(w, d),
         PendingOf(w, d), HoldOf(w, d), TodoOf(w, d), WritersOf(w.j, d), QuietOf(w.j, d), MadeOf(w, d), d !in w.rough)
  }

  // The machine

  /**
   * What the callers and the locks see to: absent names and new inode numbers for what is made, the table's inodes for
   * what is found under the mutex, and for a rename an inode that it once looked up and has locked.
   */
  ghost predicate Proper(w: World, d: Uuid, op: FileOp)
    requires d in w.tables
  {
    var m := w.tables[d].children;
    match op
    case CreateFile(_, name, f) => name !in m && New(w, d, f.attrs.ino)
    case Symlink(_, _, f) => New(w, d, f.attrs.ino)
    case MakeDir(_, name, child) => name !in m && New(w, d, child.attrs.ino) && child.attrs.ino !in w.known
                                    && J.DurableOf(w.j, child.attrs.ino).dentry == None
                                    && J.DurableOf(w.j, child.attrs.ino).self == None
    case Unlink(_, name, f) => name in m ==> m[name] == f.attrs.ino
    case Rename(_, name, newName, f, replaced) =>
      && name != newName && Look(d, name, f.attrs.ino) in w.looks
      && (newName in m ==> m[newName] == replaced.attrs.ino)
      && f.attrs.ino !in WritersOf(w.j, d)
    case _ => true
  }

  /** The inodes that go with an operation on directory `d` are its own and those of its files. */
  predicate Addressed(d: Uuid, op: Op) {
    match op
    case MkSelf(self) => self.attrs.ino == d
    case ChSelf(self) => self.attrs.ino == d
    case RmSelf => true
    case MkDir(self, _, _) => self.attrs.ino == d
    case RmDir(self, _, _) => self.attrs.ino == d
    case MkReg(self, _, f) => self.attrs.ino == d && f.attrs.ino != d
    case RmReg(self, _, f) => self.attrs.ino == d && f.attrs.ino != d
    case ChReg(f) => f.attrs.ino != d
  }

  predicate AllAddressed(d: Uuid, ops: seq<Op>) {
    forall k :: 0 <= k < |ops| ==> Addressed(d, ops[k])
  }

  /** An inode number this directory has not met. */
  ghost predicate New(w: World, d: Uuid, ino: Uuid) {
    && ino !in WritersOf(w.j, d)
    && (d in w.tables ==> ino !in w.tables[d].children.Values)
    && Unwritten(TxsOf(Ids(w.j.line.dirs, d), w.j.txs), ino)
  }

  ghost predicate Enabled(w: World, step: Step) {
    match step
    case Load(d) =>
      d !in w.known && J.DurableOf(w.j, d).dentry.Some? && Injective(J.DurableOf(w.j, d).dentry)
    case Find(d, name) => d in w.tables && d !in w.busy && name in w.tables[d].children
    case Begin(d, op) =>
      && d in w.tables && d !in w.busy && Proper(w, d, op)
      && Plan(w.tables[d].children, op).Some? && AllAddressed(d, Plan(w.tables[d].children, op).value)
    case Edit(d) => d in w.busy && w.busy[d].call.None? && w.busy[d].todo != []
    case Quiet(d, op) =>
      && d in w.known && !Structural(op) && Addressed(d, op)
      && !Planned(LaneOf(w, d)) && !Making(LaneOf(w, d))
      && (op.ChReg? ==> !MakesSoon(Series(LaneOf(w, d)), op.f.attrs.ino))
    case Journal(step) => !step.Start? && J.Enabled(w.j, step)
    case Release(d) => d in w.busy && w.busy[d].call.None? && w.busy[d].todo == []
  }

  /** The tables after the edit that goes with a journal call. */
  function EditTable(tables: map<Uuid, Table>, d: Uuid, op: Op): map<Uuid, Table> {
    match op
    case MkSelf(_) => tables[d := Table(map[], map[])]
    case RmSelf => tables
    case _ => if d in tables then tables[d := EditedTable(tables[d], op)] else tables
  }

  function Take(w: World, step: Step): World
    requires Enabled(w, step)
  {
    match step
    case Load(d) =>
      var m := J.DurableOf(w.j, d).dentry.value;
      w.(tables := w.tables[d := Table(m, m)], known := w.known + {d}, origin := w.origin[d := m])
    case Find(d, name) => w.(looks := w.looks + {Look(d, name, w.tables[d].children[name])})
    case Begin(d, op) =>
      var plan := Plan(w.tables[d].children, op).value;
      var busy := w.busy[d := Task(plan, None, None)];
      var rough := if LawfulAll(TableOf(w, d), plan) then w.rough else w.rough + {d};
      if op.MakeDir? then
        var ino := op.child.attrs.ino;
        w.(busy := busy[ino := Task([MkSelf(op.child)], None, None)], known := w.known + {ino}, rough := rough)
      else
        w.(busy := busy, rough := rough)
    case Edit(d) =>
      var op, c := w.busy[d].todo[0], |w.j.calls|;
      w.(j := J.Take(w.j, J.Start(d, op)), tables := EditTable(w.tables, d, op),
         busy := w.busy[d := Task(w.busy[d].todo[1..], Some(c), TableOf(w, d))],
         maker := if op.MkSelf? then w.maker[d := c] else w.maker)
    case Quiet(d, op) => w.(j := J.Take(w.j, J.Start(d, op)))
    case Journal(step) =>
      w.(j := J.Take(w.j, step), busy := if step.Log? then Returned(w, step.call, J.Throws(w.j, step.call)) else w.busy)
    case Release(d) => w.(busy := w.busy - {d})
  }

  /** The journal call of a mutex holder returns, or throws and the mutex is released on the way. */
  function Returned(w: World, c: nat, threw: bool): map<Uuid, Task>
    requires c < |w.j.calls|
  {
    var d := w.j.calls[c].dir;
    if Structural(w.j.calls[c].op) && d in w.busy then
      if threw then w.busy - {d} else w.busy[d := w.busy[d].(call := None)]
    else w.busy
  }

  predicate Init(w: World) {
    && J.Init(w.j) && w.tables == map[] && w.busy == map[] && w.known == {} && w.origin == map[]
    && w.maker == map[] && w.looks == {} && w.rough == {}
  }

  // Invariants

  /** Structural calls belong to the holder of their directory's mutex. */
  ghost predicate Owned(j: J.State, busy: map<Uuid, Task>) {
    && (forall c :: c in j.pcs && c < |j.calls| && Structural(j.calls[c].op) ==>
          j.calls[c].dir in busy && busy[j.calls[c].dir].call == Some(c))
    && (forall d :: d in busy && busy[d].call.Some? ==>
          var c := busy[d].call.value; c in j.pcs && c < |j.calls| && j.calls[c].dir == d && Structural(j.calls[c].op))
  }

  /** Nothing happens in a directory this client has not opened. */
  ghost predicate Confined(w: World) {
    && w.tables.Keys <= w.known && w.busy.Keys <= w.known && w.maker.Keys <= w.known
    && w.origin.Keys <= w.known && w.rough <= w.known
    && (forall c :: 0 <= c < |w.j.calls| ==> w.j.calls[c].dir in w.known)
    && (forall t :: 0 <= t < |w.j.line.dirs| ==> w.j.line.dirs[t] in w.known)
    && w.j.line.done.Keys <= w.known
  }

  /** The makers are what they are called. */
  ghost predicate MakersOk(w: World) {
    && (forall d :: d in w.maker ==>
          && w.maker[d] < |w.j.calls| && w.maker[d] in w.j.retries
          && w.j.calls[w.maker[d]].dir == d && w.j.calls[w.maker[d]].op.MkSelf?)
    && (forall d :: d in w.busy && PendingOf(w, d).Some? && PendingOf(w, d).value.MkSelf? ==>
          d in w.maker && w.busy[d].call == Some(w.maker[d]))
  }

  ghost predicate TablesOk(tables: map<Uuid, Table>) {
    forall d :: d in tables ==> tables[d].children == tables[d].inodes
  }

  ghost predicate LanesOk(w: World) {
    forall d {:trigger Watch(d)} :: Watch(d) && d in w.known ==> LaneInv(LaneOf(w, d))
  }

  ghost predicate Inv(w: World) {
    && J.Inv(w.j) && J.Settled(w.j.line, w.j.txs) && Owned(w.j, w.busy)
    && Confined(w) && MakersOk(w) && TablesOk(w.tables) && LanesOk(w)
  }
}
