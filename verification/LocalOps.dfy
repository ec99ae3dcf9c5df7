/**
 * `local_ops` as one thread sees them: each edits the LOCAL table and makes the journal call for the same change, in
 * the order the write-back machine takes them in.
 */
module LocalOps {
  import opened Bytes
  import opened Transactions
  import opened DentryTables
  import opened Threads
  import opened WriteBack
  import Batching

  /** Finished, refused with an error before anything changed, or stopped by a `logic_error`. */
  datatype Result = Finished | Refused | Threw

  function EditedAll(t: Table, ops: seq<Op>): Table
    decreases |ops|
  {
    if ops == [] then t else EditedAll(EditedTable(t, ops[0]), ops[1..])
  }

  class LocalDirectory {
    const ino: Uuid
    const table: DentryTable
    const journal: JournalTable

    constructor (ino: Uuid, table: DentryTable, journal: JournalTable)
      ensures this.ino == ino && this.table == table && this.journal == journal
    {
      this.ino, this.table, this.journal := ino, table, journal;
    }

    /** The live overlay of this directory. */
    ghost function Overlay(): Tx
      reads journal, journal.live.Values
    {
      if ino in journal.live then journal.live[ino].View() else EMPTY
    }

    /** The live overlays of other directories stay as they were. */
    twostate predicate OthersStay()
      reads journal, journal.live.Values
    {
      forall d :: d in old(journal.live) && d != ino ==>
        && d in journal.live && journal.live[d] == old(journal.live)[d]
        && journal.live[d].View() == old(journal.live[d].View())
    }

    /** The table's half of a change. */
    method EditTable(op: Op)
      requires op.MkDir? || op.RmDir? || op.MkReg? || op.RmReg?
      modifies table, table.entries
      ensures table.entries == old(table.entries) && table.View() == EditedTable(old(table.View()), op)
    {
      match op {
        case MkDir(_, name, child) =>
          var _ := table.CreateChildInode(name, child);
        case MkReg(_, name, f) =>
          var _ := table.CreateChildInode(name, f.attrs.ino);
        case RmDir(_, name, _) =>
          var _ := table.DeleteChildInode(name);
        case RmReg(_, name, _) =>
          var _ := table.DeleteChildInode(name);
      }
    }

    /** The journal's half. */
    method Journalled(op: Op) returns (ok: bool)
      requires journal.Valid()
      modifies journal, journal.live.Values
      ensures OthersStay()
      ensures journal.Valid()
      ensures journal.live.Keys == old(journal.live.Keys) + {ino}
      ensures forall d :: d in journal.live ==> journal.live[d] in old(journal.live.Values) || fresh(journal.live[d])
      ensures ok <==> !Fails(old(Overlay()), op)
      ensures ok ==> Overlay() == Record(old(Overlay()), op)
      ensures !ok ==> Overlay() == Thrown(old(Overlay()), op)
    {
      var outcome := journal.Journal(ino, op);
      ok := outcome == Accepted;
    }

    /** One edit and its journal call. */
    method Change(op: Op) returns (ok: bool)
      requires journal.Valid() && (op.MkDir? || op.RmDir? || op.MkReg? || op.RmReg?)
      modifies table, table.entries, journal, journal.live.Values
      ensures OthersStay()
      ensures journal.Valid() && table.entries == old(table.entries)
      ensures journal.live.Keys == old(journal.live.Keys) + {ino}
      ensures forall d :: d in journal.live ==> journal.live[d] in old(journal.live.Values) || fresh(journal.live[d])
      ensures table.View() == EditedTable(old(table.View()), op)
      ensures ok <==> !Fails(old(Overlay()), op)
      ensures ok ==> Overlay() == Record(old(Overlay()), op)
      ensures !ok ==> Overlay() == Thrown(old(Overlay()), op)
    {
      EditTable(op);
      ok := Journalled(op);
    }

    /** A change that is the whole operation. */
    method Single(op: Op) returns (r: Result)
      requires journal.Valid() && (op.MkDir? || op.RmDir? || op.MkReg? || op.RmReg?)
      modifies table, table.entries, journal, journal.live.Values
      ensures OthersStay()
      ensures journal.Valid()
      ensures journal.live.Keys == old(journal.live.Keys) + {ino}
      ensures forall d :: d in journal.live ==> journal.live[d] in old(journal.live.Values) || fresh(journal.live[d])
      ensures Ran(old(table.View()), old(Overlay()), [op], r, table.View(), Overlay())
      ensures table.View() == EditedTable(old(table.View()), op)
      ensures r == Threw <==> Fails(old(Overlay()), op)
      ensures r == Finished ==> Overlay() == Record(old(Overlay()), op)
      ensures r == Threw ==> Overlay() == Thrown(old(Overlay()), op)
    {
      OneChange(op, table.View(), Overlay());
      var ok := Change(op);
      r := if ok then Finished else Threw;
    }

    /**
     * `local_create`: the name is entered in the table, unless it is there, and the journal is told of the entry and
     * of the file's inode.
     */
    method Create(self: Inode, name: Name, f: Inode) returns (r: Result)
      requires journal.Valid()
      modifies table, table.entries, journal, journal.live.Values
      ensures OthersStay()
      ensures r != Refused && EntersName(old(table.View()), name, f.attrs.ino, table.View())
      ensures r == Threw <==> AliveIn(old(Overlay()), name) || WrittenIn(old(Overlay()), f.attrs.ino)
      ensures r == Finished ==> var x := old(Overlay());
                Overlay() == Tx(x.status, Some(Touch(x.self, self)), x.dentries[name := Entry(true, f.attrs.ino)],
                                x.files[f.attrs.ino := Some(f)])
      ensures Did(old(table.View()), old(Overlay()), WriteBack.CreateFile(self, name, f), r, table.View(), Overlay())
    {
      r := Single(MkReg(self, name, f));
    }

    /** `local_mkdir`: the entry in this directory, then `mkself` of the new one. */
    method MakeDir(self: Inode, name: Name, child: Inode) returns (r: Result)
      requires journal.Valid() && child.attrs.ino != ino && child.attrs.ino !in journal.live
      modifies table, table.entries, journal, journal.live.Values
      ensures OthersStay()
      ensures r != Refused && EntersName(old(table.View()), name, child.attrs.ino, table.View())
      ensures r == Threw <==> AliveIn(old(Overlay()), name)
      ensures r == Finished ==> var x := old(Overlay());
                Overlay() == Tx(x.status, Some(Touch(x.self, self)), x.dentries[name := Entry(true, child.attrs.ino)],
                                x.files)
      ensures r == Finished ==>
                child.attrs.ino in journal.live &&
                journal.live[child.attrs.ino].View() == Tx(Created, Some(child), map[], map[])
      ensures r == Threw ==> child.attrs.ino !in journal.live
      ensures Did(old(table.View()), old(Overlay()), WriteBack.MakeDir(self, name, child), r, table.View(), Overlay())
    {
      r := Single(MkDir(self, name, child.attrs.ino));
      if r == Finished {
        var _ := journal.Journal(child.attrs.ino, MkSelf(child));
      }
    }

    /** `local_rmdir_down`: the name goes from the table, if it is there, and the journal is told. */
    method RmdirDown(self: Inode, name: Name, child: Uuid) returns (r: Result)
      requires journal.Valid()
      modifies table, table.entries, journal, journal.live.Values
      ensures OthersStay()
      ensures r != Refused && DropsName(old(table.View()), name, table.View())
      ensures r == Threw <==> DeadIn(old(Overlay()), name)
      ensures r == Finished ==> var x := old(Overlay());
                Overlay() == Tx(x.status, Some(Touch(x.self, self)), x.dentries[name := Entry(false, child)], x.files)
      ensures Did(old(table.View()), old(Overlay()), WriteBack.RmdirDown(self, name, child), r, table.View(), Overlay())
    {
      r := Single(RmDir(self, name, child));
    }

    /** `local_rmdir_top`, refused while there are children; the table itself is then dropped by its owner. */
    method RmdirTop() returns (r: Result)
      requires journal.Valid()
      modifies journal, journal.live.Values
      ensures OthersStay()
      ensures r == if old(table.View()).children == map[] then Finished else Refused
      ensures Overlay() == if r == Finished then old(Overlay()).(status := Deleted) else old(Overlay())
      ensures Did(old(table.View()), old(Overlay()), WriteBack.RmdirTop, r, table.View(), Overlay())
    {
      OneChange(RmSelf, table.View(), Overlay());
      if |table.entries.childList| > 0 {
        return Refused;
      }
      var _ := Journalled(RmSelf);
      r := Finished;
    }

    /** `local_symlink`, refused when the name exists. */
    method Symlink(self: Inode, name: Name, f: Inode, root: Uuid) returns (r: Result)
      requires journal.Valid() && NIL !in table.entries.childList.Values && name != [0x2f]
      modifies table, table.entries, journal, journal.live.Values
      ensures OthersStay()
      ensures r == Refused <==> name in old(table.View()).children
      ensures r == Refused ==> table.View() == old(table.View()) && Overlay() == old(Overlay())
      ensures r != Refused ==> EntersName(old(table.View()), name, f.attrs.ino, table.View())
      ensures r != Refused ==>
                (r == Threw <==> AliveIn(old(Overlay()), name) || WrittenIn(old(Overlay()), f.attrs.ino))
      ensures r == Finished ==> var x := old(Overlay());
                Overlay() == Tx(x.status, Some(Touch(x.self, self)), x.dentries[name := Entry(true, f.attrs.ino)],
                                x.files[f.attrs.ino := Some(f)])
      ensures Did(old(table.View()), old(Overlay()), WriteBack.Symlink(self, name, f), r, table.View(), Overlay())
    {
      var found := table.CheckChildInode(name, root);
      if found != NIL {
        return Refused;
      }
      r := Single(MkReg(self, name, f));
    }

    /** `local_unlink` of the last link, refused when there is no such name; the data objects are removed elsewhere. */
    method Unlink(self: Inode, name: Name, f: Inode) returns (r: Result)
      requires journal.Valid() && table.inodes == table.entries.childList
      modifies table, table.entries, journal, journal.live.Values
      ensures OthersStay()
      ensures r == Refused <==> name !in old(table.View()).children
      ensures r == Refused ==> table.View() == old(table.View()) && Overlay() == old(Overlay())
      ensures r != Refused ==> DropsName(old(table.View()), name, table.View())
      ensures r != Refused ==>
                (r == Threw <==> DeadIn(old(Overlay()), name) || GoneIn(old(Overlay()), f.attrs.ino))
      ensures r == Finished ==> var x := old(Overlay());
                Overlay() == Tx(x.status, Some(Touch(x.self, self)), x.dentries[name := Entry(false, f.attrs.ino)],
                                x.files[f.attrs.ino := None])
      ensures Did(old(table.View()), old(Overlay()), WriteBack.Unlink(self, name, f), r, table.View(), Overlay())
    {
      var found := table.GetChildInode(name);
      if found.None? {
        return Refused;
      }
      r := Single(RmReg(self, name, f));
    }

    /** The first critical section of `local_rename_same_parent`; `None` is the `no_entry` exception. */
    method RenameFind(name: Name) returns (found: Option<Uuid>)
      requires table.inodes == table.entries.childList
      ensures found.Some? <==> name in table.View().children
      ensures found.Some? ==> found.value == table.View().children[name]
    {
      found := table.GetChildInode(name);
    }

    /**
     * The second: whatever has become of the old name since, the replaced file goes first, then the old name, then the
     * new name comes, with the inode `f` found before.
     */
    method Rename(self: Inode, name: Name, newName: Name, f: Inode, replaced: Inode, root: Uuid) returns (r: Result)
      requires journal.Valid() && NIL !in table.entries.childList.Values && newName != [0x2f]
      modifies table, table.entries, journal, journal.live.Values
      ensures OthersStay()
      ensures r != Refused
      ensures r == Finished && old(table.inodes) == old(table.entries.childList) ==>
                var m := (old(table.inodes) - {name, newName})[newName := f.attrs.ino];
                table.View() == Table(m, m)
      ensures r == Finished ==> var x, there := old(Overlay()), newName in old(table.View()).children;
                var files := if there then x.files[replaced.attrs.ino := None] else x.files;
                Overlay() == Tx(x.status, Some(Touch(x.self, self)),
                                x.dentries[name := Entry(false, f.attrs.ino)][newName := Entry(true, f.attrs.ino)],
                                files[f.attrs.ino := Some(f)])
      ensures name != newName ==>
                var x, there := old(Overlay()), newName in old(table.View()).children;
                r == Threw <==> RenameClashes(x, there, name, newName, f.attrs.ino, replaced.attrs.ino)
      ensures Did(old(table.View()), old(Overlay()), WriteBack.Rename(self, name, newName, f, replaced), r,
                  table.View(), Overlay())
    {
      var found := table.CheckChildInode(newName, root);
      ghost var t0, x0 := table.View(), Overlay();
      var move := [RmReg(self, name, f), MkReg(self, newName, f)];
      if found != NIL {
        var ok := Change(RmReg(self, newName, replaced));
        FirstChange(RmReg(self, newName, replaced), move, t0, x0);
        if !ok {
          return Threw;
        }
      }
      r := Move(self, name, newName, f);
      RenameTable(t0, self, name, newName, f, if found != NIL then Some(replaced) else None);
      RenameRecord(x0, self, name, newName, f, if found != NIL then Some(replaced) else None);
      if name != newName {
        RenameFails(x0, self, name, newName, f, if found != NIL then Some(replaced) else None);
      }
    }

    /** The last two changes of a rename. */
    method Move(self: Inode, name: Name, newName: Name, f: Inode) returns (r: Result)
      requires journal.Valid()
      modifies table, table.entries, journal, journal.live.Values
      ensures OthersStay()
      ensures journal.Valid()
      ensures Ran(old(table.View()), old(Overlay()), [RmReg(self, name, f), MkReg(self, newName, f)], r, table.View(),
                  Overlay())
    {
      ghost var t0, x0 := table.View(), Overlay();
      var rm, mk := RmReg(self, name, f), MkReg(self, newName, f);
      FirstChange(rm, [mk], t0, x0);
      assert [rm] + [mk] == [rm, mk];
      var ok := Change(rm);
      if !ok {
        return Threw;
      }
      OneChange(mk, table.View(), Overlay());
      ok := Change(mk);
      r := if ok then Finished else Threw;
    }
  }

  // What the operations do, told apart from their plans

  /** A name that the table does not know is bound to `ino`; one that it knows stays as it is. */
  predicate EntersName(t: Table, name: Name, ino: Uuid, t': Table) {
    t' == if name in t.inodes then t else Table(t.children[name := ino], t.inodes[name := ino])
  }

  predicate DropsName(t: Table, name: Name, t': Table) {
    t' == if name in t.inodes then Table(t.children - {name}, t.inodes - {name}) else t
  }

  /** The overlay records the name as entered, or as removed; the file as written, or as removed. */
  predicate AliveIn(x: Tx, name: Name) { name in x.dentries && x.dentries[name].alive }

  predicate DeadIn(x: Tx, name: Name) { name in x.dentries && !x.dentries[name].alive }

  predicate WrittenIn(x: Tx, ino: Uuid) { ino in x.files && x.files[ino].Some? }

  predicate GoneIn(x: Tx, ino: Uuid) { ino in x.files && x.files[ino].None? }

  /** Something that a rename removes is recorded as removed, or what it enters as entered. */
  predicate RenameClashes(x: Tx, there: bool, name: Name, newName: Name, ino: Uuid, replaced: Uuid) {
    || (there && (DeadIn(x, newName) || GoneIn(x, replaced) || replaced == ino))
    || DeadIn(x, name) || GoneIn(x, ino)
    || (!there && AliveIn(x, newName))
  }

  /** The changes of a rename, `replaced` being the file that stood at the new name. */
  function RenameOps(self: Inode, name: Name, newName: Name, f: Inode, replaced: Option<Inode>): seq<Op> {
    var move := [RmReg(self, name, f), MkReg(self, newName, f)];
    if replaced.Some? then [RmReg(self, newName, replaced.value)] + move else move
  }

  lemma TwoChanges(a: Op, b: Op, t: Table, x: Tx)
    ensures EditedAll(t, [a, b]) == EditedTable(EditedTable(t, a), b)
    ensures Batching.RecordAll(x, [a, b]) == Record(Record(x, a), b)
    ensures Batching.FailsSomewhere(x, [a, b]) <==> Fails(x, a) || Fails(Record(x, a), b)
  {
    assert [a] + [b] == [a, b];
    FirstChange(a, [b], t, x);
    OneChange(b, EditedTable(t, a), Record(x, a));
  }

  lemma ThreeChanges(a: Op, b: Op, c: Op, t: Table, x: Tx)
    ensures EditedAll(t, [a] + [b, c]) == EditedTable(EditedTable(EditedTable(t, a), b), c)
    ensures Batching.RecordAll(x, [a] + [b, c]) == Record(Record(Record(x, a), b), c)
    ensures Batching.FailsSomewhere(x, [a] + [b, c]) <==>
            Fails(x, a) || Fails(Record(x, a), b) || Fails(Record(Record(x, a), b), c)
  {
    FirstChange(a, [b, c], t, x);
    TwoChanges(b, c, EditedTable(t, a), Record(x, a));
  }

  lemma RenameTable(t: Table, self: Inode, name: Name, newName: Name, f: Inode, replaced: Option<Inode>)
    ensures t.children == t.inodes && (replaced.Some? <==> newName in t.children) ==>
              var m := (t.inodes - {name, newName})[newName := f.attrs.ino];
              EditedAll(t, RenameOps(self, name, newName, f, replaced)) == Table(m, m)
  {
    var rm, mk := RmReg(self, name, f), MkReg(self, newName, f);
    if replaced.Some? {
      ThreeChanges(RmReg(self, newName, replaced.value), rm, mk, t, EMPTY);
    } else {
      TwoChanges(rm, mk, t, EMPTY);
    }
  }

  lemma RenameRecord(x: Tx, self: Inode, name: Name, newName: Name, f: Inode, replaced: Option<Inode>)
    ensures var files := if replaced.Some? then x.files[replaced.value.attrs.ino := None] else x.files;
            Batching.RecordAll(x, RenameOps(self, name, newName, f, replaced)) ==
            Tx(x.status, Some(Touch(x.self, self)),
               x.dentries[name := Entry(false, f.attrs.ino)][newName := Entry(true, f.attrs.ino)],
               files[f.attrs.ino := Some(f)])
  {
    var rm, mk := RmReg(self, name, f), MkReg(self, newName, f);
    if replaced.Some? {
      ThreeChanges(RmReg(self, newName, replaced.value), rm, mk, Table(map[], map[]), x);
    } else {
      TwoChanges(rm, mk, Table(map[], map[]), x);
    }
  }

  lemma RenameFails(x: Tx, self: Inode, name: Name, newName: Name, f: Inode, replaced: Option<Inode>)
    requires name != newName
    ensures Batching.FailsSomewhere(x, RenameOps(self, name, newName, f, replaced)) <==>
            RenameClashes(x, replaced.Some?, name, newName, f.attrs.ino,
                          if replaced.Some? then replaced.value.attrs.ino else f.attrs.ino)
  {
    var rm, mk := RmReg(self, name, f), MkReg(self, newName, f);
    if replaced.Some? {
      ThreeChanges(RmReg(self, newName, replaced.value), rm, mk, Table(map[], map[]), x);
    } else {
      TwoChanges(rm, mk, Table(map[], map[]), x);
    }
  }

  /** The changes `ops` were made, all of them unless one met a `logic_error`. */
  ghost predicate Ran(t: Table, x: Tx, ops: seq<Op>, r: Result, t': Table, x': Tx) {
    && r != Refused
    && (r == Threw <==> Batching.FailsSomewhere(x, ops))
    && (r == Finished ==> t' == EditedAll(t, ops) && x' == Batching.RecordAll(x, ops))
  }

  /** The operation did what its plan says. */
  ghost predicate Did(t: Table, x: Tx, op: FileOp, r: Result, t': Table, x': Tx) {
    match Plan(t.children, op)
    case None => r == Refused && t' == t && x' == x
    case Some(ops) => Ran(t, x, ops, r, t', x')
  }

  lemma OneChange(op: Op, t: Table, x: Tx)
    ensures EditedAll(t, [op]) == EditedTable(t, op)
    ensures Batching.RecordAll(x, [op]) == Record(x, op)
    ensures Batching.FailsSomewhere(x, [op]) == Fails(x, op)
  {
    assert [op][1..] == [];
  }

  lemma FirstChange(op: Op, rest: seq<Op>, t: Table, x: Tx)
    ensures EditedAll(t, [op] + rest) == EditedAll(EditedTable(t, op), rest)
    ensures Batching.RecordAll(x, [op] + rest) == Batching.RecordAll(Record(x, op), rest)
    ensures Batching.FailsSomewhere(x, [op] + rest) == (Fails(x, op) || Batching.FailsSomewhere(Record(x, op), rest))
  {
    assert ([op] + rest)[0] == op && ([op] + rest)[1..] == rest;
  }
}
