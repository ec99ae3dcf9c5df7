/** `transaction`: the operations on one directory squashed into an overlay, and what a checkpoint does with it. */
module Transactions {
  import opened Bytes

  type Name = seq<byte>

  /** Everything in an inode that `set_mtime` and `set_ctime` leave alone. */
  datatype Attrs = Attrs(ino: Uuid, mode: nat, uid: nat, gid: nat, nlink: nat, size: int, atime: int)

  datatype Inode = Inode(attrs: Attrs, mtime: int, ctime: int)

  datatype Status = Unchanged | Created | Deleted

  /** A directory entry added (`alive`) or deleted since the transaction began. */
  datatype Entry = Entry(alive: bool, ino: Uuid)

  /** The fields of a transaction other than `committed`; a `None` in `files` marks a deleted file. */
  datatype Tx = Tx(status: Status, self: Option<Inode>, dentries: map<Name, Entry>, files: map<Uuid, Option<Inode>>)

  const EMPTY: Tx := Tx(Unchanged, None, map[], map[])

  datatype Op =
    | MkSelf(self: Inode)
    | RmSelf
    | ChSelf(self: Inode)
    | MkDir(self: Inode, name: Name, ino: Uuid)
    | RmDir(self: Inode, name: Name, ino: Uuid)
    | MkReg(self: Inode, name: Name, f: Inode)
    | RmReg(self: Inode, name: Name, f: Inode)
    | ChReg(f: Inode)

  predicate EntryOp(op: Op) { op.MkDir? || op.RmDir? || op.MkReg? || op.RmReg? }

  /** The entry that goes with an entry operation. */
  function EntryOf(op: Op): Entry
    requires EntryOp(op)
  {
    Entry(op.MkDir? || op.MkReg?, if op.MkReg? || op.RmReg? then op.f.attrs.ino else op.ino)
  }

  /** The entry is in the wanted state already. */
  predicate Refuses(dentries: map<Name, Entry>, op: Op)
    requires EntryOp(op)
  {
    op.name in dentries && dentries[op.name].alive == EntryOf(op).alive
  }

  /** The `s_inode` rule of the four entry operations: refresh the times of a copy already taken, or take one. */
  function Touch(s: Option<Inode>, self: Inode): Inode {
    if s.Some? then s.value.(mtime := self.mtime, ctime := self.ctime) else self
  }

  /** The `logic_error` branches. */
  predicate Fails(tx: Tx, op: Op) {
    match op
    case MkDir(_, name, _) => name in tx.dentries && tx.dentries[name].alive
    case RmDir(_, name, _) => name in tx.dentries && !tx.dentries[name].alive
    case MkReg(_, name, f) =>
      || (name in tx.dentries && tx.dentries[name].alive)
      || (f.attrs.ino in tx.files && tx.files[f.attrs.ino].Some?)
    case RmReg(_, name, f) =>
      || (name in tx.dentries && !tx.dentries[name].alive)
      || (f.attrs.ino in tx.files && tx.files[f.attrs.ino].None?)
    case _ => false
  }

  /** The overlay after `op`, when no `logic_error` is thrown. */
  function Record(tx: Tx, op: Op): Tx {
    match op
    case MkSelf(self) => tx.(status := Created, self := Some(self))
    case RmSelf => tx.(status := Deleted)
    case ChSelf(self) => tx.(self := Some(self))
    case MkDir(self, name, ino) =>
      tx.(dentries := tx.dentries[name := Entry(true, ino)], self := Some(Touch(tx.self, self)))
    case RmDir(self, name, ino) =>
      tx.(dentries := tx.dentries[name := Entry(false, ino)], self := Some(Touch(tx.self, self)))
    case MkReg(self, name, f) =>
      tx.(dentries := tx.dentries[name := Entry(true, f.attrs.ino)], self := Some(Touch(tx.self, self)),
          files := tx.files[f.attrs.ino := Some(f)])
    case RmReg(self, name, f) =>
      tx.(dentries := tx.dentries[name := Entry(false, f.attrs.ino)], self := Some(Touch(tx.self, self)),
          files := tx.files[f.attrs.ino := None])
    case ChReg(f) => tx.(files := tx.files[f.attrs.ino := Some(f)])
  }

  /**
   * What a `logic_error` leaves behind: the entry and the self inode may be recorded when the file inode is refused.
   */
  function Thrown(tx: Tx, op: Op): Tx {
    match op
    case MkReg(self, name, f) =>
      if name in tx.dentries && tx.dentries[name].alive then tx else Record(tx, op).(files := tx.files)
    case RmReg(self, name, f) =>
      if name in tx.dentries && !tx.dentries[name].alive then tx else Record(tx, op).(files := tx.files)
    case _ => tx
  }

  /** What an operation does to an overlay that is not frozen, thrown or not. */
  function Taken(tx: Tx, op: Op): Tx {
    if Fails(tx, op) then Thrown(tx, op) else Record(tx, op)
  }

  /** `mvdir` and `mvreg`: the old name goes, the new one comes, and the file it replaces, if any, is deleted. */
  function Moved(tx: Tx, self: Inode, src: Name, ino: Uuid, dst: Name, replaced: Option<Uuid>): Tx {
    tx.(dentries := tx.dentries[src := Entry(false, ino)][dst := Entry(true, ino)], self := Some(Touch(tx.self, self)),
        files := if replaced.Some? then tx.files[replaced.value := None] else tx.files)
  }

  /** The durable objects of one directory: its DENTRY, its INODE, and the INODEs of its regular files. */
  datatype Durable = Durable(dentry: Option<map<Name, Uuid>>, self: Option<Inode>, files: map<Uuid, Inode>)

  function DurableIn(store: map<Uuid, Durable>, d: Uuid): Durable {
    if d in store then store[d] else Durable(None, None, map[])
  }

  /** The entries of `base` with an overlay applied. */
  function Overlaid(base: map<Name, Uuid>, dentries: map<Name, Entry>): map<Name, Uuid> {
    map n | n in base.Keys + dentries.Keys && (n in dentries ==> dentries[n].alive) ::
      if n in dentries then dentries[n].ino else base[n]
  }

  /** The file inodes after the non-null ones of an overlay have been written. */
  function Written(base: map<Uuid, Inode>, files: map<Uuid, Option<Inode>>): map<Uuid, Inode> {
    map i | i in base.Keys + files.Keys && (i in base || files[i].Some?) ::
      if i in files && files[i].Some? then files[i].value else base[i]
  }

  /** `sync`; `None` is the "Dentry Corrupted" exception. */
  function Sync(d: Durable, tx: Tx): Option<Durable> {
    if tx.status == Deleted then Some(d.(dentry := None, self := None))
    else if tx.status != Created && d.dentry.None? then None
    else
      var base := if tx.status == Created then map[] else d.dentry.value;
      var self := if tx.self.Some? then tx.self else d.self;
      Some(Durable(Some(Overlaid(base, tx.dentries)), self, Written(d.files, tx.files)))
  }

  datatype Outcome = Accepted | Frozen | LogicError

  /** `dentry`: the entries of one directory. */
  class DirEntries {
    var childList: map<Name, Uuid>

    constructor (entries: map<Name, Uuid>)
      ensures childList == entries
    {
      childList := entries;
    }

    method AddChild(name: Name, ino: Uuid)
      modifies this
      ensures childList == old(childList)[name := ino]
    {
      childList := childList[name := ino];
    }

    method DeleteChild(name: Name)
      modifies this
      ensures childList == old(childList) - {name}
    {
      if name in childList {
        childList := childList - {name};
      }
    }
  }

  class Transaction {
    var committed: bool
    var status: Status
    var self: Option<Inode>
    var dentries: map<Name, Entry>
    var files: map<Uuid, Option<Inode>>

    function View(): Tx
      reads this
    {
      Tx(status, self, dentries, files)
    }

    constructor ()
      ensures View() == EMPTY && !committed
    {
      committed, status, self, dentries, files := false, Unchanged, None, map[], map[];
    }

    /** Adds or deletes one entry; false is the `logic_error` of an entry already in the wanted state. */
    method SetEntry(name: Name, alive: bool, ino: Uuid) returns (ok: bool)
      modifies this`dentries
      ensures ok <==> !(name in old(dentries) && old(dentries)[name].alive == alive)
      ensures ok ==> dentries == old(dentries)[name := Entry(alive, ino)]
      ensures !ok ==> dentries == old(dentries)
    {
      if name !in dentries {
        dentries := dentries[name := Entry(alive, ino)];
        ok := true;
      } else if dentries[name].alive != alive {
        dentries := dentries[name := Entry(alive, ino)];
        ok := true;
      } else {
        ok := false;
      }
    }

    method TouchSelf(selfInode: Inode)
      modifies this`self
      ensures self == Some(Touch(old(self), selfInode))
    {
      if self.Some? {
        self := Some(self.value.(mtime := selfInode.mtime, ctime := selfInode.ctime));
      } else {
        self := Some(selfInode);
      }
    }

    /** The eight recording operations, dispatched: retry when frozen, throw, or record. */
    method Apply(op: Op) returns (outcome: Outcome)
      modifies this
      ensures committed == old(committed)
      ensures outcome == Frozen <==> committed
      ensures outcome == LogicError <==> !committed && Fails(old(View()), op)
      ensures outcome == Frozen ==> View() == old(View())
      ensures outcome == Accepted ==> View() == Record(old(View()), op)
      ensures outcome == LogicError ==> View() == Thrown(old(View()), op)
      ensures outcome == LogicError ==> EntryOp(op) && status == old(status) && files == old(files)
      ensures outcome == LogicError && Refuses(old(dentries), op) ==> dentries == old(dentries) && self == old(self)
      ensures outcome == LogicError && !Refuses(old(dentries), op) ==>
                dentries == old(dentries)[op.name := EntryOf(op)] && self == Some(Touch(old(self), op.self))
      ensures outcome != Frozen ==> View() == Taken(old(View()), op)
    {
      if committed {
        return Frozen;
      }
      outcome := Accepted;
      match op {
        case MkSelf(s) =>
          self := Some(s);
          status := Created;
        case RmSelf =>
          status := Deleted;
        case ChSelf(s) =>
          self := Some(s);
        case MkDir(s, name, ino) =>
          var ok := SetEntry(name, true, ino);
          if !ok {
            return LogicError;
          }
          TouchSelf(s);
        case RmDir(s, name, ino) =>
          var ok := SetEntry(name, false, ino);
          if !ok {
            return LogicError;
          }
          TouchSelf(s);
        case MkReg(s, name, f) =>
          var ok := SetEntry(name, true, f.attrs.ino);
          if !ok {
            return LogicError;
          }
          TouchSelf(s);
          if f.attrs.ino !in files || files[f.attrs.ino].None? {
            files := files[f.attrs.ino := Some(f)];
          } else {
            return LogicError;
          }
        case RmReg(s, name, f) =>
          var ok := SetEntry(name, false, f.attrs.ino);
          if !ok {
            return LogicError;
          }
          TouchSelf(s);
          if f.attrs.ino !in files || files[f.attrs.ino].Some? {
            files := files[f.attrs.ino := None];
          } else {
            return LogicError;
          }
        case ChReg(f) =>
          files := files[f.attrs.ino := Some(f)];
      }
    }

    /** `mvdir` and `mvreg`; `replaced` is the inode of the file at the new name, which only `mvreg` has. */
    method Move(selfInode: Inode, src: Name, ino: Uuid, dst: Name, replaced: Option<Uuid>) returns (outcome: Outcome)
      modifies this
      ensures committed == old(committed)
      ensures outcome == Frozen <==> committed
      ensures outcome == LogicError <==> !committed && src in old(dentries) && !old(dentries)[src].alive
      ensures outcome != Accepted ==> View() == old(View())
      ensures outcome == Accepted ==> View() == Moved(old(View()), selfInode, src, ino, dst, replaced)
    {
      if committed {
        return Frozen;
      }
      var ok := SetEntry(src, false, ino);
      if !ok {
        return LogicError;
      }
      dentries := dentries[dst := Entry(true, ino)];
      TouchSelf(selfInode);
      if replaced.Some? {
        files := files[replaced.value := None];
      }
      outcome := Accepted;
    }

    /** The freezing half of `commit`; false is its `logic_error`. From here on `Apply` only answers `Frozen`. */
    method Freeze() returns (ok: bool)
      modifies this`committed
      ensures committed && ok == !old(committed)
    {
      ok := !committed;
      committed := true;
    }

    /** `sync`: the entries and the file inodes are visited in whatever order the hash maps give. */
    method SyncTo(d: Durable) returns (r: Option<Durable>)
      ensures r == Sync(d, View())
    {
      if status == Deleted {
        return Some(d.(dentry := None, self := None));
      }
      if status != Created && d.dentry.None? {
        return None;
      }
      var base := if status == Created then map[] else d.dentry.value;
      var entries := new DirEntries(base);
      MergeEntries(entries, dentries);
      var written := WriteFiles(d.files, files);
      r := Some(Durable(Some(entries.childList), if self.Some? then self else d.self, written));
    }
  }

  lemma OverlaidOne(base: map<Name, Uuid>, dentries: map<Name, Entry>, rest: set<Name>, name: Name)
    requires name in rest && rest <= dentries.Keys
    ensures var before := Overlaid(base, dentries - rest);
            Overlaid(base, dentries - (rest - {name})) ==
            if dentries[name].alive then before[name := dentries[name].ino] else before - {name}
  {
  }

  /** The entry loop of `sync`. */
  method MergeEntries(entries: DirEntries, dentries: map<Name, Entry>)
    modifies entries
    ensures entries.childList == Overlaid(old(entries.childList), dentries)
  {
    ghost var base := entries.childList;
    var rest := dentries.Keys;
    assert Overlaid(base, dentries - rest) == base;
    while rest != {}
      invariant rest <= dentries.Keys
      invariant entries.childList == Overlaid(base, dentries - rest)
    {
      var name :| name in rest;
      OverlaidOne(base, dentries, rest, name);
      if dentries[name].alive {
        entries.AddChild(name, dentries[name].ino);
      } else {
        entries.DeleteChild(name);
      }
      rest := rest - {name};
    }
    assert dentries - rest == dentries;
  }

  lemma WrittenOne(base: map<Uuid, Inode>, files: map<Uuid, Option<Inode>>, rest: set<Uuid>, ino: Uuid)
    requires ino in rest && rest <= files.Keys
    ensures var before := Written(base, files - rest);
            Written(base, files - (rest - {ino})) ==
            if files[ino].Some? then before[ino := files[ino].value] else before
  {
  }

  /** The file inode loop of `sync`. */
  method WriteFiles(base: map<Uuid, Inode>, files: map<Uuid, Option<Inode>>) returns (written: map<Uuid, Inode>)
    ensures written == Written(base, files)
  {
    written := base;
    var rest := files.Keys;
    assert Written(base, files - rest) == base;
    while rest != {}
      invariant rest <= files.Keys
      invariant written == Written(base, files - rest)
    {
      var ino :| ino in rest;
      WrittenOne(base, files, rest, ino);
      if files[ino].Some? {
        written := written[ino := files[ino].value];
      }
      rest := rest - {ino};
    }
    assert files - rest == files;
  }
}
