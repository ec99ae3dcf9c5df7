/** `dentry_table`: the names of a leased directory and, kept in step with them, its child inodes. */
module DentryTables {
  import opened Bytes
  import opened Transactions

  /** `child_list` of the table's dentry, and the inode number of each of its `child_inodes`. */
  datatype Table = Table(children: map<Name, Uuid>, inodes: map<Name, Uuid>)

  function Inserted(t: Table, name: Name, ino: Uuid): Table {
    if name in t.inodes then t else Table(t.children[name := ino], t.inodes[name := ino])
  }

  function Erased(t: Table, name: Name): Table {
    if name !in t.inodes then t else Table(t.children - {name}, t.inodes - {name})
  }

  /** The table edit that goes with an entry operation. */
  function EditedTable(t: Table, op: Op): Table {
    match op
    case MkDir(_, name, ino) => Inserted(t, name, ino)
    case MkReg(_, name, f) => Inserted(t, name, f.attrs.ino)
    case RmDir(_, name, _) => Erased(t, name)
    case RmReg(_, name, _) => Erased(t, name)
    case _ => t
  }

  const NIL: Uuid := [0, 0, 0, 0, 0, 0, 0, 0, 0, 0, 0, 0, 0, 0, 0, 0]

  class DentryTable {
    var entries: DirEntries
    var inodes: map<Name, Uuid>

    function View(): Table
      reads this, entries
    {
      Table(entries.childList, inodes)
    }

    /** A new directory's table. */
    constructor (dir: DirEntries)
      ensures entries == dir && inodes == map[]
    {
      entries, inodes := dir, map[];
    }

    /** `create_child_inode`: an existing child is left alone. */
    method CreateChildInode(name: Name, ino: Uuid) returns (code: int)
      modifies this, entries
      ensures entries == old(entries)
      ensures View() == Inserted(old(View()), name, ino)
      ensures code == if name in old(inodes) then -1 else 0
    {
      if name in inodes {
        return -1;
      }
      inodes := inodes[name := ino];
      entries.AddChild(name, ino);
      code := 0;
    }

    /** `add_child_inode`: the names know the child already. */
    method AddChildInode(name: Name, ino: Uuid) returns (code: int)
      modifies this`inodes
      ensures inodes == if name in old(inodes) then old(inodes) else old(inodes)[name := ino]
      ensures code == if name in old(inodes) then -1 else 0
    {
      if name in inodes {
        return -1;
      }
      inodes := inodes[name := ino];
      code := 0;
    }

    method DeleteChildInode(name: Name) returns (code: int)
      modifies this, entries
      ensures entries == old(entries)
      ensures View() == Erased(old(View()), name)
      ensures code == if name in old(inodes) then 0 else -1
    {
      if name !in inodes {
        return -1;
      }
      inodes := inodes - {name};
      entries.DeleteChild(name);
      code := 0;
    }

    /** `None` is the `no_entry` exception of a LOCAL table. */
    method GetChildInode(name: Name) returns (r: Option<Uuid>)
      ensures r == if name in inodes then Some(inodes[name]) else None
    {
      if name !in inodes {
        return None;
      }
      r := Some(inodes[name]);
    }

    /** `check_child_inode` of a LOCAL table; "/" is the root. */
    method CheckChildInode(name: Name, root: Uuid) returns (r: Uuid)
      ensures r == if name == [0x2f] then root else if name in entries.childList then entries.childList[name] else NIL
    {
      if name == [0x2f] {
        return root;
      }
      r := if name in entries.childList then entries.childList[name] else NIL;
    }

    /** `pull_child_metadata`: the children of a loaded dentry, visited in any order, become the child inodes. */
    method PullChildMetadata(loaded: DirEntries)
      requires inodes == map[]
      modifies this
      ensures entries == loaded && View() == Table(loaded.childList, loaded.childList)
    {
      entries := loaded;
      var rest := entries.childList.Keys;
      while rest != {}
        invariant entries == loaded && rest <= loaded.childList.Keys
        invariant loaded.childList == old(loaded.childList)
        invariant inodes == loaded.childList - rest
      {
        var name :| name in rest;
        var _ := AddChildInode(name, entries.childList[name]);
        rest := rest - {name};
      }
    }
  }

  /** Names and inodes stay the same map. */
  lemma EditsKeepStep(t: Table, name: Name, ino: Uuid)
    requires t.children == t.inodes
    ensures Inserted(t, name, ino).children == Inserted(t, name, ino).inodes
    ensures Erased(t, name).children == Erased(t, name).inodes
    ensures name !in t.children ==> Erased(Inserted(t, name, ino), name) == t
    ensures name in t.children && t.children[name] == ino ==> Inserted(Erased(t, name), name, ino) == t
  {
    if name in t.children && t.children[name] == ino {
      assert (t.children - {name})[name := ino] == t.children;
    } else if name !in t.children {
      assert t.children[name := ino] - {name} == t.children;
    }
  }
}
