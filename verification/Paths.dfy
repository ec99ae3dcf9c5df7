/**
 * Path splitting and resolution: `set_name_bound`, `path_traversal`, `get_parent_dir_path`, `get_filename_from_path`.
 */
module Paths {
  import opened Bytes

  /** A path component. */
  predicate Component(c: string) { |c| > 0 && forall k :: 0 <= k < |c| ==> c[k] != '/' }

  predicate Components(cs: seq<string>) { forall i :: 0 <= i < |cs| ==> Component(cs[i]) }

  function Spell(cs: seq<string>): string {
    if cs == [] then "" else "/" + cs[0] + Spell(cs[1..])
  }

  /** The absolute path with these components. */
  function PathOf(cs: seq<string>): string {
    if cs == [] then "/" else Spell(cs)
  }

  // The tokenizer

  /** The first delimiter at or after `i`, or the end. */
  function NextSlash(path: string, i: nat): (r: nat)
    requires i <= |path|
    ensures i <= r <= |path|
    decreases |path| - i
  {
    if i == |path| || path[i] == '/' then i else NextSlash(path, i + 1)
  }

  /** `set_name_bound`: the next name is `path[start..end + 1]`; `more` is false for -1. */
  method SetNameBound(last: int, path: string) returns (more: bool, start: nat, end: int)
    requires last >= -1
    ensures start == last + 2
    ensures more <==> start < |path|
    ensures more ==> end + 1 == NextSlash(path, start)
  {
    start, end := last + 2, last;
    if start >= |path| {
      return false, start, end;
    }
    var i := start;
    while i < |path| && path[i] != '/'
      invariant start <= i <= |path| && NextSlash(path, start) == NextSlash(path, i)
    {
      i := i + 1;
    }
    more, end := true, i - 1;
  }

  /** The names found from position `start` on. */
  function Names(path: string, start: nat): seq<string>
    decreases |path| - start
  {
    if start >= |path| then []
    else
      var stop := NextSlash(path, start);
      [path[start..stop]] + Names(path, stop + 1)
  }

  lemma {:induction false} NextSlashIs(path: string, i: nat, r: nat)
    requires i <= r <= |path| && (r < |path| ==> path[r] == '/') && forall k :: i <= k < r ==> path[k] != '/'
    ensures NextSlash(path, i) == r
    decreases r - i
  {
    if i < r {
      NextSlashIs(path, i + 1, r);
    }
  }

  /** A component ends at the next delimiter or at the end of the path. */
  lemma NextName(before: string, c: string, after: string)
    requires Component(c) && (after == "" || after[0] == '/')
    ensures var path := before + c + after; var stop := |before| + |c|;
            NextSlash(path, |before|) == stop && path[|before|..stop] == c
  {
    var path, stop := before + c + after, |before| + |c|;
    assert forall k :: |before| <= k < stop ==> path[k] == c[k - |before|];
    NextSlashIs(path, |before|, stop);
  }

  lemma {:induction false} NamesFrom(path: string, before: string, cs: seq<string>)
    requires Components(cs) && cs != [] && path == before + cs[0] + Spell(cs[1..])
    ensures Names(path, |before|) == cs
    decreases |cs|
  {
    NamesStep(path, before, cs[0], Spell(cs[1..]));
    if |cs| > 1 {
      var next := before + cs[0] + "/";
      assert cs[1..][1..] == cs[2..];
      SpellNext(before + cs[0], cs[1], Spell(cs[2..]));
      NamesFrom(path, next, cs[1..]);
    }
  }

  lemma SpellNext(a: string, c: string, rest: string)
    ensures a + ("/" + c + rest) == a + "/" + c + rest
  {
  }

  lemma NamesStep(path: string, before: string, c: string, after: string)
    requires path == before + c + after && Component(c) && (after == "" || after[0] == '/')
    ensures Names(path, |before|) == [c] + Names(path, |before| + |c| + 1)
  {
    NextName(before, c, after);
  }

  /** The loop yields exactly the components of the path. */
  lemma NamesArePath(cs: seq<string>)
    requires Components(cs)
    ensures Names(PathOf(cs), 1) == cs
  {
    if cs != [] {
      NamesFrom(PathOf(cs), "/", cs);
    }
  }

  // Parent and file name

  /** `get_parent_dir_path`; `None` is one of its exceptions. */
  method GetParentDirPath(path: string) returns (r: Option<string>)
    ensures r == Parent(path)
  {
    if path == "" {
      return None;
    }
    var i := |path| - 1;
    while i > 0
      invariant 0 <= i < |path| && forall k :: i < k < |path| ==> path[k] != '/'
    {
      if path[i] == '/' {
        ParentAt(path, i);
        return Some(path[..i]);
      }
      i := i - 1;
    }
    ParentAt(path, 0);
    r := if path[0] == '/' then Some("/") else None;
  }

  /** The last delimiter, or -1. */
  function LastSlash(path: string): (r: int)
    ensures -1 <= r < |path| && (r >= 0 ==> path[r] == '/') && forall k :: r < k < |path| ==> path[k] != '/'
  {
    if path == "" then -1
    else if path[|path| - 1] == '/' then |path| - 1
    else LastSlash(path[..|path| - 1])
  }

  lemma LastSlashIs(path: string, i: int)
    requires -1 <= i < |path| && (i >= 0 ==> path[i] == '/') && forall k :: i < k < |path| ==> path[k] != '/'
    ensures LastSlash(path) == i
  {
  }

  function Parent(path: string): Option<string> {
    var i := LastSlash(path);
    if i > 0 then Some(path[..i]) else if i == 0 then Some("/") else None
  }

  function FileName(path: string): Option<string> {
    var i := LastSlash(path);
    if path == "/" then Some("/") else if i >= 0 then Some(path[i + 1..]) else None
  }

  lemma ParentAt(path: string, i: nat)
    requires i < |path| && forall k :: i < k < |path| ==> path[k] != '/'
    ensures path[i] == '/' ==> LastSlash(path) == i
    ensures i == 0 && path[0] != '/' ==> LastSlash(path) == -1
  {
    if path[i] == '/' {
      LastSlashIs(path, i);
    } else if i == 0 {
      LastSlashIs(path, -1);
    }
  }

  /** `get_filename_from_path`; `None` covers the empty path and a path without a delimiter, whose scan never ends. */
  method GetFilenameFromPath(path: string) returns (r: Option<string>)
    ensures r == FileName(path)
    ensures path == "/" ==> r == Some("/")
  {
    if path == "" {
      return None;
    }
    if |path| == 1 && path[0] == '/' {
      return Some(path);
    }
    var i := |path| - 1;
    while i >= 0
      invariant -1 <= i < |path| && forall k :: i < k < |path| ==> path[k] != '/'
    {
      if path[i] == '/' {
        LastSlashIs(path, i);
        return Some(path[i + 1..]);
      }
      i := i - 1;
    }
    LastSlashIs(path, -1);
    r := None;
  }

  /**
   * On every string: both answers exist if and only if there is a delimiter, the root is its own parent and its own
   * name, and otherwise the name is what follows the last delimiter and the parent what precedes it, or the root.
   */
  lemma SplitRejoins(path: string)
    ensures (Parent(path).None? <==> '/' !in path) && (FileName(path).None? <==> '/' !in path)
    ensures path == "/" ==> Parent(path) == Some("/") && FileName(path) == Some("/")
    ensures '/' in path && path != "/" ==>
              var parent, name := Parent(path).value, FileName(path).value;
              && '/' !in name
              && if '/' in path[1..] then path == parent + "/" + name else parent == "/" && path == "/" + name
  {
    var i := LastSlash(path);
    if i >= 0 {
      assert path == path[..i] + "/" + path[i + 1..];
      if i > 0 {
        assert path[1..][i - 1] == '/';
      }
    }
  }

  lemma {:induction false} SpellLast(cs: seq<string>)
    requires cs != []
    ensures Spell(cs) == Spell(cs[..|cs| - 1]) + "/" + cs[|cs| - 1]
  {
    if |cs| > 1 {
      SpellLast(cs[1..]);
      assert cs[1..][..|cs| - 2] == cs[..|cs| - 1][1..];
    }
  }

  lemma ParentIs(cs: seq<string>)
    requires Components(cs) && cs != []
    ensures Parent(PathOf(cs)) == Some(PathOf(cs[..|cs| - 1]))
    ensures FileName(PathOf(cs)) == Some(cs[|cs| - 1])
  {
    var front, name := Spell(cs[..|cs| - 1]), cs[|cs| - 1];
    SpellLast(cs);
    LastName(front, name);
  }

  /** The parent's components followed by the file name are the components of the path. */
  lemma ParentAndName(cs: seq<string>)
    requires Components(cs) && cs != []
    ensures Parent(PathOf(cs)) == Some(PathOf(cs[..|cs| - 1]))
    ensures FileName(PathOf(cs)) == Some(cs[|cs| - 1])
    ensures Names(Parent(PathOf(cs)).value, 1) + [FileName(PathOf(cs)).value] == Names(PathOf(cs), 1)
  {
    ParentIs(cs);
    NamesSplit(cs);
  }

  lemma NamesSplit(cs: seq<string>)
    requires Components(cs) && cs != []
    ensures Names(PathOf(cs[..|cs| - 1]), 1) + [cs[|cs| - 1]] == Names(PathOf(cs), 1)
  {
    NamesArePath(cs);
    FrontNames(cs[..|cs| - 1], cs);
  }

  lemma FrontNames(front: seq<string>, cs: seq<string>)
    requires Components(cs) && cs != [] && front == cs[..|cs| - 1]
    ensures Names(PathOf(front), 1) + [cs[|cs| - 1]] == cs
  {
    NamesArePath(front);
  }

  lemma LastName(front: string, name: string)
    requires Component(name)
    ensures var path := front + "/" + name;
            LastSlash(path) == |front| && path[..|front|] == front && path[|front| + 1..] == name && path != "/"
  {
    var path := front + "/" + name;
    assert path[|front|] == '/';
    assert forall k :: |front| < k < |path| ==> path[k] == name[k - |front| - 1];
    LastSlashIs(path, |front|);
  }

  // Resolution

  /** A child inode: its number and whether its mode says directory. */
  datatype Node = Node(ino: Uuid, isDir: bool)

  /** A LOCAL table; `open` says whether the directory's mode lets this client search it. */
  datatype Table = Table(children: map<string, Node>, open: bool)

  datatype Outcome = Found(node: Node) | NoEntry | Denied | NotLocal | NotDirectory

  /** What the loop does with the remaining names: a name that is not a directory leaves the table where it was. */
  function Walk(tables: map<Uuid, Table>, dir: Uuid, target: Node, names: seq<string>): Outcome
    decreases |names|
  {
    if names == [] then Found(target)
    else if dir !in tables then NotLocal
    else if names[0] !in tables[dir].children then NoEntry
    else
      var node := tables[dir].children[names[0]];
      if !node.isDir then Walk(tables, dir, node, names[1..])
      else if node.ino !in tables then NotLocal
      else if !tables[node.ino].open then Denied
      else Walk(tables, node.ino, node, names[1..])
  }

  /** Recursive lookup: only a directory has children. */
  function Resolve(tables: map<Uuid, Table>, at: Node, names: seq<string>): Outcome
    decreases |names|
  {
    if names == [] then Found(at)
    else if !at.isDir then NotDirectory
    else if at.ino !in tables then NotLocal
    else if names[0] !in tables[at.ino].children then NoEntry
    else
      var node := tables[at.ino].children[names[0]];
      if node.isDir && node.ino !in tables then NotLocal
      else if node.isDir && !tables[node.ino].open then Denied
      else Resolve(tables, node, names[1..])
  }

  /** The first `k + 1` names, one by one: the next is an entry of the directory that the first `k` lead to. */
  lemma {:induction false} EveryStepEntered(tables: map<Uuid, Table>, at: Node, names: seq<string>, k: nat)
    requires k < |names| && Resolve(tables, at, names).Found?
    ensures var front, next := Resolve(tables, at, names[..k]), Resolve(tables, at, names[..k + 1]);
            && front.Found? && front.node.isDir && front.node.ino in tables
            && names[k] in tables[front.node.ino].children
            && next == Found(tables[front.node.ino].children[names[k]])
            && (next.node.isDir ==> next.node.ino in tables && tables[next.node.ino].open)
    decreases |names|
  {
    var node := tables[at.ino].children[names[0]];
    assert names[..1] == [names[0]] && names[..1][1..] == [];
    assert names[..k + 1][0] == names[0] && names[..k + 1][1..] == names[1..][..k];
    if k > 0 {
      assert names[..k][0] == names[0] && names[..k][1..] == names[1..][..k - 1];
      EveryStepEntered(tables, node, names[1..], k - 1);
    } else {
      assert names[..0] == [];
    }
  }

  /** Where a lookup fails: at the first name that cannot be followed, for the reason that stands there. */
  lemma {:induction false} FirstFailure(tables: map<Uuid, Table>, at: Node, names: seq<string>) returns (k: nat)
    requires !Resolve(tables, at, names).Found?
    ensures k < |names| && Resolve(tables, at, names[..k]).Found?
    ensures var dir, r := Resolve(tables, at, names[..k]).node, Resolve(tables, at, names);
            && (r == NotDirectory <==> !dir.isDir)
            && (r == NoEntry <==> dir.isDir && dir.ino in tables && names[k] !in tables[dir.ino].children)
            && (r == Denied ==>
                  && dir.isDir && dir.ino in tables && names[k] in tables[dir.ino].children
                  && var next := tables[dir.ino].children[names[k]];
                     next.isDir && next.ino in tables && !tables[next.ino].open)
            && (r == NotLocal && dir.ino in tables ==>
                  && names[k] in tables[dir.ino].children
                  && var next := tables[dir.ino].children[names[k]]; next.isDir && next.ino !in tables)
    decreases |names|
  {
    k := 0;
    assert names[..0] == [];
    if at.isDir && at.ino in tables && names[0] in tables[at.ino].children {
      var node := tables[at.ino].children[names[0]];
      if Entered(tables, node) {
        var i := FirstFailure(tables, node, names[1..]);
        k := i + 1;
        assert names[..k][0] == names[0] && names[..k][1..] == names[1..][..i];
      }
    }
  }

  /** `path_traversal` over LOCAL tables. */
  method PathTraversal(tables: map<Uuid, Table>, root: Uuid, path: string) returns (r: Outcome)
    ensures r == Walk(tables, root, Node(root, true), Names(path, 1))
  {
    var dir, target, end := root, Node(root, true), -1;
    while true
      invariant end >= -1
      invariant Walk(tables, root, Node(root, true), Names(path, 1)) == Walk(tables, dir, target, Names(path, end + 2))
      decreases |path| - end
    {
      var more, start, stop := SetNameBound(end, path);
      if !more {
        return Found(target);
      }
      end := stop;
      var name := path[start..end + 1];
      if dir !in tables {
        return NotLocal;
      }
      if name !in tables[dir].children {
        return NoEntry;
      }
      target := tables[dir].children[name];
      if target.isDir {
        dir := target.ino;
        if dir !in tables {
          return NotLocal;
        }
        if !tables[dir].open {
          return Denied;
        }
      }
    }
  }

  /** The loop is recursive lookup, as long as that does not meet a file in the middle of the path. */
  lemma {:induction false} WalkResolves(tables: map<Uuid, Table>, at: Node, names: seq<string>)
    requires at.isDir
    ensures Walk(tables, at.ino, at, names) == Resolve(tables, at, names) <==>
            Resolve(tables, at, names) != NotDirectory
    decreases |names|
  {
    NeverNotDirectory(tables, at.ino, at, names);
    if names != [] && at.ino in tables && names[0] in tables[at.ino].children {
      var node := tables[at.ino].children[names[0]];
      if node.isDir {
        WalkResolves(tables, node, names[1..]);
      }
    }
  }

  lemma {:induction false} NeverNotDirectory(tables: map<Uuid, Table>, dir: Uuid, target: Node, names: seq<string>)
    ensures Walk(tables, dir, target, names) != NotDirectory
    decreases |names|
  {
    if names != [] && dir in tables && names[0] in tables[dir].children {
      var node := tables[dir].children[names[0]];
      NeverNotDirectory(tables, if node.isDir then node.ino else dir, node, names[1..]);
    }
  }

  /** The first `k` names lead to something that is not a directory. */
  predicate FileAt(tables: map<Uuid, Table>, at: Node, names: seq<string>, k: nat)
    requires k <= |names|
  {
    var r := Resolve(tables, at, names[..k]);
    r.Found? && !r.node.isDir
  }

  /** A file stands in the middle of a path exactly when some proper prefix of it leads to a file. */
  lemma {:induction false} NotDirectoryIff(tables: map<Uuid, Table>, at: Node, names: seq<string>)
    ensures Resolve(tables, at, names) == NotDirectory <==> exists k :: 0 <= k < |names| && FileAt(tables, at, names, k)
    decreases |names|
  {
    if names != [] && !at.isDir {
      assert names[..0] == [] && FileAt(tables, at, names, 0);
    } else if names != [] {
      assert names[..0] == [] && !FileAt(tables, at, names, 0);
      if at.ino in tables && names[0] in tables[at.ino].children {
        var node := tables[at.ino].children[names[0]];
        NotDirectoryIff(tables, node, names[1..]);
        forall k | 1 <= k < |names|
          ensures FileAt(tables, at, names, k) <==> Entered(tables, node) && FileAt(tables, node, names[1..], k - 1)
        {
          PrefixStep(tables, at, names, k);
        }
        if Resolve(tables, at, names) == NotDirectory {
          var k :| 0 <= k < |names[1..]| && FileAt(tables, node, names[1..], k);
          assert FileAt(tables, at, names, k + 1);
        } else if exists k :: 0 <= k < |names| && FileAt(tables, at, names, k) {
          var k :| 0 <= k < |names| && FileAt(tables, at, names, k);
          assert FileAt(tables, node, names[1..], k - 1);
        }
      } else {
        forall k | 1 <= k < |names|
          ensures !FileAt(tables, at, names, k)
        {
          assert names[..k][0] == names[0];
        }
      }
    }
  }

  /** A child that is no directory, or one that this client has and may search. */
  predicate Entered(tables: map<Uuid, Table>, node: Node) {
    node.isDir ==> node.ino in tables && tables[node.ino].open
  }

  /** A prefix of a path from a directory is a prefix of the rest of the path from its first child. */
  lemma PrefixStep(tables: map<Uuid, Table>, at: Node, names: seq<string>, k: nat)
    requires 1 <= k <= |names| && at.isDir && at.ino in tables && names[0] in tables[at.ino].children
    ensures var node := tables[at.ino].children[names[0]]; var r := Resolve(tables, at, names[..k]);
            if Entered(tables, node) then r == Resolve(tables, node, names[1..][..k - 1]) else !r.Found?
  {
    assert names[..k][0] == names[0] && names[..k][1..] == names[1..][..k - 1];
  }

  /**
   * `path_traversal` of the path with components `cs` is recursive lookup of `cs` if and only if no proper prefix of
   * `cs` leads to a file.
   */
  lemma TraversalResolves(tables: map<Uuid, Table>, root: Uuid, cs: seq<string>)
    requires Components(cs)
    ensures var top := Node(root, true);
            Walk(tables, root, top, Names(PathOf(cs), 1)) == Resolve(tables, top, cs) <==>
            forall k :: 0 <= k < |cs| ==> !FileAt(tables, top, cs, k)
  {
    NamesArePath(cs);
    WalkResolves(tables, Node(root, true), cs);
    NotDirectoryIff(tables, Node(root, true), cs);
  }

  /** With a file in the middle, the next name is looked up beside that file. */
  lemma FileInTheMiddle(root: Uuid, f: Uuid, g: Uuid)
    ensures var tables := map[root := Table(map["f" := Node(f, false), "g" := Node(g, false)], true)];
            && Resolve(tables, Node(root, true), ["f", "g"]) == NotDirectory
            && Walk(tables, root, Node(root, true), Names("/f/g", 1)) == Found(Node(g, false))
  {
    var cs := ["f", "g"];
    assert PathOf(cs) == "/f/g" by {
      assert cs[1..] == ["g"] && ["g"][1..] == [];
      assert Spell(["g"]) == "/g";
    }
    NamesArePath(cs);
    assert cs[1..] == ["g"] && ["g"][1..] == [];
  }
}
