/**
 * A rename looks its old name up in one critical section and acts in another. When the old name no longer stands for
 * the inode found, the rename goes ahead all the same: it meets a `logic_error`, or leaves one inode with two names.
 */
module StaleRename {
  import opened Bytes
  import opened Transactions
  import opened DentryTables
  import opened Stages
  import opened Lanes
  import opened WriteBack
  import opened WriteBackRuns
  import Batching
  import J = JournalRuns

  // A run in which it throws

  lemma RunGrows(worlds: seq<World>, steps: seq<Step>, step: Step, w: World)
    requires Run(worlds, steps) && Enabled(worlds[|steps|], step) && Take(worlds[|steps|], step) == w
    ensures Run(worlds + [w], steps + [step])
  {
    LinkGrows(worlds, steps, step, w);
  }

  lemma LinkGrows(worlds: seq<World>, steps: seq<Step>, step: Step, w: World)
    requires Run(worlds, steps) && Follows(worlds[|steps|], step, w)
    ensures Run(worlds + [w], steps + [step])
  {
  }

  /** An edit, spelt out. */
  lemma EditIs(w: World, d: Uuid, op: Op, rest: seq<Op>, j': J.State, tables: map<Uuid, Table>)
    requires d in w.busy && w.busy[d].call.None? && w.busy[d].todo != [] && w.busy[d].todo[0] == op
    requires w.busy[d].todo[1..] == rest && !op.MkSelf?
    requires j' == J.Take(w.j, J.Start(d, op)) && tables == EditTable(w.tables, d, op)
    ensures Enabled(w, Edit(d))
    ensures Take(w, Edit(d)) ==
            w.(j := j', tables := tables, busy := w.busy[d := Task(rest, Some(|w.j.calls|), TableOf(w, d))])
  {
  }

  /** Directory `r` with one file, `f`, under the name `a`; a rename of `a` to `b` races with an operation on `a`. */
  datatype Race = Race(r: Uuid, a: Name, b: Name, f: Inode, self: Inode)

  predicate Apt(x: Race) {
    x.a != x.b && x.self.attrs.ino == x.r && x.f.attrs.ino != x.r
  }

  function Names0(x: Race): map<Name, Uuid> { map[x.a := x.f.attrs.ino] }

  function Remove(x: Race): Op { RmReg(x.self, x.a, x.f) }

  function Enter(x: Race, name: Name): Op { MkReg(x.self, name, x.f) }

  function Renaming(x: Race, name: Name): FileOp { Rename(x.self, x.a, name, x.f, x.f) }

  function Journal0(x: Race): J.State {
    J.State(START, [], [], map[], map[], map[], {}, 0, map[x.r := Durable(Some(Names0(x)), None, map[])])
  }

  /** The rename has looked `a` up, and the journal stands as given. */
  function Found(x: Race, j: J.State, m: map<Name, Uuid>, busy: map<Uuid, Task>, rough: set<Uuid>): World {
    World(j, map[x.r := Table(m, m)], busy, {x.r}, map[x.r := Names0(x)], map[], {Look(x.r, x.a, x.f.attrs.ino)}, rough)
  }

  /** The mutex holder of `r` with its plan, waiting for a call or not. */
  function Holder(x: Race, todo: seq<Op>, call: Option<nat>, before: Names): map<Uuid, Task> {
    map[x.r := Task(todo, call, before)]
  }

  lemma LookedUp(x: Race) returns (worlds: seq<World>, steps: seq<Step>)
    ensures Run(worlds, steps) && worlds[|steps|] == Found(x, Journal0(x), Names0(x), map[], {})
  {
    var w0 := World(Journal0(x), map[], map[], {}, map[], map[], {}, {});
    var w2 := Found(x, Journal0(x), Names0(x), map[], {});
    var w1 := w2.(looks := {});
    worlds, steps := [w0], [];
    RunGrows(worlds, steps, Load(x.r), w1);
    worlds, steps := worlds + [w1], steps + [Load(x.r)];
    RunGrows(worlds, steps, Find(x.r, x.a), w2);
    worlds, steps := worlds + [w2], steps + [Find(x.r, x.a)];
  }

  function FirstCall(x: Race): J.Call { J.Call(x.r, Remove(x), {}, 0) }

  /** The journal while the first removal's call is in progress. */
  function Removing(x: Race, pc: J.Pc): J.State {
    Journal0(x).(calls := [FirstCall(x)], pcs := map[0 := pc], retries := map[0 := 0])
  }

  /** Another operation that begins by removing `a` takes the mutex, edits the table and makes its journal call. */
  lemma OtherBegun(x: Race, op: FileOp, rest: seq<Op>) returns (worlds: seq<World>, steps: seq<Step>)
    requires Apt(x) && AllAddressed(x.r, [Remove(x)] + rest) && Plan(Names0(x), op) == Some([Remove(x)] + rest)
    requires LawfulAll(Some(Names0(x)), [Remove(x)] + rest) && !op.MakeDir?
    requires forall w :: w == Found(x, Journal0(x), Names0(x), map[], {}) ==> Proper(w, x.r, op)
    ensures Run(worlds, steps)
    ensures worlds[|steps|] == Found(x, Removing(x, J.Lookup), map[], Holder(x, rest, Some(0), Some(Names0(x))), {})
  {
    worlds, steps := LookedUp(x);
    var plan := [Remove(x)] + rest;
    var w3 := Found(x, Journal0(x), Names0(x), Holder(x, plan, None, None), {});
    var w4 := Found(x, Removing(x, J.Lookup), map[], Holder(x, rest, Some(0), Some(Names0(x))), {});
    RunGrows(worlds, steps, Begin(x.r, op), w3);
    worlds, steps := worlds + [w3], steps + [Begin(x.r, op)];
    assert plan[0] == Remove(x) && plan[1..] == rest;
    assert Names0(x) - {x.a} == map[] && Journal0(x).pos.Keys == {};
    EditIs(worlds[|steps|], x.r, Remove(x), rest, Removing(x, J.Lookup), map[x.r := Table(map[], map[])]);
    RunGrows(worlds, steps, Edit(x.r), w4);
    worlds, steps := worlds + [w4], steps + [Edit(x.r)];
  }

  function OneLive(x: Race): Line { START.(dirs := [x.r], live := map[x.r := 0]) }

  /** The journal once the first removal's call holds the only transaction. */
  function EnteredIn(x: Race): J.State {
    Removing(x, J.Has(0, 0)).(line := OneLive(x), txs := [J.Rec(false, EMPTY, [])])
  }

  /** The journal once the removal is recorded there. */
  function RemovedIn(x: Race): J.State {
    Removing(x, J.Lookup).(line := OneLive(x), txs := [J.Rec(false, Record(EMPTY, Remove(x)), [0])],
                           pcs := map[], pos := map[0 := (0, 0)])
  }

  lemma OtherEntered(x: Race, op: FileOp, rest: seq<Op>) returns (worlds: seq<World>, steps: seq<Step>)
    requires Apt(x) && AllAddressed(x.r, [Remove(x)] + rest) && Plan(Names0(x), op) == Some([Remove(x)] + rest)
    requires LawfulAll(Some(Names0(x)), [Remove(x)] + rest) && !op.MakeDir?
    requires forall w :: w == Found(x, Journal0(x), Names0(x), map[], {}) ==> Proper(w, x.r, op)
    ensures Run(worlds, steps)
    ensures worlds[|steps|] == Found(x, EnteredIn(x), map[], Holder(x, rest, Some(0), Some(Names0(x))), {})
  {
    worlds, steps := OtherBegun(x, op, rest);
    var busy := Holder(x, rest, Some(0), Some(Names0(x)));
    var j5, j6 := Removing(x, J.Missed), EnteredIn(x);
    RunGrows(worlds, steps, Journal(J.Miss(0)), Found(x, j5, map[], busy, {}));
    worlds, steps := worlds + [Found(x, j5, map[], busy, {})], steps + [Journal(J.Miss(0))];
    assert J.Created(j5, 0) == j6;
    RunGrows(worlds, steps, Journal(J.Enter(0)), Found(x, j6, map[], busy, {}));
    worlds, steps := worlds + [Found(x, j6, map[], busy, {})], steps + [Journal(J.Enter(0))];
  }

  lemma OtherLogged(x: Race)
    ensures J.Holding(EnteredIn(x), 0) && !J.Throws(EnteredIn(x), 0) && J.Logged(EnteredIn(x), 0) == RemovedIn(x)
  {
    var j := EnteredIn(x);
    assert j.pcs - {0} == map[];
    assert j.txs[0].log + [0] == [0];
  }

  lemma OtherRecorded(x: Race, op: FileOp, rest: seq<Op>) returns (worlds: seq<World>, steps: seq<Step>)
    requires Apt(x) && AllAddressed(x.r, [Remove(x)] + rest) && Plan(Names0(x), op) == Some([Remove(x)] + rest)
    requires LawfulAll(Some(Names0(x)), [Remove(x)] + rest) && !op.MakeDir?
    requires forall w :: w == Found(x, Journal0(x), Names0(x), map[], {}) ==> Proper(w, x.r, op)
    ensures Run(worlds, steps)
    ensures worlds[|steps|] == Found(x, RemovedIn(x), map[], Holder(x, rest, None, Some(Names0(x))), {})
  {
    worlds, steps := OtherEntered(x, op, rest);
    var w7 := Found(x, RemovedIn(x), map[], Holder(x, rest, None, Some(Names0(x))), {});
    OtherLogged(x);
    RunGrows(worlds, steps, Journal(J.Log(0)), w7);
    worlds, steps := worlds + [w7], steps + [Journal(J.Log(0))];
  }

  lemma Unlinked(x: Race) returns (worlds: seq<World>, steps: seq<Step>)
    requires Apt(x)
    ensures Run(worlds, steps)
    ensures worlds[|steps|] == Found(x, RemovedIn(x), map[], Holder(x, [], None, Some(Names0(x))), {})
  {
    var plan := [Remove(x)] + [];
    assert plan == [Remove(x)] && plan[1..] == [] && LawfulAll(Some(Names0(x)), plan);
    worlds, steps := OtherRecorded(x, Unlink(x.self, x.a, x.f), []);
  }

  lemma RenameBegun(x: Race) returns (worlds: seq<World>, steps: seq<Step>)
    requires Apt(x)
    ensures Run(worlds, steps)
    ensures worlds[|steps|] == Found(x, RemovedIn(x), map[], Holder(x, [Remove(x), Enter(x, x.b)], None, None), {x.r})
  {
    worlds, steps := Unlinked(x);
    var plan := [Remove(x), Enter(x, x.b)];
    var w8 := Found(x, RemovedIn(x), map[], map[], {});
    var w9 := Found(x, RemovedIn(x), map[], Holder(x, plan, None, None), {x.r});
    assert Holder(x, [], None, Some(Names0(x))) - {x.r} == map[];
    RunGrows(worlds, steps, Release(x.r), w8);
    worlds, steps := worlds + [w8], steps + [Release(x.r)];
    assert !LawfulAll(Some(map[]), plan);
    RunGrows(worlds, steps, Begin(x.r, Renaming(x, x.b)), w9);
    worlds, steps := worlds + [w9], steps + [Begin(x.r, Renaming(x, x.b))];
  }

  /** The journal while the rename's first call is in progress. */
  function Again(x: Race, pc: J.Pc): J.State {
    RemovedIn(x).(calls := [FirstCall(x), J.Call(x.r, Remove(x), {0}, 0)], pcs := map[1 := pc],
                  retries := map[0 := 0, 1 := 0])
  }

  lemma RenameEdited(x: Race) returns (worlds: seq<World>, steps: seq<Step>)
    requires Apt(x)
    ensures Run(worlds, steps)
    ensures worlds[|steps|] ==
            Found(x, Again(x, J.Lookup), map[], Holder(x, [Enter(x, x.b)], Some(1), Some(map[])), {x.r})
  {
    worlds, steps := RenameBegun(x);
    var w := Found(x, Again(x, J.Lookup), map[], Holder(x, [Enter(x, x.b)], Some(1), Some(map[])), {x.r});
    assert [Remove(x), Enter(x, x.b)][1..] == [Enter(x, x.b)] && RemovedIn(x).pos.Keys == {0};
    EditIs(worlds[|steps|], x.r, Remove(x), [Enter(x, x.b)], Again(x, J.Lookup), map[x.r := Table(map[], map[])]);
    RunGrows(worlds, steps, Edit(x.r), w);
    worlds, steps := worlds + [w], steps + [Edit(x.r)];
  }

  /**
   * Rename against unlink: there is a run in which the rename's first journal call can only throw. The name was in
   * place when the rename looked it up, and is gone when it takes the mutex again. The mutex is then free.
   */
  lemma RenameThrows(x: Race) returns (worlds: seq<World>, steps: seq<Step>)
    requires Apt(x)
    ensures Run(worlds, steps)
    ensures var w := worlds[|steps|];
            && J.Holding(w.j, 1) && !w.j.txs[w.j.pcs[1].tx].committed && w.j.calls[1].op == Remove(x)
            && J.Throws(w.j, 1) && x.r !in Take(w, Journal(J.Log(1))).busy
  {
    worlds, steps := RenameEdited(x);
    var w := worlds[|steps|].(j := Again(x, J.Has(0, 0)));
    RunGrows(worlds, steps, Journal(J.Find(1)), w);
    worlds, steps := worlds + [w], steps + [Journal(J.Find(1))];
  }

  // What it leaves behind when it does not

  function EffectAll(m: Names, ops: seq<Op>): Names
    decreases |ops|
  {
    if ops == [] then m else EffectAll(Effect(m, ops[0]), ops[1..])
  }

  lemma RenameEffect(m: map<Name, Uuid>, op: FileOp)
    requires op.Rename?
    ensures EffectAll(Some(m), Plan(m, op).value) == Some((m - {op.newName, op.name})[op.newName := op.f.attrs.ino])
  {
    var rm, mk := RmReg(op.self, op.name, op.f), MkReg(op.self, op.newName, op.f);
    var m1 := m - {op.newName};
    assert [rm, mk][1..] == [mk] && [mk][1..] == [];
    assert EffectAll(Some(m1 - {op.name}), [mk]) == Effect(Some(m1 - {op.name}), mk);
    assert EffectAll(Some(m1), [rm, mk]) == EffectAll(Some(m1 - {op.name}), [mk]);
    assert m1 - {op.name} == m - {op.newName, op.name};
    if op.newName in m {
      var plan := [RmReg(op.self, op.newName, op.replaced)] + [rm, mk];
      assert plan[0] == RmReg(op.self, op.newName, op.replaced) && plan[1..] == [rm, mk];
    } else {
      assert m1 == m;
    }
  }

  /** A rename leaves one name for each inode if and only if its inode has no third name when it takes the mutex. */
  lemma RenameInjectiveIff(m: map<Name, Uuid>, op: FileOp)
    requires op.Rename? && Injective(Some(m))
    ensures Injective(EffectAll(Some(m), Plan(m, op).value)) <==> op.f.attrs.ino !in (m - {op.newName, op.name}).Values
  {
    RenameEffect(m, op);
    var rest := m - {op.newName, op.name};
    var after := rest[op.newName := op.f.attrs.ino];
    if op.f.attrs.ino in rest.Values {
      var n :| n in rest && rest[n] == op.f.attrs.ino;
      assert after[n] == after[op.newName] && n != op.newName;
    }
  }

  // A run in which it leaves two names

  /** The file under its new name. */
  function Under(x: Race, c: Name): map<Name, Uuid> { map[c := x.f.attrs.ino] }

  function MovedTx(x: Race, c: Name): Tx { Record(Record(EMPTY, Remove(x)), Enter(x, c)) }

  function TwoCalls(x: Race, c: Name): seq<J.Call> { [FirstCall(x), J.Call(x.r, Enter(x, c), {0}, 0)] }

  /** The journal while the other rename's second call is in progress. */
  function Entering(x: Race, c: Name, pc: J.Pc): J.State {
    RemovedIn(x).(calls := TwoCalls(x, c), pcs := map[1 := pc], retries := map[0 := 0, 1 := 0])
  }

  /** The journal once the other rename is recorded. */
  function MovedIn(x: Race, c: Name): J.State {
    Entering(x, c, J.Lookup).(txs := [J.Rec(false, MovedTx(x, c), [0, 1])], pcs := map[],
                              pos := map[0 := (0, 0), 1 := (0, 1)])
  }

  lemma MoveRecorded(x: Race, c: Name) returns (worlds: seq<World>, steps: seq<Step>)
    requires Apt(x) && c != x.a
    ensures Run(worlds, steps)
    ensures worlds[|steps|] == Found(x, RemovedIn(x), map[], Holder(x, [Enter(x, c)], None, Some(Names0(x))), {})
  {
    var plan := [Remove(x)] + [Enter(x, c)];
    assert plan == [Remove(x), Enter(x, c)] && plan[1..] == [Enter(x, c)] && plan[1..][1..] == [];
    assert Names0(x) - {x.a} == map[];
    assert LawfulAll(Some(map[]), [Enter(x, c)]);
    assert WritersOf(Journal0(x), x.r) == {};
    worlds, steps := OtherRecorded(x, Renaming(x, c), [Enter(x, c)]);
  }

  lemma MoveEdited(x: Race, c: Name) returns (worlds: seq<World>, steps: seq<Step>)
    requires Apt(x) && c != x.a
    ensures Run(worlds, steps)
    ensures worlds[|steps|] == Found(x, Entering(x, c, J.Lookup), Under(x, c), Holder(x, [], Some(1), Some(map[])), {})
  {
    worlds, steps := MoveRecorded(x, c);
    var w1 := Found(x, Entering(x, c, J.Lookup), Under(x, c), Holder(x, [], Some(1), Some(map[])), {});
    assert [Enter(x, c)][1..] == [] && RemovedIn(x).pos.Keys == {0};
    EditIs(worlds[|steps|], x.r, Enter(x, c), [], Entering(x, c, J.Lookup),
           map[x.r := Table(Under(x, c), Under(x, c))]);
    RunGrows(worlds, steps, Edit(x.r), w1);
    worlds, steps := worlds + [w1], steps + [Edit(x.r)];
  }

  lemma MoveEntered(x: Race, c: Name) returns (worlds: seq<World>, steps: seq<Step>)
    requires Apt(x) && c != x.a
    ensures Run(worlds, steps)
    ensures worlds[|steps|] ==
            Found(x, Entering(x, c, J.Has(0, 0)), Under(x, c), Holder(x, [], Some(1), Some(map[])), {})
  {
    worlds, steps := MoveEdited(x, c);
    var w2 := Found(x, Entering(x, c, J.Has(0, 0)), Under(x, c), Holder(x, [], Some(1), Some(map[])), {});
    RunGrows(worlds, steps, Journal(J.Find(1)), w2);
    worlds, steps := worlds + [w2], steps + [Journal(J.Find(1))];
  }

  lemma MoveLogged(x: Race, c: Name)
    requires c != x.a
    ensures var j := Entering(x, c, J.Has(0, 0)); J.Holding(j, 1) && !J.Throws(j, 1) && J.Logged(j, 1) == MovedIn(x, c)
  {
    var j := Entering(x, c, J.Has(0, 0));
    assert j.pcs - {1} == map[];
    assert j.txs[0].log + [1] == [0, 1];
  }

  lemma MoveDone(x: Race, c: Name) returns (worlds: seq<World>, steps: seq<Step>)
    requires Apt(x) && c != x.a
    ensures Run(worlds, steps) && worlds[|steps|] == Found(x, MovedIn(x, c), Under(x, c), map[], {})
  {
    worlds, steps := MoveEntered(x, c);
    var w1 := Found(x, MovedIn(x, c), Under(x, c), Holder(x, [], None, Some(map[])), {});
    var w2 := Found(x, MovedIn(x, c), Under(x, c), map[], {});
    MoveLogged(x, c);
    RunGrows(worlds, steps, Journal(J.Log(1)), w1);
    worlds, steps := worlds + [w1], steps + [Journal(J.Log(1))];
    assert Holder(x, [], None, Some(map[])) - {x.r} == map[];
    RunGrows(worlds, steps, Release(x.r), w2);
    worlds, steps := worlds + [w2], steps + [Release(x.r)];
  }

  /** The journal after the commit thread has swapped the map. */
  function SwappedOut(x: Race, c: Name): J.State {
    MovedIn(x, c).(line := START.(dirs := [x.r], batch := map[x.r := 0]), swaps := 1)
  }

  lemma StaleBegun(x: Race, c: Name) returns (worlds: seq<World>, steps: seq<Step>)
    requires Apt(x) && c != x.a && c != x.b
    ensures Run(worlds, steps)
    ensures var plan := [Remove(x), Enter(x, x.b)];
            worlds[|steps|] == Found(x, SwappedOut(x, c), Under(x, c), Holder(x, plan, None, None), {x.r})
  {
    worlds, steps := MoveDone(x, c);
    var plan := [Remove(x), Enter(x, x.b)];
    var w1 := Found(x, SwappedOut(x, c), Under(x, c), map[], {});
    var w2 := Found(x, SwappedOut(x, c), Under(x, c), Holder(x, plan, None, None), {x.r});
    RunGrows(worlds, steps, Journal(J.Station(Swap)), w1);
    worlds, steps := worlds + [w1], steps + [Journal(J.Station(Swap))];
    assert !LawfulAll(Some(Under(x, c)), plan);
    RunGrows(worlds, steps, Begin(x.r, Renaming(x, x.b)), w2);
    worlds, steps := worlds + [w2], steps + [Begin(x.r, Renaming(x, x.b))];
  }

  /** The journal while the stale rename's first call is in progress. */
  function StaleCall(x: Race, c: Name, pc: J.Pc): J.State {
    SwappedOut(x, c).(calls := TwoCalls(x, c) + [J.Call(x.r, Remove(x), {0, 1}, 1)], pcs := map[2 := pc],
                      retries := map[0 := 0, 1 := 0, 2 := 0])
  }

  function SecondLive(x: Race): Line { START.(dirs := [x.r, x.r], live := map[x.r := 1], batch := map[x.r := 0]) }

  /** It holds a new transaction. */
  function StaleHeld(x: Race, c: Name): J.State {
    StaleCall(x, c, J.Has(1, 1)).(line := SecondLive(x),
                                  txs := [J.Rec(false, MovedTx(x, c), [0, 1]), J.Rec(false, EMPTY, [])])
  }

  lemma StaleStarts(x: Race, c: Name)
    requires c != x.a
    ensures J.Take(SwappedOut(x, c), J.Start(x.r, Remove(x))) == StaleCall(x, c, J.Lookup)
    ensures EditTable(map[x.r := Table(Under(x, c), Under(x, c))], x.r, Remove(x)) ==
            map[x.r := Table(Under(x, c), Under(x, c))]
  {
    assert MovedIn(x, c).pos.Keys == {0, 1};
  }

  lemma StaleEdited(x: Race, c: Name) returns (worlds: seq<World>, steps: seq<Step>)
    requires Apt(x) && c != x.a && c != x.b
    ensures Run(worlds, steps)
    ensures var busy := Holder(x, [Enter(x, x.b)], Some(2), Some(Under(x, c)));
            worlds[|steps|] == Found(x, StaleCall(x, c, J.Lookup), Under(x, c), busy, {x.r})
  {
    worlds, steps := StaleBegun(x, c);
    var busy := Holder(x, [Enter(x, x.b)], Some(2), Some(Under(x, c)));
    var w1 := Found(x, StaleCall(x, c, J.Lookup), Under(x, c), busy, {x.r});
    StaleStarts(x, c);
    EditIs(worlds[|steps|], x.r, Remove(x), [Enter(x, x.b)], StaleCall(x, c, J.Lookup),
           map[x.r := Table(Under(x, c), Under(x, c))]);
    RunGrows(worlds, steps, Edit(x.r), w1);
    worlds, steps := worlds + [w1], steps + [Edit(x.r)];
  }

  lemma StaleMissed(x: Race, c: Name) returns (worlds: seq<World>, steps: seq<Step>)
    requires Apt(x) && c != x.a && c != x.b
    ensures Run(worlds, steps)
    ensures var busy := Holder(x, [Enter(x, x.b)], Some(2), Some(Under(x, c)));
            worlds[|steps|] == Found(x, StaleCall(x, c, J.Missed), Under(x, c), busy, {x.r})
  {
    worlds, steps := StaleEdited(x, c);
    var w2 := worlds[|steps|].(j := StaleCall(x, c, J.Missed));
    RunGrows(worlds, steps, Journal(J.Miss(2)), w2);
    worlds, steps := worlds + [w2], steps + [Journal(J.Miss(2))];
  }

  /** The journal once the stale removal is recorded in the new transaction. */
  function StaleRemoved(x: Race, c: Name): J.State {
    StaleHeld(x, c).(txs := [J.Rec(false, MovedTx(x, c), [0, 1]), J.Rec(false, Record(EMPTY, Remove(x)), [2])],
                     pcs := map[], pos := map[0 := (0, 0), 1 := (0, 1), 2 := (1, 0)])
  }

  lemma StaleLogged(x: Race, c: Name)
    ensures var j := StaleHeld(x, c); J.Holding(j, 2) && !J.Throws(j, 2) && J.Logged(j, 2) == StaleRemoved(x, c)
  {
    var j := StaleHeld(x, c);
    assert j.pcs - {2} == map[];
    assert j.txs[1].log + [2] == [2];
  }

  lemma StaleEntered(x: Race, c: Name) returns (worlds: seq<World>, steps: seq<Step>)
    requires Apt(x) && c != x.a && c != x.b
    ensures Run(worlds, steps)
    ensures var busy := Holder(x, [Enter(x, x.b)], Some(2), Some(Under(x, c)));
            worlds[|steps|] == Found(x, StaleHeld(x, c), Under(x, c), busy, {x.r})
  {
    worlds, steps := StaleMissed(x, c);
    var w1 := worlds[|steps|].(j := StaleHeld(x, c));
    assert J.Created(StaleCall(x, c, J.Missed), 2) == StaleHeld(x, c);
    RunGrows(worlds, steps, Journal(J.Enter(2)), w1);
    worlds, steps := worlds + [w1], steps + [Journal(J.Enter(2))];
  }

  lemma StaleRecorded(x: Race, c: Name) returns (worlds: seq<World>, steps: seq<Step>)
    requires Apt(x) && c != x.a && c != x.b
    ensures Run(worlds, steps)
    ensures var busy := Holder(x, [Enter(x, x.b)], None, Some(Under(x, c)));
            worlds[|steps|] == Found(x, StaleRemoved(x, c), Under(x, c), busy, {x.r})
  {
    worlds, steps := StaleEntered(x, c);
    var w2 := Found(x, StaleRemoved(x, c), Under(x, c), Holder(x, [Enter(x, x.b)], None, Some(Under(x, c))), {x.r});
    StaleLogged(x, c);
    RunGrows(worlds, steps, Journal(J.Log(2)), w2);
    worlds, steps := worlds + [w2], steps + [Journal(J.Log(2))];
  }

  /** The journal while its second call is in progress. */
  function StaleEnter(x: Race, c: Name, pc: J.Pc): J.State {
    StaleRemoved(x, c).(calls := StaleHeld(x, c).calls + [J.Call(x.r, Enter(x, x.b), {0, 1, 2}, 1)],
                        pcs := map[3 := pc],
                        retries := map[0 := 0, 1 := 0, 2 := 0, 3 := 0])
  }

  function TwoNamed(x: Race, c: Name): map<Name, Uuid> { map[c := x.f.attrs.ino, x.b := x.f.attrs.ino] }

  lemma StaleEnters(x: Race, c: Name)
    requires c != x.b
    ensures J.Take(StaleRemoved(x, c), J.Start(x.r, Enter(x, x.b))) == StaleEnter(x, c, J.Lookup)
    ensures EditTable(map[x.r := Table(Under(x, c), Under(x, c))], x.r, Enter(x, x.b)) ==
            map[x.r := Table(TwoNamed(x, c), TwoNamed(x, c))]
  {
    assert StaleRemoved(x, c).pos.Keys == {0, 1, 2};
    assert Under(x, c)[x.b := x.f.attrs.ino] == TwoNamed(x, c);
  }

  lemma StaleEditing(x: Race, c: Name) returns (worlds: seq<World>, steps: seq<Step>)
    requires Apt(x) && c != x.a && c != x.b
    ensures Run(worlds, steps)
    ensures var busy := Holder(x, [], Some(3), Some(Under(x, c)));
            worlds[|steps|] == Found(x, StaleEnter(x, c, J.Lookup), TwoNamed(x, c), busy, {x.r})
  {
    worlds, steps := StaleRecorded(x, c);
    var w1 := Found(x, StaleEnter(x, c, J.Lookup), TwoNamed(x, c), Holder(x, [], Some(3), Some(Under(x, c))), {x.r});
    StaleEnters(x, c);
    EditIs(worlds[|steps|], x.r, Enter(x, x.b), [], StaleEnter(x, c, J.Lookup),
           map[x.r := Table(TwoNamed(x, c), TwoNamed(x, c))]);
    RunGrows(worlds, steps, Edit(x.r), w1);
    worlds, steps := worlds + [w1], steps + [Edit(x.r)];
  }

  lemma StaleEntering(x: Race, c: Name) returns (worlds: seq<World>, steps: seq<Step>)
    requires Apt(x) && c != x.a && c != x.b
    ensures Run(worlds, steps)
    ensures var busy := Holder(x, [], Some(3), Some(Under(x, c)));
            worlds[|steps|] == Found(x, StaleEnter(x, c, J.Has(1, 1)), TwoNamed(x, c), busy, {x.r})
  {
    worlds, steps := StaleEditing(x, c);
    var w2 := worlds[|steps|].(j := StaleEnter(x, c, J.Has(1, 1)));
    RunGrows(worlds, steps, Journal(J.Find(3)), w2);
    worlds, steps := worlds + [w2], steps + [Journal(J.Find(3))];
  }

  /** The stale rename's last call has nothing to throw for. */
  lemma StaleEnds(x: Race, c: Name)
    requires c != x.b && x.a != x.b
    ensures var j := StaleEnter(x, c, J.Has(1, 1));
            J.Holding(j, 3) && !J.Throws(j, 3) && J.Logged(j, 3).pcs == map[] && J.Logged(j, 3).threw == {}
  {
    assert StaleEnter(x, c, J.Has(1, 1)).pcs - {3} == map[];
  }

  /**
   * Rename against rename: `a` was moved to `c` in the meantime, and a commit swapped that out of the live map. There
   * is a run in which nothing throws, every call is recorded, and the file ends up under both `b` and `c`.
   */
  lemma TwoNames(x: Race, c: Name) returns (worlds: seq<World>, steps: seq<Step>)
    requires Apt(x) && c != x.a && c != x.b
    ensures Run(worlds, steps)
    ensures var w := worlds[|steps|];
            && w.j.threw == {} && w.j.pcs == map[] && x.r in w.tables
            && w.tables[x.r].children == map[c := x.f.attrs.ino, x.b := x.f.attrs.ino]
  {
    worlds, steps := StaleEntering(x, c);
    StaleEnds(x, c);
    var w := AfterLog(worlds[|steps|], 3);
    RunGrows(worlds, steps, Journal(J.Log(3)), w);
    worlds, steps := worlds + [w], steps + [Journal(J.Log(3))];
  }
}
