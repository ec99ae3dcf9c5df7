/**
 * A call that reaches the journal after the removal of its directory has been checkpointed: nothing keeps a `chself`
 * whose inode was fetched before `rmdir_top` from coming this late, and the checkpoint of its transaction throws.
 */
module LateCalls {
  import opened Bytes
  import opened Transactions
  import opened Stages
  import opened JournalRuns

  const BEFORE: Durable := Durable(Some(map[]), None, map[])
  const AFTER: Durable := Durable(None, None, map[])

  function Thread(d: Uuid): nat { Route(d) }

  function Calls(d: Uuid, self: Inode): seq<Call> {
    [Call(d, RmSelf, {}, 0), Call(d, ChSelf(self), {0}, 1)]
  }

  /** The first call and its transaction. */
  function One(d: Uuid, line: Line, txs: seq<Rec>, pcs: map<nat, Pc>, pos: map<nat, (nat, nat)>, swaps: nat,
               durable: Durable): State {
    State(line, txs, [Call(d, RmSelf, {}, 0)], pcs, map[0 := 0], pos, {}, swaps, map[d := durable])
  }

  function RemovalTx(frozen: bool): Rec { Rec(frozen, Record(EMPTY, RmSelf), [0]) }

  lemma RemovalEntered(d: Uuid) returns (states: seq<State>, steps: seq<Step>)
    ensures Run(states, steps)
    ensures var line := START.(dirs := [d], live := map[d := 0]);
            states[|steps|] == One(d, line, [Rec(false, EMPTY, [])], map[0 := Has(0, 0)], map[], 0, BEFORE)
  {
    var s0 := State(START, [], [], map[], map[], map[], {}, 0, map[d := BEFORE]);
    var s1 := One(d, START, [], map[0 := Lookup], map[], 0, BEFORE);
    var s2 := One(d, START, [], map[0 := Missed], map[], 0, BEFORE);
    var line := START.(dirs := [d], live := map[d := 0]);
    var s3 := One(d, line, [Rec(false, EMPTY, [])], map[0 := Has(0, 0)], map[], 0, BEFORE);
    states, steps := [s0], [];
    assert s0.pos.Keys == {} && Take(s0, Start(d, RmSelf)) == s1;
    RunGrows(states, steps, Start(d, RmSelf), s1);
    states, steps := states + [s1], steps + [Start(d, RmSelf)];
    RunGrows(states, steps, Miss(0), s2);
    states, steps := states + [s2], steps + [Miss(0)];
    assert JournalRuns.Created(s2, 0) == s3;
    RunGrows(states, steps, Enter(0), s3);
    states, steps := states + [s3], steps + [Enter(0)];
  }

  lemma RemovalSwapped(d: Uuid) returns (states: seq<State>, steps: seq<Step>)
    ensures Run(states, steps)
    ensures var line := START.(dirs := [d], batch := map[d := 0]);
            states[|steps|] == One(d, line, [RemovalTx(false)], map[], map[0 := (0, 0)], 1, BEFORE)
  {
    states, steps := RemovalEntered(d);
    var s := states[|steps|];
    var s4 := One(d, s.line, [RemovalTx(false)], map[], map[0 := (0, 0)], 0, BEFORE);
    var s5 := One(d, START.(dirs := [d], batch := map[d := 0]), [RemovalTx(false)], map[], map[0 := (0, 0)], 1, BEFORE);
    assert s.pcs - {0} == map[] && s.txs[0].log + [0] == [0];
    assert Logged(s, 0) == s4;
    RunGrows(states, steps, Log(0), s4);
    states, steps := states + [s4], steps + [Log(0)];
    RunGrows(states, steps, Station(Swap), s5);
    states, steps := states + [s5], steps + [Station(Swap)];
  }

  lemma RemovalIssued(d: Uuid) returns (states: seq<State>, steps: seq<Step>)
    ensures Run(states, steps)
    ensures var line := START.(dirs := [d], queues := map[Thread(d) := [Some(TxRef(0, d))]]);
            states[|steps|] == One(d, line, [RemovalTx(true)], map[], map[0 := (0, 0)], 1, BEFORE)
  {
    states, steps := RemovalSwapped(d);
    var l6 := START.(dirs := [d], frozen := Some(TxRef(0, d)));
    var l7 := START.(dirs := [d], queues := map[Thread(d) := [Some(TxRef(0, d))]]);
    var s6 := One(d, l6, [RemovalTx(true)], map[], map[0 := (0, 0)], 1, BEFORE);
    var s7 := One(d, l7, [RemovalTx(true)], map[], map[0 := (0, 0)], 1, BEFORE);
    assert map[d := 0] - {d} == map[];
    RunGrows(states, steps, Station(Freeze(d)), s6);
    states, steps := states + [s6], steps + [Station(Freeze(d))];
    assert Queue(l6, Thread(d)) + [l6.frozen] == [l6.frozen];
    assert Advance(l6, Issue) == l7;
    RunGrows(states, steps, Station(Issue), s7);
    states, steps := states + [s7], steps + [Station(Issue)];
  }

  /** The line when the removal has been checkpointed. */
  function Gone(d: Uuid): Line {
    START.(dirs := [d], queues := map[Thread(d) := []], done := map[d := [0]])
  }

  lemma RemovalDone(d: Uuid) returns (states: seq<State>, steps: seq<Step>)
    ensures Run(states, steps)
    ensures states[|steps|] == One(d, Gone(d), [RemovalTx(true)], map[], map[0 := (0, 0)], 1, AFTER)
  {
    states, steps := RemovalIssued(d);
    var q, line := Thread(d), states[|steps|].line;
    var l8 := START.(dirs := [d], queues := map[q := []], hands := map[q := TxRef(0, d)]);
    var s8 := One(d, l8, [RemovalTx(true)], map[], map[0 := (0, 0)], 1, BEFORE);
    var s9 := One(d, Gone(d), [RemovalTx(true)], map[], map[0 := (0, 0)], 1, AFTER);
    assert Advance(line, Dispatch(q)) == l8;
    RunGrows(states, steps, Station(Dispatch(q)), s8);
    states, steps := states + [s8], steps + [Station(Dispatch(q))];
    assert l8.hands - {q} == map[] && DoneOf(l8, d) + [0] == [0];
    assert Advance(l8, Finish(q)) == Gone(d);
    RunGrows(states, steps, Station(Finish(q)), s9);
    states, steps := states + [s9], steps + [Station(Finish(q))];
  }

  /** The second call and its transaction, the first being done. */
  function Two(d: Uuid, self: Inode, line: Line, txs: seq<Rec>, pcs: map<nat, Pc>, pos: map<nat, (nat, nat)>,
               swaps: nat): State {
    State(line, txs, Calls(d, self), pcs, map[0 := 0, 1 := 0], pos, {}, swaps, map[d := AFTER])
  }

  lemma LateMissed(d: Uuid, self: Inode) returns (states: seq<State>, steps: seq<Step>)
    ensures Run(states, steps)
    ensures states[|steps|] == Two(d, self, Gone(d), [RemovalTx(true)], map[1 := Missed], map[0 := (0, 0)], 1)
  {
    states, steps := RemovalDone(d);
    var s10 := Two(d, self, Gone(d), [RemovalTx(true)], map[1 := Lookup], map[0 := (0, 0)], 1);
    var s11 := Two(d, self, Gone(d), [RemovalTx(true)], map[1 := Missed], map[0 := (0, 0)], 1);
    assert states[|steps|].pos.Keys == {0};
    RunGrows(states, steps, Start(d, ChSelf(self)), s10);
    states, steps := states + [s10], steps + [Start(d, ChSelf(self))];
    RunGrows(states, steps, Miss(1), s11);
    states, steps := states + [s11], steps + [Miss(1)];
  }

  function LateTxs(self: Inode, frozen: bool): seq<Rec> {
    [RemovalTx(true), Rec(frozen, Record(EMPTY, ChSelf(self)), [1])]
  }

  lemma LateLogged(d: Uuid, self: Inode) returns (states: seq<State>, steps: seq<Step>)
    ensures Run(states, steps)
    ensures var line := Gone(d).(dirs := [d, d], live := map[d := 1]);
            states[|steps|] == Two(d, self, line, LateTxs(self, false), map[], map[0 := (0, 0), 1 := (1, 0)], 1)
  {
    states, steps := LateMissed(d, self);
    var line := Gone(d).(dirs := [d, d], live := map[d := 1]);
    var s12 := Two(d, self, line, [RemovalTx(true), Rec(false, EMPTY, [])], map[1 := Has(1, 1)], map[0 := (0, 0)], 1);
    var s13 := Two(d, self, line, LateTxs(self, false), map[], map[0 := (0, 0), 1 := (1, 0)], 1);
    assert JournalRuns.Created(states[|steps|], 1) == s12;
    RunGrows(states, steps, Enter(1), s12);
    states, steps := states + [s12], steps + [Enter(1)];
    assert s12.pcs - {1} == map[] && s12.txs[1].log + [1] == [1];
    assert Logged(s12, 1) == s13;
    RunGrows(states, steps, Log(1), s13);
    states, steps := states + [s13], steps + [Log(1)];
  }

  lemma LateFrozen(d: Uuid, self: Inode) returns (states: seq<State>, steps: seq<Step>)
    ensures Run(states, steps)
    ensures var line := Gone(d).(dirs := [d, d], frozen := Some(TxRef(1, d)));
            states[|steps|] == Two(d, self, line, LateTxs(self, true), map[], map[0 := (0, 0), 1 := (1, 0)], 2)
  {
    states, steps := LateLogged(d, self);
    var pos := map[0 := (0, 0), 1 := (1, 0)];
    var l14 := Gone(d).(dirs := [d, d], batch := map[d := 1]);
    var l15 := Gone(d).(dirs := [d, d], frozen := Some(TxRef(1, d)));
    var s14 := Two(d, self, l14, LateTxs(self, false), map[], pos, 2);
    var s15 := Two(d, self, l15, LateTxs(self, true), map[], pos, 2);
    RunGrows(states, steps, Station(Swap), s14);
    states, steps := states + [s14], steps + [Station(Swap)];
    assert map[d := 1] - {d} == map[];
    RunGrows(states, steps, Station(Freeze(d)), s15);
    states, steps := states + [s15], steps + [Station(Freeze(d))];
  }

  lemma LateIssued(d: Uuid, self: Inode) returns (states: seq<State>, steps: seq<Step>)
    ensures Run(states, steps)
    ensures var line := Gone(d).(dirs := [d, d], queues := map[Thread(d) := [Some(TxRef(1, d))]]);
            states[|steps|] == Two(d, self, line, LateTxs(self, true), map[], map[0 := (0, 0), 1 := (1, 0)], 2)
  {
    states, steps := LateFrozen(d, self);
    var q, l15, item: Option<TxRef> := Thread(d), states[|steps|].line, Some(TxRef(1, d));
    var l16 := Gone(d).(dirs := [d, d], queues := map[q := [item]]);
    var s16 := states[|steps|].(line := l16);
    assert Queue(l15, q) + [item] == [item];
    assert Advance(l15, Issue) == l16;
    RunGrows(states, steps, Station(Issue), s16);
    states, steps := states + [s16], steps + [Station(Issue)];
  }

  lemma LateDispatched(d: Uuid, self: Inode) returns (states: seq<State>, steps: seq<Step>)
    ensures Run(states, steps)
    ensures var line := Gone(d).(dirs := [d, d], hands := map[Thread(d) := TxRef(1, d)]);
            states[|steps|] == Two(d, self, line, LateTxs(self, true), map[], map[0 := (0, 0), 1 := (1, 0)], 2)
  {
    states, steps := LateIssued(d, self);
    var l17 := Gone(d).(dirs := [d, d], hands := map[Thread(d) := TxRef(1, d)]);
    var s17 := states[|steps|].(line := l17);
    assert Advance(states[|steps|].line, Dispatch(Thread(d))) == l17;
    RunGrows(states, steps, Station(Dispatch(Thread(d))), s17);
    states, steps := states + [s17], steps + [Station(Dispatch(Thread(d)))];
  }

  /** A `chself` after the removal: there is a run in which the checkpoint of its transaction can only throw. */
  lemma LateChselfThrows(d: Uuid, self: Inode) returns (states: seq<State>, steps: seq<Step>)
    ensures Run(states, steps)
    ensures var s := states[|steps|]; var i := Route(d);
            && |s.calls| == 2 && s.calls[1].op == ChSelf(self) && s.pos == map[0 := (0, 0), 1 := (1, 0)]
            && i in s.line.hands && s.line.hands[i] == TxRef(1, d) && !Enabled(s, Station(Finish(i)))
  {
    states, steps := LateDispatched(d, self);
  }
}
