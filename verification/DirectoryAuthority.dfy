/**
 * `directory_table` on top of the lease protocol: which cached dentry tables a client may use as LOCAL. A client's
 * `directory_table_mutex` is held across the lease RPC, so each client has at most one acquisition in progress.
 */
module DirectoryAuthority {
  import opened Bytes
  import opened LeaseTables
  import opened LeaseProtocol

  datatype Location = Local | Remote

  /** An acquisition in progress: the request, the directory, and whether `lease_dentry_table_mkdir` made it. */
  datatype Waiting = Waiting(id: nat, ino: Uuid, mkdir: bool)

  datatype Dirs = Dirs(net: State, tables: map<(Addr, Uuid), Location>, waiting: map<Addr, Waiting>)

  datatype Action =
    /** The clock, the manager and the network. */
    | Background(step: Step)
    /** `get_dentry_table(ino, remote)`. */
    | Get(client: Addr, ino: Uuid, remote: bool)
    /** `lease_dentry_table_mkdir`. */
    | Mkdir(client: Addr, ino: Uuid)
    /** The RPC returns: `update`, then the rest of `lease_dentry_table` or `lease_dentry_table_mkdir`. */
    | Receive(client: Addr, response: Response)
    /** The RPC fails and `acquire` throws. */
    | Fail(client: Addr)
    /** `delete_dentry_table`. */
    | Delete(client: Addr, ino: Uuid)

  predicate DInit(s: Dirs) {
    Init(s.net) && s.tables == map[] && s.waiting == map[]
  }

  /** `get_dentry_table` finds a table and `is_valid` holds: the table is returned as it is. */
  predicate Hit(s: Dirs, client: Addr, ino: Uuid) {
    (client, ino) in s.tables && IsValid(s.net, client, ino)
  }

  predicate DEnabled(s: Dirs, a: Action) {
    match a
    case Background(step) => (step.Tick? || step.Miss? || step.Cas? || step.Insert? || step.Lose?) &&
        Enabled(s.net, step)
    case Get(c, _, _) => c !in s.waiting
    case Mkdir(c, ino) => c !in s.waiting && (c, ino) !in s.tables
    case Receive(c, r) => c in s.waiting && r in s.net.responses && r.id == s.waiting[c].id
    case Fail(c) => c in s.waiting
    case Delete(c, _) => c !in s.waiting
  }

  /** `lc->acquire`: nothing to do for a lease already mine, otherwise an RPC. */
  function Acquire(s: Dirs, c: Addr, ino: Uuid, mkdir: bool): Dirs {
    if IsMine(s.net, c, ino) then
      s.(tables := s.tables[(c, ino) := Local])
    else
      s.(net := Take(s.net, Send(c, ino)), waiting := s.waiting[c := Waiting(s.net.nextId, ino, mkdir)])
  }

  function DTake(s: Dirs, a: Action): Dirs
    requires DEnabled(s, a)
  {
    match a
    case Background(step) => s.(net := Take(s.net, step))
    case Get(c, ino, remote) =>
      if Hit(s, c, ino) then s
      else
        var s' := s.(tables := s.tables - {(c, ino)});
        if remote then s' else Acquire(s', c, ino, false)
    case Mkdir(c, ino) => Acquire(s, c, ino, true)
    case Receive(c, r) =>
      var w := s.waiting[c];
      var s' := s.(net := Take(s.net, Deliver(r)), waiting := s.waiting - {c});
      if r.granted then s'.(tables := s.tables[(c, w.ino) := Local])
      else if w.mkdir then s'
      else s'.(tables := s.tables[(c, w.ino) := Remote])
    case Fail(c) => s.(waiting := s.waiting - {c})
    case Delete(c, ino) => s.(tables := s.tables - {(c, ino)})
  }

  /** An answer to the acquisition in progress is newer than what the client knows, or says the same. */
  predicate Fresher(s: State, r: Response) {
    (r.client, r.ino) in s.held ==>
      var h := s.held[(r.client, r.ino)];
      r.due > h.due || (r.due == h.due && r.granted == h.leader)
  }

  /** A table is LOCAL exactly when what its client was told last of the directory is that it leads. */
  ghost predicate TablesOk(held: map<(Addr, Uuid), Held>, tables: map<(Addr, Uuid), Location>) {
    forall k :: k in tables ==> k in held && (tables[k] == Local <==> held[k].leader)
  }

  ghost predicate IdsOk(net: State) {
    && (forall r :: r in net.requests ==> r.id < net.nextId)
    && (forall r :: r in net.responses ==> r.id < net.nextId)
  }

  /** What client `c` waits for is its own request, for a directory it has no table of. */
  ghost predicate WaitOk(net: State, tables: map<(Addr, Uuid), Location>, c: Addr, w: Waiting) {
    && w.id < net.nextId && (c, w.ino) !in tables
    && (forall r :: r in net.requests && r.id == w.id ==> r.client == c && r.ino == w.ino)
    && (forall r :: r in net.responses && r.id == w.id ==> r.client == c && r.ino == w.ino && Fresher(net, r))
  }

  ghost predicate DInv(s: Dirs) {
    && Inv(s.net) && TablesOk(s.net.held, s.tables) && IdsOk(s.net)
    && (forall c :: c in s.waiting ==> WaitOk(s.net, s.tables, c, s.waiting[c]))
  }

  /** The manager's answer carries its current due, so no client can know a later one. */
  lemma AnswerIsFresher(s: State, r: Request, e: Lease)
    requires r.ino in s.manager ==>
             s.manager[r.ino].due <= e.due && (s.manager[r.ino].due == e.due ==> s.manager[r.ino] == e)
    requires Inv(s)
    ensures Fresher(s, Response(r.id, r.client, r.ino, e.due, e.addr == r.client))
  {
    if (r.client, r.ino) in s.held {
      var k := (r.client, r.ino);
      assert Told(s, k.0, k.1, s.held[k].due, s.held[k].leader);
    }
  }

  lemma AnswerKeepsWait(net: State, tables: map<(Addr, Uuid), Location>, r: Request, e: Lease, clock: Time, c: Addr,
                        w: Waiting)
    requires WaitOk(net, tables, c, w) && r in net.requests
    requires Fresher(net, Response(r.id, r.client, r.ino, e.due, e.addr == r.client))
    ensures WaitOk(Answer(net, r, e).(clock := clock), tables, c, w)
  {
  }

  lemma AnswerKeeps(s: Dirs, r: Request, e: Lease, clock: Time)
    requires DInv(s) && r in s.net.requests
    requires r.ino in s.net.manager ==>
               s.net.manager[r.ino].due <= e.due && (s.net.manager[r.ino].due == e.due ==> s.net.manager[r.ino] == e)
    requires Inv(Answer(s.net, r, e).(clock := clock))
    ensures DInv(s.(net := Answer(s.net, r, e).(clock := clock)))
  {
    AnswerIsFresher(s.net, r, e);
    forall c | c in s.waiting
      ensures WaitOk(Answer(s.net, r, e).(clock := clock), s.tables, c, s.waiting[c])
    {
      AnswerKeepsWait(s.net, s.tables, r, e, clock, c, s.waiting[c]);
    }
  }

  /** The clock, a first section that misses, and a lost response change nothing a waiting client relies on. */
  lemma QuietKeepsWait(net: State, tables: map<(Addr, Uuid), Location>, step: Step, c: Addr, w: Waiting)
    requires WaitOk(net, tables, c, w) && (step.Tick? || step.Miss? || step.Lose?) && Enabled(net, step)
    ensures WaitOk(Take(net, step), tables, c, w)
  {
  }

  lemma BackgroundKeeps(s: Dirs, step: Step)
    requires DInv(s) && DEnabled(s, Background(step))
    ensures DInv(DTake(s, Background(step)))
  {
    StepKeepsInv(s.net, step);
    if step.Cas? {
      var r := step.request;
      AnswerKeeps(s, r, CasLease(s.net.manager[r.ino], r.client, s.net.clock, step.stamped), step.stamped);
    } else if step.Insert? {
      var r := step.request;
      AnswerKeeps(s, r, if r.ino in s.net.manager then s.net.manager[r.ino]
                  else Lease(s.net.clock + LEASE_PERIOD, r.client),
                  s.net.clock);
    } else {
      forall c | c in s.waiting
        ensures WaitOk(Take(s.net, step), s.tables, c, s.waiting[c])
      {
        QuietKeepsWait(s.net, s.tables, step, c, s.waiting[c]);
      }
    }
  }

  /** Delivering another client's answer does not disturb a wait. */
  lemma DeliverKeepsWait(net: State, tables: map<(Addr, Uuid), Location>, tables': map<(Addr, Uuid), Location>,
                         r: Response, c: Addr, w: Waiting)
    requires WaitOk(net, tables, c, w) && r in net.responses && r.client != c
    requires forall k :: k in tables' ==> k in tables || k.0 == r.client
    ensures WaitOk(Take(net, Deliver(r)), tables', c, w)
  {
  }

  lemma ReceiveKeeps(s: Dirs, c: Addr, r: Response)
    requires DInv(s) && DEnabled(s, Receive(c, r))
    ensures DInv(DTake(s, Receive(c, r)))
  {
    StepKeepsInv(s.net, Deliver(r));
    var s' := DTake(s, Receive(c, r));
    var w := s.waiting[c];
    assert WaitOk(s.net, s.tables, c, w);
    assert TablesOk(s'.net.held, s'.tables) by {
      assert Fresher(s.net, r);
    }
    forall d | d in s'.waiting
      ensures WaitOk(s'.net, s'.tables, d, s'.waiting[d])
    {
      DeliverKeepsWait(s.net, s.tables, s'.tables, r, d, s.waiting[d]);
    }
  }

  /** Starting an acquisition for a directory without a table. */
  lemma AcquireKeeps(s: Dirs, c: Addr, ino: Uuid, mkdir: bool)
    requires DInv(s) && c !in s.waiting && (c, ino) !in s.tables
    ensures DInv(Acquire(s, c, ino, mkdir))
  {
    StepKeepsInv(s.net, Send(c, ino));
    var s' := Acquire(s, c, ino, mkdir);
    forall d | d in s'.waiting
      ensures WaitOk(s'.net, s'.tables, d, s'.waiting[d])
    {
      if d != c {
        assert WaitOk(s.net, s.tables, d, s.waiting[d]);
      }
    }
  }

  lemma EraseKeeps(s: Dirs, c: Addr, ino: Uuid)
    requires DInv(s)
    ensures DInv(s.(tables := s.tables - {(c, ino)}))
  {
    forall d | d in s.waiting
      ensures WaitOk(s.net, s.tables - {(c, ino)}, d, s.waiting[d])
    {
    }
  }

  lemma ActionKeeps(s: Dirs, a: Action)
    requires DInv(s) && DEnabled(s, a)
    ensures DInv(DTake(s, a))
  {
    match a
    case Background(step) => BackgroundKeeps(s, step);
    case Receive(c, r) => ReceiveKeeps(s, c, r);
    case Get(c, ino, remote) =>
      EraseKeeps(s, c, ino);
      AcquireKeeps(s.(tables := s.tables - {(c, ino)}), c, ino, false);
    case Mkdir(c, ino) => AcquireKeeps(s, c, ino, true);
    case Delete(c, ino) => EraseKeeps(s, c, ino);
    case Fail(c) =>
  }

  ghost predicate DRun(states: seq<Dirs>, actions: seq<Action>) {
    && |states| == |actions| + 1 && DInit(states[0])
    && forall i :: 0 <= i < |actions| ==>
        DEnabled(states[i], actions[i]) && states[i + 1] == DTake(states[i], actions[i])
  }

  lemma {:induction false} DRunKeeps(states: seq<Dirs>, actions: seq<Action>, n: nat)
    requires DRun(states, actions) && n < |states|
    ensures DInv(states[n])
  {
    if n > 0 {
      DRunKeeps(states, actions, n - 1);
      ActionKeeps(states[n - 1], actions[n - 1]);
    }
  }

  /**
   * In every run, when `get_dentry_table` returns a cached LOCAL table after checking only `is_valid`, this client is
   * the manager's current lease holder and the lease has not run out; no other client can be in the same position.
   */
  lemma CachedAuthorityIsReal(states: seq<Dirs>, actions: seq<Action>, n: nat, c: Addr, d: Addr, ino: Uuid)
    requires DRun(states, actions) && n < |states|
    requires Hit(states[n], c, ino) && states[n].tables[(c, ino)] == Local
    ensures var net := states[n].net;
            && IsMine(net, c, ino)
            && ino in net.manager && net.manager[ino].addr == c && net.clock < net.manager[ino].due
    ensures Hit(states[n], d, ino) && states[n].tables[(d, ino)] == Local ==> d == c
  {
    DRunKeeps(states, actions, n);
    MineIsCurrent(states[n].net, c, ino);
    if Hit(states[n], d, ino) && states[n].tables[(d, ino)] == Local {
      MineIsCurrent(states[n].net, d, ino);
    }
  }

  /**
   * A cached table that is returned without an RPC is of the right kind: it is LOCAL if and only if this client is the
   * manager's lease holder at that instant. A granted lease never leaves a REMOTE table, nor a refusal a LOCAL one.
   */
  lemma LocalIffHolder(states: seq<Dirs>, actions: seq<Action>, n: nat, c: Addr, ino: Uuid)
    requires DRun(states, actions) && n < |states| && Hit(states[n], c, ino)
    ensures states[n].tables[(c, ino)] == Local <==> IsMine(states[n].net, c, ino)
    ensures ino in states[n].net.manager
    ensures states[n].tables[(c, ino)] == Local <==>
            states[n].net.manager[ino].addr == c && states[n].net.clock < states[n].net.manager[ino].due
  {
    DRunKeeps(states, actions, n);
    var net, k := states[n].net, (c, ino);
    assert Told(net, k.0, k.1, net.held[k].due, net.held[k].leader);
  }

  /** What an answer leaves: a LOCAL table if granted; if refused, a REMOTE one, or none for a directory being made. */
  lemma ReceivedTable(states: seq<Dirs>, actions: seq<Action>, n: nat)
    requires DRun(states, actions) && n < |actions| && actions[n].Receive?
    ensures var c, r, s, s' := actions[n].client, actions[n].response, states[n], states[n + 1];
            && c in s.waiting && c !in s'.waiting
            && r.client == c && r.ino == s.waiting[c].ino && (c, r.ino) !in s.tables
            && s'.tables == if r.granted then s.tables[(c, r.ino) := Local]
                            else if s.waiting[c].mkdir then s.tables
                            else s.tables[(c, r.ino) := Remote]
  {
    DRunKeeps(states, actions, n);
    var c := actions[n].client;
    assert DEnabled(states[n], actions[n]) && states[n + 1] == DTake(states[n], actions[n]);
    assert WaitOk(states[n].net, states[n].tables, c, states[n].waiting[c]);
  }
}
