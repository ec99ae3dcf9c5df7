/**
 * The lease protocol as a step system: one manager, any number of clients, requests whose two critical sections
 * interleave, responses that are delayed, reordered or lost, and one shared clock that never goes back.
 */
module LeaseProtocol {
  import opened Bytes
  import opened LeaseTables

  /** A request at the manager; `missed` once its first section found no entry. */
  datatype Request = Request(id: nat, client: Addr, ino: Uuid, missed: bool)

  datatype Response = Response(id: nat, client: Addr, ino: Uuid, due: Time, granted: bool)

  datatype State = State(
    clock: Time,
    manager: map<Uuid, Lease>,
    held: map<(Addr, Uuid), Held>,
    requests: set<Request>,
    responses: set<Response>,
    nextId: nat)

  /** `Send` is always possible: the early return of `acquire` on `is_mine` only makes runs shorter. */
  datatype Step =
    | Tick(now: Time)
    | Send(client: Addr, ino: Uuid)
    | Miss(request: Request)
    | Cas(request: Request, stamped: Time)
    | Insert(request: Request)
    | Deliver(response: Response)
    | Lose(response: Response)

  predicate Init(s: State) {
    s.manager == map[] && s.held == map[] && s.requests == {} && s.responses == {}
  }

  /** `lease_table_client::is_valid`. */
  predicate IsValid(s: State, client: Addr, ino: Uuid) {
    (client, ino) in s.held && s.clock < s.held[(client, ino)].due
  }

  /** `lease_table_client::is_mine`. */
  predicate IsMine(s: State, client: Addr, ino: Uuid) {
    IsValid(s, client, ino) && s.held[(client, ino)].leader
  }

  function Known(s: State, client: Addr, ino: Uuid): Option<Held> {
    if (client, ino) in s.held then Some(s.held[(client, ino)]) else None
  }

  /** The manager's answer once its entry for the directory is `e`. */
  function Answer(s: State, r: Request, e: Lease): State {
    s.(manager := s.manager[r.ino := e],
       requests := s.requests - {r},
       responses := s.responses + {Response(r.id, r.client, r.ino, e.due, e.addr == r.client)})
  }

  predicate Enabled(s: State, step: Step) {
    match step
    case Tick(now) => s.clock <= now
    case Send(_, _) => true
    case Miss(r) => r in s.requests && !r.missed && r.ino !in s.manager
    case Cas(r, stamped) => r in s.requests && !r.missed && r.ino in s.manager && s.clock <= stamped
    case Insert(r) => r in s.requests && r.missed
    case Deliver(r) => r in s.responses
    case Lose(r) => r in s.responses
  }

  function Take(s: State, step: Step): State
    requires Enabled(s, step)
  {
    match step
    case Tick(now) => s.(clock := now)
    case Send(client, ino) =>
      s.(requests := s.requests + {Request(s.nextId, client, ino, false)}, nextId := s.nextId + 1)
    case Miss(r) =>
      s.(requests := s.requests - {r} + {r.(missed := true)})
    case Cas(r, stamped) =>
      Answer(s, r, CasLease(s.manager[r.ino], r.client, s.clock, stamped)).(clock := stamped)
    case Insert(r) =>
      Answer(s, r, if r.ino in s.manager then s.manager[r.ino] else Lease(s.clock + LEASE_PERIOD, r.client))
    case Deliver(r) =>
      s.(held := s.held[(r.client, r.ino) := Learn(Known(s, r.client, r.ino), r.due, r.granted)],
         responses := s.responses - {r})
    case Lose(r) => s.(responses := s.responses - {r})
  }

  /**
   * Something a client was told, (due, granted), against the manager's entry: it is the current lease, with the
   * right holder, or an older lease whose time has run out.
   */
  predicate Told(s: State, client: Addr, ino: Uuid, due: Time, granted: bool) {
    && ino in s.manager
    && due <= s.manager[ino].due
    && (due == s.manager[ino].due ==> (granted <==> s.manager[ino].addr == client))
    && (due < s.manager[ino].due ==> due <= s.clock)
  }

  ghost predicate Inv(s: State) {
    && (forall k :: k in s.held ==> Told(s, k.0, k.1, s.held[k].due, s.held[k].leader))
    && (forall r :: r in s.responses ==> Told(s, r.client, r.ino, r.due, r.granted))
  }

  /** What was told stays true when the manager's entry for `ino` changes as `Cas` and `Insert` change it. */
  lemma ToldKept(s: State, s': State, client: Addr, ino: Uuid, due: Time, granted: bool)
    requires Told(s, client, ino, due, granted) && s.clock <= s'.clock && ino in s'.manager
    requires s'.manager[ino] == s.manager[ino] ||
             (s.manager[ino].due <= s.clock && s.manager[ino].due < s'.manager[ino].due)
    ensures Told(s', client, ino, due, granted)
  {
  }

  lemma AnswerKeepsInv(s: State, r: Request, e: Lease, clock: Time)
    requires Inv(s) && s.clock <= clock
    requires r.ino in s.manager && e != s.manager[r.ino] ==>
             s.manager[r.ino].due <= s.clock && s.manager[r.ino].due < e.due
    ensures Inv(Answer(s, r, e).(clock := clock))
  {
    var s' := Answer(s, r, e).(clock := clock);
    forall k | k in s.held
      ensures Told(s', k.0, k.1, s.held[k].due, s.held[k].leader)
    {
      ToldKept(s, s', k.0, k.1, s.held[k].due, s.held[k].leader);
    }
    forall p | p in s.responses
      ensures Told(s', p.client, p.ino, p.due, p.granted)
    {
      ToldKept(s, s', p.client, p.ino, p.due, p.granted);
    }
  }

  lemma StepKeepsInv(s: State, step: Step)
    requires Inv(s) && Enabled(s, step)
    ensures Inv(Take(s, step))
  {
    match step
    case Cas(r, stamped) =>
      AnswerKeepsInv(s, r, CasLease(s.manager[r.ino], r.client, s.clock, stamped), stamped);
    case Insert(r) =>
      AnswerKeepsInv(s, r, if r.ino in s.manager then s.manager[r.ino]
                     else Lease(s.clock + LEASE_PERIOD, r.client), s.clock);
    case Deliver(r) =>
      var s' := Take(s, step);
      assert forall k :: k in s'.held ==> k in s.held || k == (r.client, r.ino);
    case _ =>
  }

  /** An unexpired client entry marked leader is the manager's current (due, addr). */
  lemma MineIsCurrent(s: State, client: Addr, ino: Uuid)
    requires Inv(s) && IsMine(s, client, ino)
    ensures ino in s.manager && s.manager[ino] == Lease(s.held[(client, ino)].due, client)
  {
    var k := (client, ino);
    assert Told(s, k.0, k.1, s.held[k].due, s.held[k].leader);
  }

  ghost predicate Run(states: seq<State>, steps: seq<Step>) {
    && |states| == |steps| + 1 && Init(states[0])
    && forall i :: 0 <= i < |steps| ==> Enabled(states[i], steps[i]) && states[i + 1] == Take(states[i], steps[i])
  }

  lemma {:induction false} RunKeepsInv(states: seq<State>, steps: seq<Step>, n: nat)
    requires Run(states, steps) && n < |states|
    ensures Inv(states[n])
  {
    if n > 0 {
      RunKeepsInv(states, steps, n - 1);
      StepKeepsInv(states[n - 1], steps[n - 1]);
    }
  }

  /** In every state of every run at most one client satisfies `is_mine` for a directory: the manager's lease holder. */
  lemma MutualExclusion(states: seq<State>, steps: seq<Step>, n: nat, ino: Uuid, c: Addr, d: Addr)
    requires Run(states, steps) && n < |states|
    ensures IsMine(states[n], c, ino) ==> ino in states[n].manager && states[n].manager[ino].addr == c
    ensures IsMine(states[n], c, ino) && IsMine(states[n], d, ino) ==> c == d
  {
    RunKeepsInv(states, steps, n);
    if IsMine(states[n], c, ino) {
      MineIsCurrent(states[n], c, ino);
    }
    if IsMine(states[n], d, ino) {
      MineIsCurrent(states[n], d, ino);
    }
  }

  // Progress

  /**
   * What the manager answers: a lease that has run out goes to whoever asks, for a full period; one that has not stays
   * with its holder, who alone is told so.
   */
  lemma CasAnswers(s: State, r: Request, stamped: Time)
    requires Enabled(s, Cas(r, stamped))
    ensures var was, s' := s.manager[r.ino], Take(s, Cas(r, stamped));
            var now := if was.due <= s.clock then Lease(stamped + LEASE_PERIOD, r.client) else was;
            && s'.manager == s.manager[r.ino := now]
            && Response(r.id, r.client, r.ino, now.due, was.due <= s.clock || was.addr == r.client) in s'.responses
  {
  }

  /** A directory nobody has leased goes to the first request that comes to insert it. */
  lemma InsertAnswers(s: State, r: Request)
    requires Enabled(s, Insert(r)) && r.ino !in s.manager
    ensures var due, s' := s.clock + LEASE_PERIOD, Take(s, Insert(r));
            && s'.manager == s.manager[r.ino := Lease(due, r.client)]
            && Response(r.id, r.client, r.ino, due, true) in s'.responses
  {
  }

  /** An entry of the manager stays as it is until its time has run out, and the clock does not go back. */
  lemma StepKeepsLease(s: State, step: Step, ino: Uuid)
    requires Enabled(s, step) && ino in s.manager && Take(s, step).clock < s.manager[ino].due
    ensures s.clock <= Take(s, step).clock
    ensures ino in Take(s, step).manager && Take(s, step).manager[ino] == s.manager[ino]
  {
  }

  lemma ClockAdvances(s: State, step: Step)
    requires Enabled(s, step)
    ensures s.clock <= Take(s, step).clock
  {
  }

  /** What a client knows of a directory is only ever replaced by something that runs out later. */
  lemma StepKeepsKnown(s: State, step: Step, client: Addr, ino: Uuid)
    requires Enabled(s, step) && (client, ino) in s.held
    ensures (client, ino) in Take(s, step).held
    ensures s.held[(client, ino)].due <= Take(s, step).held[(client, ino)].due
  {
  }

  /** The client knows of its lease and the manager has it in its books. */
  ghost predicate Granted(s: State, client: Addr, ino: Uuid, due: Time) {
    && ino in s.manager && s.manager[ino] == Lease(due, client)
    && (client, ino) in s.held && due <= s.held[(client, ino)].due
  }

  lemma DeliverGrants(s: State, p: Response)
    requires Inv(s) && Enabled(s, Deliver(p)) && p.granted && s.clock < p.due
    ensures Granted(Take(s, Deliver(p)), p.client, p.ino, p.due)
  {
    assert Told(s, p.client, p.ino, p.due, p.granted);
  }

  lemma {:induction false} GrantedStays(states: seq<State>, steps: seq<Step>, k: nat, n: nat, client: Addr, ino: Uuid,
                                        due: Time)
    requires Run(states, steps) && k <= n < |states| && Granted(states[k], client, ino, due)
    requires states[n].clock < due
    ensures Granted(states[n], client, ino, due)
    decreases n - k
  {
    if k < n {
      var s, step := states[n - 1], steps[n - 1];
      assert states[n] == Take(s, step);
      ClockAdvances(s, step);
      GrantedStays(states, steps, k, n - 1, client, ino, due);
      StepKeepsLease(s, step, ino);
      StepKeepsKnown(s, step, client, ino);
    }
  }

  lemma {:induction false} ClockOfRun(states: seq<State>, steps: seq<Step>, k: nat, n: nat)
    requires Run(states, steps) && k <= n < |states|
    ensures states[k].clock <= states[n].clock
    decreases n - k
  {
    if k < n {
      ClockOfRun(states, steps, k, n - 1);
      ClockAdvances(states[n - 1], steps[n - 1]);
    }
  }

  /**
   * A lease granted is a lease held: in every run, from the delivery of a granting answer until the due it names, the
   * client satisfies `is_mine`, whatever else is delivered, late or out of order, in between.
   */
  lemma GrantedUntilDue(states: seq<State>, steps: seq<Step>, k: nat, n: nat, p: Response)
    requires Run(states, steps) && k < n < |states| && steps[k] == Deliver(p) && p.granted
    requires states[n].clock < p.due
    ensures IsMine(states[n], p.client, p.ino) && states[n].held[(p.client, p.ino)].due == p.due
  {
    RunKeepsInv(states, steps, k);
    ClockOfRun(states, steps, k, n);
    DeliverGrants(states[k], p);
    assert states[k + 1] == Take(states[k], steps[k]);
    GrantedStays(states, steps, k + 1, n, p.client, p.ino, p.due);
    RunKeepsInv(states, steps, n);
    var key := (p.client, p.ino);
    assert Told(states[n], key.0, key.1, states[n].held[key].due, states[n].held[key].leader);
  }

  /**
   * An expired lease passes to the client that asks: once the answer to a request that found the lease expired is
   * delivered, that client holds the directory until the end of the new period, and nobody else does.
   */
  lemma ExpiredLeasePassesOn(states: seq<State>, steps: seq<Step>, i: nat, k: nat, n: nat, r: Request, stamped: Time,
                             p: Response, other: Addr)
    requires Run(states, steps) && i < k < n < |states| && steps[i] == Cas(r, stamped) && steps[k] == Deliver(p)
    requires r.ino in states[i].manager && states[i].manager[r.ino].due <= states[i].clock
    requires p == Response(r.id, r.client, r.ino, stamped + LEASE_PERIOD, true)
    requires states[n].clock < stamped + LEASE_PERIOD
    ensures p in states[i + 1].responses
    ensures IsMine(states[n], r.client, r.ino)
    ensures IsMine(states[n], other, r.ino) ==> other == r.client
  {
    assert states[i + 1] == Take(states[i], steps[i]);
    CasAnswers(states[i], r, stamped);
    GrantedUntilDue(states, steps, k, n, p);
    MutualExclusion(states, steps, n, r.ino, r.client, other);
  }
}
