/** The two lease tables: the manager's, which grants, and a client's, which remembers what it was told. */
module LeaseTables {
  import opened Bytes

  /** A point of the shared, non-decreasing clock. */
  type Time = int

  /** The remote address a client announces; distinct clients announce distinct addresses. */
  type Addr = string

  /** `LEASE_PERIOD_MS`. */
  const LEASE_PERIOD: nat := 200000000

  /** The manager's record for one directory. */
  datatype Lease = Lease(due: Time, addr: Addr)

  /** A client's record for one directory. */
  datatype Held = Held(due: Time, leader: bool)

  /** The lease after `addr` asked for it; `checked` and `stamped` are the two clock readings of `cas`. */
  function CasLease(e: Lease, addr: Addr, checked: Time, stamped: Time): Lease {
    if checked >= e.due then Lease(stamped + LEASE_PERIOD, addr) else e
  }

  /** `set_info`: only a later due replaces what is known. */
  function Learn(known: Option<Held>, due: Time, mine: bool): Held {
    if known.Some? && due <= known.value.due then known.value else Held(due, mine)
  }

  /** `lease_table::lease_entry`. */
  class LeaseEntry {
    var due: Time
    var addr: Addr

    ghost function View(): Lease
      reads this
    {
      Lease(due, addr)
    }

    constructor (remote: Addr, now: Time)
      ensures View() == Lease(now + LEASE_PERIOD, remote)
    {
      due, addr := now + LEASE_PERIOD, remote;
    }

    method Cas(remote: Addr, checked: Time, stamped: Time) returns (granted: bool, latestDue: Time, leader: Addr)
      requires checked <= stamped
      modifies this
      ensures old(due) <= checked ==> due == stamped + LEASE_PERIOD && addr == remote
      ensures checked < old(due) ==> due == old(due) && addr == old(addr)
      ensures granted <==> old(due) <= checked || old(addr) == remote
      ensures latestDue == due && leader == addr
      ensures View() == CasLease(old(View()), remote, checked, stamped)
    {
      if checked >= due {
        due := stamped + LEASE_PERIOD;
        addr := remote;
        granted, latestDue, leader := true, due, remote;
      } else if addr == remote {
        granted, latestDue, leader := true, due, remote;
      } else {
        granted, latestDue, leader := false, due, addr;
      }
    }
  }

  /** `lease_table` of the manager. Its two critical sections are two methods: other requests may run in between. */
  class LeaseTable {
    var entries: map<Uuid, LeaseEntry>

    ghost predicate Valid()
      reads this
    {
      forall i, j :: i in entries && j in entries && i != j ==> entries[i] != entries[j]
    }

    ghost function View(): map<Uuid, Lease>
      reads this, entries.Values
    {
      map ino | ino in entries :: entries[ino].View()
    }

    /** The shared-lock section and, on a hit, `cas`. */
    method AcquireFound(ino: Uuid, remote: Addr, checked: Time, stamped: Time)
        returns (found: bool, granted: bool, latestDue: Time, leader: Addr)
      requires Valid() && checked <= stamped
      modifies entries.Values
      ensures Valid() && entries == old(entries)
      ensures found <==> ino in old(View())
      ensures !found ==> View() == old(View())
      ensures found ==> var was := old(View())[ino]; var expired := was.due <= checked;
                && View() == old(View())[ino := if expired then Lease(stamped + LEASE_PERIOD, remote) else was]
                && (granted <==> expired || was.addr == remote)
                && latestDue == View()[ino].due && leader == View()[ino].addr
      ensures found ==> View()[ino] == CasLease(old(View())[ino], remote, checked, stamped)
    {
      if ino in entries {
        var e := entries[ino];
        granted, latestDue, leader := e.Cas(remote, checked, stamped);
        found := true;
      } else {
        found, granted, latestDue, leader := false, false, 0, remote;
      }
    }

    /** The exclusive section: insert, or, if another request inserted first, report that entry as it stands. */
    method AcquireInsert(ino: Uuid, remote: Addr, now: Time) returns (granted: bool, latestDue: Time)
      requires Valid()
      modifies this
      ensures Valid()
      ensures View() == if ino in old(View()) then old(View())
              else old(View())[ino := Lease(now + LEASE_PERIOD, remote)]
      ensures granted <==> View()[ino].addr == remote
      ensures latestDue == View()[ino].due
    {
      if ino !in entries {
        var e := new LeaseEntry(remote, now);
        entries := entries[ino := e];
        latestDue, granted := e.due, true;
      } else {
        var e := entries[ino];
        latestDue, granted := e.due, e.addr == remote;
      }
    }
  }

  /** `lease_table_client`. */
  class LeaseTableClient {
    var entries: map<Uuid, Held>

    function Known(ino: Uuid): Option<Held>
      reads this
    {
      if ino in entries then Some(entries[ino]) else None
    }

    constructor ()
      ensures entries == map[]
    {
      entries := map[];
    }

    method IsValid(ino: Uuid, now: Time) returns (r: bool)
      ensures r <==> ino in entries && now < entries[ino].due
    {
      if ino !in entries {
        return false;
      }
      r := now < entries[ino].due;
    }

    method IsMine(ino: Uuid, now: Time) returns (r: bool)
      ensures r <==> ino in entries && entries[ino].leader && now < entries[ino].due
    {
      if ino !in entries {
        return false;
      }
      var e := entries[ino];
      r := e.leader && now < e.due;
    }

    method Update(ino: Uuid, due: Time, mine: bool)
      modifies this
      ensures ino in old(entries) && due <= old(entries)[ino].due ==> entries == old(entries)
      ensures ino !in old(entries) || old(entries)[ino].due < due ==>
                entries == old(entries)[ino := Held(due, mine)]
      ensures entries == old(entries)[ino := Learn(old(Known(ino)), due, mine)]
    {
      if ino in entries {
        if due > entries[ino].due {
          entries := entries[ino := Held(due, mine)];
        }
      } else {
        entries := entries[ino := Held(due, mine)];
      }
    }
  }

  /** The manager's reply to a request: the due, whether the lease was granted, and the leader it names. */
  datatype Verdict = Verdict(due: Time, granted: bool, leader: Addr)

  /**
   * `lease_client::acquire`: a lease already mine needs no request; `None` for the answer is a failed RPC, which
   * throws. Only a refusal overwrites the caller's address, with the leader's.
   */
  method AcquireLease(table: LeaseTableClient, ino: Uuid, now: Time, answer: Option<Verdict>, addr: Addr)
    returns (r: Option<bool>, leader: Addr)
    modifies table
    ensures var known := old(table.Known(ino)); var mine := known.Some? && known.value.leader && now < known.value.due;
            && (r.None? <==> !mine && answer.None?)
            && (r == Some(true) <==> mine || (answer.Some? && answer.value.granted))
            && leader == (if r == Some(false) then answer.value.leader else addr)
            && table.entries == if mine || answer.None? then old(table.entries)
                                else old(table.entries)[ino := Learn(known, answer.value.due, answer.value.granted)]
  {
    leader := addr;
    var mine := table.IsMine(ino, now);
    if mine {
      return Some(true), leader;
    }
    if answer.None? {
      return None, leader;
    }
    table.Update(ino, answer.value.due, answer.value.granted);
    if !answer.value.granted {
      leader := answer.value.leader;
    }
    r := Some(answer.value.granted);
  }
}
