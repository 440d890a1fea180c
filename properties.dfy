/** Properties that relate several entry points of the registry, or that
    follow from one of them over the whole store. */
module Properties {
  import opened Types
  import opened OrderedStore
  import opened Registry

  // ---------------------------------------------------------------------
  // Read-after-write
  // ---------------------------------------------------------------------

  /** A created port is found under its id, exactly as returned. */
  lemma AddPortThenGet(s: State, isPrincipalText: string -> bool, caller: string, payload: PortPayload)
    requires IsAdmin(isPrincipalText, s.admin, caller) ==> s.counter < U64_MAX
    ensures var (s', r) := AddPort(s, isPrincipalText, caller, payload);
      r.Ok? ==> GetPort(s', r.value.id) == Ok(r.value)
  {
  }

  /** A created user is found under its id, exactly as returned. */
  lemma AddUserThenGet(s: State, payload: UserPayload)
    requires !BlankPayload(payload) ==> s.counter < U64_MAX
    ensures var (s', r) := AddUser(s, payload);
      r.Ok? ==> GetUser(s', r.value.user_id) == Ok(r.value)
  {
  }

  /** After `update_port`, `get_port` returns the new name, location and
      capacity with the old id and ship count. */
  lemma UpdatePortThenGet(s: State, isPrincipalText: string -> bool, caller: string, id: u64, payload: PortPayload)
    requires Valid(s)
    ensures var (s', r) := UpdatePort(s, isPrincipalText, caller, id, payload);
      r.Ok? ==>
        && GetPort(s', id) == Ok(r.value)
        && r.value == Port(id, payload.name, payload.location, payload.capacity, s.ports[id].current_ships)
  {
  }

  /** After `update_user`, `get_user` returns the new username and email
      under the old id. */
  lemma UpdateUserThenGet(s: State, id: u64, payload: UserPayload)
    requires Valid(s)
    ensures var (s', r) := UpdateUser(s, id, payload);
      r.Ok? ==> GetUser(s', id) == Ok(r.value) && r.value == User(id, payload.username, payload.email)
  {
  }

  /** After a successful `delete_port` the id is no longer found. */
  lemma DeletePortThenGet(s: State, isPrincipalText: string -> bool, caller: string, id: u64)
    ensures var (s', r) := DeletePort(s, isPrincipalText, caller, id);
      r.Ok? ==> GetPort(s', id) == Err(NotFound) && |s'.ports| == |s.ports| - 1
  {
  }

  /** After a successful `delete_user` the id is no longer found. */
  lemma DeleteUserThenGet(s: State, id: u64)
    ensures var (s', r) := DeleteUser(s, id);
      r.Ok? ==> GetUser(s', id) == Err(NotFound) && |s'.users| == |s.users| - 1
  {
  }

  /** After `init`, `get_admin` returns the installing caller's text. */
  lemma InitThenGetAdmin(s: State, installer: string)
    ensures GetAdmin(Init(s, installer)) == AdminPrincipal(installer)
  {
  }

  // ---------------------------------------------------------------------
  // The admin gate
  // ---------------------------------------------------------------------

  /** A caller that does not pass the admin check gets `Unauthorized` from
      every gated entry point, and the state is left as it was. */
  lemma NonAdminChangesNothing(s: State, isPrincipalText: string -> bool, caller: string, id: u64, other: u64, payload: PortPayload, numShips: u32)
    requires !IsAdmin(isPrincipalText, s.admin, caller)
    ensures AddPort(s, isPrincipalText, caller, payload) == (s, Err(Unauthorized))
    ensures UpdatePort(s, isPrincipalText, caller, id, payload) == (s, Err(Unauthorized))
    ensures DeletePort(s, isPrincipalText, caller, id) == (s, Err(Unauthorized))
    ensures AddShipToPort(s, isPrincipalText, caller, id) == (s, Err(Unauthorized))
    ensures ShipsArrival(s, isPrincipalText, caller, id, numShips) == (s, Err(Unauthorized))
    ensures TransferShips(s, isPrincipalText, caller, id, other, numShips) == (s, Err(Unauthorized))
  {
  }

  // ---------------------------------------------------------------------
  // Listing
  // ---------------------------------------------------------------------

  /** `get_all_ports` lists every stored port once, in ascending id order. */
  lemma AllPortsInIdOrder(s: State)
    requires Valid(s)
    ensures var r := AllPorts(s);
      && |r| == |s.ports|
      && (forall i, j :: 0 <= i < j < |r| ==> r[i].id < r[j].id)
      && (forall p :: p in r <==> p.id in s.ports && s.ports[p.id] == p)
  {
    var r := AllPorts(s);
    var keys := SortedKeys(s.ports.Keys);
    assert forall i :: 0 <= i < |r| ==> r[i].id == keys[i];
    forall p: Port | p.id in s.ports && s.ports[p.id] == p ensures p in r {
      var i :| 0 <= i < |keys| && keys[i] == p.id;
      assert r[i] == p;
    }
  }

  /** `get_all_users` lists every stored user once, in ascending id order. */
  lemma AllUsersInIdOrder(s: State)
    requires Valid(s)
    ensures var r := AllUsers(s);
      && |r| == |s.users|
      && (forall i, j :: 0 <= i < j < |r| ==> r[i].user_id < r[j].user_id)
      && (forall u :: u in r <==> u.user_id in s.users && s.users[u.user_id] == u)
  {
    var r := AllUsers(s);
    var keys := SortedKeys(s.users.Keys);
    assert forall i :: 0 <= i < |r| ==> r[i].user_id == keys[i];
    forall u: User | u.user_id in s.users && s.users[u.user_id] == u ensures u in r {
      var i :| 0 <= i < |keys| && keys[i] == u.user_id;
      assert r[i] == u;
    }
  }

  // ---------------------------------------------------------------------
  // Ship counts
  // ---------------------------------------------------------------------

  /** The number of ships over all stored ports. */
  ghost function TotalShips(m: map<u64, Port>): int
    decreases |m|
  {
    if m == map[] then 0
    else
      var k :| k in m;
      m[k].current_ships + TotalShips(m - {k})
  }

  /** The total does not depend on which port is counted first. */
  lemma {:induction false} TotalShipsWithout(m: map<u64, Port>, k: u64)
    requires k in m
    ensures TotalShips(m) == m[k].current_ships + TotalShips(m - {k})
    decreases |m|
  {
    var j :| j in m && TotalShips(m) == m[j].current_ships + TotalShips(m - {j});
    if j != k {
      TotalShipsWithout(m - {j}, k);
      TotalShipsWithout(m - {k}, j);
      assert m - {j} - {k} == m - {k} - {j};
    }
  }

  /** Replacing one port changes the total by the difference of its counts. */
  lemma TotalShipsReplace(m: map<u64, Port>, k: u64, p: Port)
    requires k in m
    ensures TotalShips(m[k := p]) == TotalShips(m) - m[k].current_ships + p.current_ships
  {
    TotalShipsWithout(m, k);
    TotalShipsWithout(m[k := p], k);
    assert m[k := p] - {k} == m - {k};
  }

  /** `add_ship_to_port` adds one ship to the port and to the total, and
      changes nothing else. */
  lemma AddShipCountsOne(s: State, isPrincipalText: string -> bool, caller: string, id: u64)
    requires Valid(s)
    requires IsAdmin(isPrincipalText, s.admin, caller) && id in s.ports ==> s.ports[id].current_ships < U32_MAX
    ensures var (s', r) := AddShipToPort(s, isPrincipalText, caller, id);
      r.Ok? ==>
        && s'.ports[id] == s.ports[id].(current_ships := s.ports[id].current_ships + 1)
        && (forall k :: k != id ==> (k in s'.ports <==> k in s.ports) && (k in s.ports ==> s'.ports[k] == s.ports[k]))
        && TotalShips(s'.ports) == TotalShips(s.ports) + 1
  {
    var (s', r) := AddShipToPort(s, isPrincipalText, caller, id);
    if r.Ok? {
      TotalShipsReplace(s.ports, id, s'.ports[id]);
    }
  }

  /** `ships_arrival` adds `numShips` ships to the port and to the total, and
      changes nothing else. */
  lemma ShipsArrivalCountsN(s: State, isPrincipalText: string -> bool, caller: string, id: u64, numShips: u32)
    requires Valid(s)
    requires IsAdmin(isPrincipalText, s.admin, caller) && id in s.ports ==> s.ports[id].current_ships + numShips <= U32_MAX
    ensures var (s', r) := ShipsArrival(s, isPrincipalText, caller, id, numShips);
      r.Ok? ==>
        && s'.ports[id] == s.ports[id].(current_ships := s.ports[id].current_ships + numShips)
        && (forall k :: k != id ==> (k in s'.ports <==> k in s.ports) && (k in s.ports ==> s'.ports[k] == s.ports[k]))
        && TotalShips(s'.ports) == TotalShips(s.ports) + numShips
  {
    var (s', r) := ShipsArrival(s, isPrincipalText, caller, id, numShips);
    if r.Ok? {
      TotalShipsReplace(s.ports, id, s'.ports[id]);
    }
  }

  /** A transfer between two different ports moves `numShips` ships from the
      source to the destination: every other field and every other port stay
      as they were, and the total number of ships is preserved. */
  lemma TransferMovesShips(s: State, isPrincipalText: string -> bool, caller: string, source: u64, destination: u64, numShips: u32)
    requires Valid(s)
    requires source != destination
    requires TransferAllowed(s, isPrincipalText, caller, source, destination, numShips)
    requires s.ports[destination].current_ships + numShips <= U32_MAX
    ensures var (s', r) := TransferShips(s, isPrincipalText, caller, source, destination, numShips);
      && r == Ok(())
      && s'.ports[source] == s.ports[source].(current_ships := s.ports[source].current_ships - numShips)
      && s'.ports[destination] == s.ports[destination].(current_ships := s.ports[destination].current_ships + numShips)
      && s'.ports[source].current_ships + s'.ports[destination].current_ships
         == s.ports[source].current_ships + s.ports[destination].current_ships
      && (forall k :: k != source && k != destination ==>
            (k in s'.ports <==> k in s.ports) && (k in s.ports ==> s'.ports[k] == s.ports[k]))
      && TotalShips(s'.ports) == TotalShips(s.ports)
  {
    var (s', r) := TransferShips(s, isPrincipalText, caller, source, destination, numShips);
    var mid := s.ports[source := s'.ports[source]];
    assert s'.ports == mid[destination := s'.ports[destination]];
    TotalShipsReplace(s.ports, source, s'.ports[source]);
    TotalShipsReplace(mid, destination, s'.ports[destination]);
  }

  /** A transfer from a port to itself writes the decremented copy first and
      the incremented copy last, so the port ends with `numShips` MORE ships
      and the total grows by `numShips`. */
  lemma TransferToSelfAddsShips(s: State, isPrincipalText: string -> bool, caller: string, id: u64, numShips: u32)
    requires Valid(s)
    requires TransferAllowed(s, isPrincipalText, caller, id, id, numShips)
    requires s.ports[id].current_ships + numShips <= U32_MAX
    ensures var (s', r) := TransferShips(s, isPrincipalText, caller, id, id, numShips);
      && r == Ok(())
      && s'.ports == s.ports[id := s.ports[id].(current_ships := s.ports[id].current_ships + numShips)]
      && TotalShips(s'.ports) == TotalShips(s.ports) + numShips
  {
    var (s', r) := TransferShips(s, isPrincipalText, caller, id, id, numShips);
    TotalShipsReplace(s.ports, id, s'.ports[id]);
  }
}
