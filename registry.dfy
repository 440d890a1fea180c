/** The registry's state and its entry points as pure state transitions.
    Each update entry point maps the state before the call to the state after
    it together with its reply; the queries only read the state. The class in
    module Backend performs the same steps in place and is proved against
    these functions. */
module Registry {
  import opened Types
  import opened Text
  import opened OrderedStore

  /** The canister's whole state: the shared id counter, the stored admin
      identity and the two stores. */
  datatype State = State(
    counter: u64,
    admin: AdminPrincipal,
    ports: map<u64, Port>,
    users: map<u64, User>)

  /** The state of a freshly installed canister before `init` runs: the
      counter cell starts at 0 and the admin cell at the empty text. */
  function Installed(): State {
    State(0, AdminPrincipal(""), map[], map[])
  }

  /** The registry invariant: every record sits under its own id, every stored
      id was issued by the counter (so it is below it), and since the counter
      is shared no key is both a port and a user. */
  ghost predicate Valid(s: State) {
    && (forall k :: k in s.ports ==> s.ports[k].id == k && k < s.counter)
    && (forall k :: k in s.users ==> s.users[k].user_id == k && k < s.counter)
    && s.ports.Keys !! s.users.Keys
  }

  /** The payload has a username or an email that is empty after trimming
      (see `Text.TrimIsEmptyIffBlank`). */
  predicate BlankPayload(payload: UserPayload) {
    IsBlank(payload.username) || IsBlank(payload.email)
  }

  /** `caller` is the administrator: the stored text parses as a principal
      and names the caller. */
  predicate IsAdmin(isPrincipalText: string -> bool, admin: AdminPrincipal, caller: string) {
    isPrincipalText(admin.text) && admin.text == caller
  }

  // ---------------------------------------------------------------------
  // Administrator identity
  // ---------------------------------------------------------------------

  /** `init`: record the installing caller as the administrator. */
  function Init(s: State, caller: string): (r: State)
    ensures r.admin.text == caller
    ensures r.counter == s.counter && r.ports == s.ports && r.users == s.users
  {
    s.(admin := AdminPrincipal(caller))
  }

  /** `is_caller_admin`: `Unauthorized` when the stored text is not a
      principal, or when it is one other than the caller. */
  function Authorize(isPrincipalText: string -> bool, admin: AdminPrincipal, caller: string): (r: Result<()>)
    ensures r.Ok? <==> IsAdmin(isPrincipalText, admin, caller)
    ensures r.Err? ==> r.error == Unauthorized
  {
    if !isPrincipalText(admin.text) then
      Err(Unauthorized)
    else if admin.text != caller then
      Err(Unauthorized)
    else
      Ok(())
  }

  /** After `init`, exactly the installing caller passes the admin check,
      provided its text is a principal. */
  lemma InitAuthorizesOnlyInstaller(s: State, isPrincipalText: string -> bool, installer: string, caller: string)
    ensures Authorize(isPrincipalText, Init(s, installer).admin, caller).Ok?
        <==> isPrincipalText(installer) && caller == installer
  {
  }

  // ---------------------------------------------------------------------
  // Ports
  // ---------------------------------------------------------------------

  /** `add_port`: admin-gated; the new port takes the counter's value as its
      id, starts with no ships, and the counter goes up by one. */
  function AddPort(s: State, isPrincipalText: string -> bool, caller: string, payload: PortPayload): (r: (State, Result<Port>))
    requires IsAdmin(isPrincipalText, s.admin, caller) ==> s.counter < U64_MAX
    ensures r.1.Ok? <==> IsAdmin(isPrincipalText, s.admin, caller)
    ensures r.1.Err? ==> r.1.error == Unauthorized && r.0 == s
    ensures r.1.Ok? ==>
      && r.1.value == Port(s.counter, payload.name, payload.location, payload.capacity, 0)
      && r.0 == s.(counter := s.counter + 1, ports := s.ports[s.counter := r.1.value])
    ensures Valid(s) && r.1.Ok? ==> r.1.value.id !in s.ports && r.1.value.id !in s.users
  {
    match Authorize(isPrincipalText, s.admin, caller)
    case Err(e) => (s, Err(e))
    case Ok(_) =>
      var id := s.counter;
      var port := Port(id, payload.name, payload.location, payload.capacity, 0);
      (s.(counter := id + 1, ports := s.ports[port.id := port]), Ok(port))
  }

  /** `update_port`: admin-gated; overwrites name, location and capacity of
      the stored port and writes it back under its own id. */
  function UpdatePort(s: State, isPrincipalText: string -> bool, caller: string, id: u64, payload: PortPayload): (r: (State, Result<Port>))
    ensures r.1.Ok? <==> IsAdmin(isPrincipalText, s.admin, caller) && id in s.ports
    ensures r.1.Err? ==> r.0 == s
    ensures r.1.Err? ==> r.1.error == if IsAdmin(isPrincipalText, s.admin, caller) then NotFound else Unauthorized
    ensures r.1.Ok? ==>
      && r.1.value == s.ports[id].(name := payload.name, location := payload.location, capacity := payload.capacity)
      && r.0 == s.(ports := s.ports[r.1.value.id := r.1.value])
    ensures Valid(s) && r.1.Ok? ==> r.0.ports == s.ports[id := r.1.value]
  {
    match Authorize(isPrincipalText, s.admin, caller)
    case Err(e) => (s, Err(e))
    case Ok(_) =>
      if id in s.ports then
        var port := s.ports[id].(name := payload.name, location := payload.location, capacity := payload.capacity);
        (s.(ports := s.ports[port.id := port]), Ok(port))
      else
        (s, Err(NotFound))
  }

  /** `delete_port`: admin-gated; removes the port and returns it. */
  function DeletePort(s: State, isPrincipalText: string -> bool, caller: string, id: u64): (r: (State, Result<Port>))
    ensures r.1.Ok? <==> IsAdmin(isPrincipalText, s.admin, caller) && id in s.ports
    ensures r.1.Err? ==> r.0 == s
    ensures r.1.Err? ==> r.1.error == if IsAdmin(isPrincipalText, s.admin, caller) then NotFound else Unauthorized
    ensures r.1.Ok? ==> r.1.value == s.ports[id] && r.0 == s.(ports := s.ports - {id})
  {
    match Authorize(isPrincipalText, s.admin, caller)
    case Err(e) => (s, Err(e))
    case Ok(_) =>
      if id in s.ports then (s.(ports := s.ports - {id}), Ok(s.ports[id]))
      else (s, Err(NotFound))
  }

  /** `add_ship_to_port`: admin-gated; one more ship at the port. */
  function AddShipToPort(s: State, isPrincipalText: string -> bool, caller: string, id: u64): (r: (State, Result<()>))
    requires IsAdmin(isPrincipalText, s.admin, caller) && id in s.ports ==> s.ports[id].current_ships < U32_MAX
    ensures r.1.Ok? <==> IsAdmin(isPrincipalText, s.admin, caller) && id in s.ports
    ensures r.1.Err? ==> r.0 == s
    ensures r.1.Err? ==> r.1.error == if IsAdmin(isPrincipalText, s.admin, caller) then NotFound else Unauthorized
    ensures r.1.Ok? ==>
      var port := s.ports[id].(current_ships := s.ports[id].current_ships + 1);
      r.0 == s.(ports := s.ports[port.id := port])
  {
    match Authorize(isPrincipalText, s.admin, caller)
    case Err(e) => (s, Err(e))
    case Ok(_) =>
      if id in s.ports then
        var port := s.ports[id];
        var port' := port.(current_ships := port.current_ships + 1);
        (s.(ports := s.ports[port'.id := port']), Ok(()))
      else
        (s, Err(NotFound))
  }

  /** `ships_arrival`: admin-gated; `numShips` more ships at the port. */
  function ShipsArrival(s: State, isPrincipalText: string -> bool, caller: string, id: u64, numShips: u32): (r: (State, Result<()>))
    requires IsAdmin(isPrincipalText, s.admin, caller) && id in s.ports ==> s.ports[id].current_ships + numShips <= U32_MAX
    ensures r.1.Ok? <==> IsAdmin(isPrincipalText, s.admin, caller) && id in s.ports
    ensures r.1.Err? ==> r.0 == s
    ensures r.1.Err? ==> r.1.error == if IsAdmin(isPrincipalText, s.admin, caller) then NotFound else Unauthorized
    ensures r.1.Ok? ==>
      var port := s.ports[id].(current_ships := s.ports[id].current_ships + numShips);
      r.0 == s.(ports := s.ports[port.id := port])
  {
    match Authorize(isPrincipalText, s.admin, caller)
    case Err(e) => (s, Err(e))
    case Ok(_) =>
      if id in s.ports then
        var port := s.ports[id];
        var port' := port.(current_ships := port.current_ships + numShips);
        (s.(ports := s.ports[port'.id := port']), Ok(()))
      else
        (s, Err(NotFound))
  }

  /** `transfer_ships_admin` may run to its writes: admin, source present with
      enough ships, destination present (checked in that order). */
  predicate TransferAllowed(s: State, isPrincipalText: string -> bool, caller: string, source: u64, destination: u64, numShips: u32) {
    && IsAdmin(isPrincipalText, s.admin, caller)
    && source in s.ports
    && s.ports[source].current_ships >= numShips
    && destination in s.ports
  }

  /** `transfer_ships_admin`: reads the source and the destination as two
      separate copies, takes `numShips` off the first, adds them to the
      second, then writes the source back and the destination last. A
      shortage is reported as `NotFound`. */
  function TransferShips(s: State, isPrincipalText: string -> bool, caller: string, source: u64, destination: u64, numShips: u32): (r: (State, Result<()>))
    requires TransferAllowed(s, isPrincipalText, caller, source, destination, numShips) ==>
      s.ports[destination].current_ships + numShips <= U32_MAX
    ensures r.1.Ok? <==> TransferAllowed(s, isPrincipalText, caller, source, destination, numShips)
    ensures r.1.Err? ==> r.0 == s
    ensures r.1.Err? ==> r.1.error == if IsAdmin(isPrincipalText, s.admin, caller) then NotFound else Unauthorized
    ensures r.1.Ok? ==>
      var src := s.ports[source].(current_ships := s.ports[source].current_ships - numShips);
      var dst := s.ports[destination].(current_ships := s.ports[destination].current_ships + numShips);
      r.0 == s.(ports := s.ports[src.id := src][dst.id := dst])
  {
    match Authorize(isPrincipalText, s.admin, caller)
    case Err(e) => (s, Err(e))
    case Ok(_) =>
      if source !in s.ports then
        (s, Err(NotFound))
      else
        var sourcePort := s.ports[source];
        if sourcePort.current_ships < numShips then
          (s, Err(NotFound))
        else if destination !in s.ports then
          (s, Err(NotFound))
        else
          var destinationPort := s.ports[destination];
          var src := sourcePort.(current_ships := sourcePort.current_ships - numShips);
          var dst := destinationPort.(current_ships := destinationPort.current_ships + numShips);
          (s.(ports := s.ports[src.id := src][dst.id := dst]), Ok(()))
  }

  /** `get_port`. */
  function GetPort(s: State, id: u64): (r: Result<Port>)
    ensures r.Ok? <==> id in s.ports
    ensures r.Ok? ==> r.value == s.ports[id]
    ensures r.Err? ==> r.error == NotFound
  {
    if id in s.ports then Ok(s.ports[id]) else Err(NotFound)
  }

  /** `get_all_ports`: the stored ports in ascending key order. */
  function AllPorts(s: State): (r: seq<Port>)
    ensures |r| == |s.ports|
  {
    ValuesByKey(s.ports)
  }

  // ---------------------------------------------------------------------
  // Users
  // ---------------------------------------------------------------------

  /** `add_user`: open to every caller; a blank username or email is
      rejected before the counter is touched; accepted text is stored
      untrimmed. */
  function AddUser(s: State, payload: UserPayload): (r: (State, Result<User>))
    requires !BlankPayload(payload) ==> s.counter < U64_MAX
    ensures r.1.Ok? <==> !BlankPayload(payload)
    ensures r.1.Err? ==> r.1.error == InvalidUserPayload(payload) && r.0 == s
    ensures r.1.Ok? ==>
      && r.1.value == User(s.counter, payload.username, payload.email)
      && r.0 == s.(counter := s.counter + 1, users := s.users[s.counter := r.1.value])
    ensures Valid(s) && r.1.Ok? ==> r.1.value.user_id !in s.ports && r.1.value.user_id !in s.users
  {
    if BlankPayload(payload) then
      (s, Err(InvalidUserPayload(payload)))
    else
      var id := s.counter;
      var user := User(id, payload.username, payload.email);
      (s.(counter := id + 1, users := s.users[user.user_id := user]), Ok(user))
  }

  /** `update_user`: open to every caller; validates the payload first, then
      looks the user up, overwrites username and email and writes it back. */
  function UpdateUser(s: State, id: u64, payload: UserPayload): (r: (State, Result<User>))
    ensures r.1.Ok? <==> !BlankPayload(payload) && id in s.users
    ensures r.1.Err? ==> r.0 == s
    ensures r.1.Err? ==> r.1.error == if BlankPayload(payload) then InvalidUserPayload(payload) else NotFound
    ensures r.1.Ok? ==>
      && r.1.value == s.users[id].(username := payload.username, email := payload.email)
      && r.0 == s.(users := s.users[r.1.value.user_id := r.1.value])
    ensures Valid(s) && r.1.Ok? ==> r.0.users == s.users[id := r.1.value]
  {
    if BlankPayload(payload) then
      (s, Err(InvalidUserPayload(payload)))
    else if id in s.users then
      var user := s.users[id].(username := payload.username, email := payload.email);
      (s.(users := s.users[user.user_id := user]), Ok(user))
    else
      (s, Err(NotFound))
  }

  /** `delete_user`: open to every caller; removes the user and returns it. */
  function DeleteUser(s: State, id: u64): (r: (State, Result<User>))
    ensures r.1.Ok? <==> id in s.users
    ensures r.1.Err? ==> r.1.error == NotFound && r.0 == s
    ensures r.1.Ok? ==> r.1.value == s.users[id] && r.0 == s.(users := s.users - {id})
  {
    if id in s.users then (s.(users := s.users - {id}), Ok(s.users[id]))
    else (s, Err(NotFound))
  }

  /** `get_user`. */
  function GetUser(s: State, id: u64): (r: Result<User>)
    ensures r.Ok? <==> id in s.users
    ensures r.Ok? ==> r.value == s.users[id]
    ensures r.Err? ==> r.error == NotFound
  {
    if id in s.users then Ok(s.users[id]) else Err(NotFound)
  }

  /** `get_all_users`: the stored users in ascending key order. */
  function AllUsers(s: State): (r: seq<User>)
    ensures |r| == |s.users|
  {
    ValuesByKey(s.users)
  }

  /** `get_admin`. */
  function GetAdmin(s: State): AdminPrincipal {
    s.admin
  }

  // ---------------------------------------------------------------------
  // The invariant is kept by every update entry point
  // ---------------------------------------------------------------------

  lemma AddPortKeepsValid(s: State, isPrincipalText: string -> bool, caller: string, payload: PortPayload)
    requires Valid(s)
    requires IsAdmin(isPrincipalText, s.admin, caller) ==> s.counter < U64_MAX
    ensures Valid(AddPort(s, isPrincipalText, caller, payload).0)
  {
  }

  lemma UpdatePortKeepsValid(s: State, isPrincipalText: string -> bool, caller: string, id: u64, payload: PortPayload)
    requires Valid(s)
    ensures Valid(UpdatePort(s, isPrincipalText, caller, id, payload).0)
  {
  }

  lemma DeletePortKeepsValid(s: State, isPrincipalText: string -> bool, caller: string, id: u64)
    requires Valid(s)
    ensures Valid(DeletePort(s, isPrincipalText, caller, id).0)
  {
  }

  lemma AddShipToPortKeepsValid(s: State, isPrincipalText: string -> bool, caller: string, id: u64)
    requires Valid(s)
    requires IsAdmin(isPrincipalText, s.admin, caller) && id in s.ports ==> s.ports[id].current_ships < U32_MAX
    ensures Valid(AddShipToPort(s, isPrincipalText, caller, id).0)
  {
  }

  lemma ShipsArrivalKeepsValid(s: State, isPrincipalText: string -> bool, caller: string, id: u64, numShips: u32)
    requires Valid(s)
    requires IsAdmin(isPrincipalText, s.admin, caller) && id in s.ports ==> s.ports[id].current_ships + numShips <= U32_MAX
    ensures Valid(ShipsArrival(s, isPrincipalText, caller, id, numShips).0)
  {
  }

  lemma TransferShipsKeepsValid(s: State, isPrincipalText: string -> bool, caller: string, source: u64, destination: u64, numShips: u32)
    requires Valid(s)
    requires TransferAllowed(s, isPrincipalText, caller, source, destination, numShips) ==>
      s.ports[destination].current_ships + numShips <= U32_MAX
    ensures Valid(TransferShips(s, isPrincipalText, caller, source, destination, numShips).0)
  {
  }

  lemma AddUserKeepsValid(s: State, payload: UserPayload)
    requires Valid(s)
    requires !BlankPayload(payload) ==> s.counter < U64_MAX
    ensures Valid(AddUser(s, payload).0)
  {
  }

  lemma UpdateUserKeepsValid(s: State, id: u64, payload: UserPayload)
    requires Valid(s)
    ensures Valid(UpdateUser(s, id, payload).0)
  {
  }

  lemma DeleteUserKeepsValid(s: State, id: u64)
    requires Valid(s)
    ensures Valid(DeleteUser(s, id).0)
  {
  }
}
