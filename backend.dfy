/** The canister as one object whose fields are its stable state, and its
    entry points as methods that change those fields step by step in the
    order the service does. Each update method is proved to leave exactly
    the state, and give exactly the reply, of its transition in module
    Registry, and to keep the registry invariant. */
module Backend {
  import opened Types
  import opened Text
  import opened OrderedStore
  import Registry

  /** The user-payload check of `add_user` and `update_user`: the email or the
      username is empty once trimmed, which is exactly when it is blank. */
  function TrimsToEmpty(payload: UserPayload): (b: bool)
    ensures b <==> IsBlank(payload.email) || IsBlank(payload.username)
  {
    TrimIsEmptyIffBlank(payload.email);
    TrimIsEmptyIffBlank(payload.username);
    Trim(payload.email) == [] || Trim(payload.username) == []
  }

  class Canister {
    /** Whether a text is accepted as a principal by the principal parser. */
    const isPrincipalText: string -> bool
    /** The shared id counter: the id the next created port or user gets. */
    var counter: u64
    /** The administrator identity, in textual form. */
    var admin: AdminPrincipal
    /** The port store, keyed by port id. */
    var ports: map<u64, Port>
    /** The user store, keyed by user id. */
    var users: map<u64, User>

    /** The current state as a value. */
    function Snapshot(): Registry.State
      reads this
    {
      Registry.State(counter, admin, ports, users)
    }

    ghost predicate Valid()
      reads this
    {
      Registry.Valid(Snapshot())
    }

    /** Installation: the counter at 0, the admin cell at the empty text, both
        stores empty. */
    constructor (isPrincipalText: string -> bool)
      ensures this.isPrincipalText == isPrincipalText
      ensures Snapshot() == Registry.Installed()
      ensures Valid()
    {
      this.isPrincipalText := isPrincipalText;
      counter := 0;
      admin := AdminPrincipal("");
      ports := map[];
      users := map[];
    }

    /** `init`: store the installing caller's text as the admin identity. */
    method Init(caller: string)
      requires Valid()
      modifies this
      ensures Valid()
      ensures Snapshot() == Registry.Init(old(Snapshot()), caller)
    {
      admin := AdminPrincipal(caller);
    }

    /** `is_caller_admin`. */
    function IsCallerAdmin(caller: string): (r: Result<()>)
      reads this
      ensures r.Ok? <==> isPrincipalText(admin.text) && admin.text == caller
      ensures r.Err? ==> r.error == Unauthorized
    {
      Registry.Authorize(isPrincipalText, admin, caller)
    }

    /** Take the next id from the shared counter: the counter's value before
        the increment. */
    method NextId() returns (id: u64)
      requires counter < U64_MAX
      modifies this`counter
      ensures id == old(counter) && counter == old(counter) + 1
    {
      id := counter;
      counter := counter + 1;
    }

    /** `do_insert_port`: store the port under its own id, replacing any
        port already there. */
    method DoInsertPort(port: Port)
      modifies this`ports
      ensures ports == old(ports)[port.id := port]
    {
      ports := ports[port.id := port];
    }

    /** `do_insert_user`: store the user under its own id, replacing any
        user already there. */
    method DoInsertUser(user: User)
      modifies this`users
      ensures users == old(users)[user.user_id := user]
    {
      users := users[user.user_id := user];
    }

    /** The port store's `remove`: take the port out and return it, if any. */
    method RemovePort(id: u64) returns (removed: Option<Port>)
      modifies this`ports
      ensures removed == if id in old(ports) then Some(old(ports)[id]) else None
      ensures ports == if id in old(ports) then old(ports) - {id} else old(ports)
    {
      if id in ports {
        removed := Some(ports[id]);
        ports := ports - {id};
      } else {
        removed := None;
      }
    }

    /** The user store's `remove`: take the user out and return it, if any. */
    method RemoveUser(id: u64) returns (removed: Option<User>)
      modifies this`users
      ensures removed == if id in old(users) then Some(old(users)[id]) else None
      ensures users == if id in old(users) then old(users) - {id} else old(users)
    {
      if id in users {
        removed := Some(users[id]);
        users := users - {id};
      } else {
        removed := None;
      }
    }

    /** `_get_port`. */
    function LookupPort(id: u64): (r: Option<Port>)
      reads this
      ensures r.Some? <==> id in ports
      ensures r.Some? ==> r.value == ports[id] && r.value in ports.Values
    {
      if id in ports then Some(ports[id]) else None
    }

    /** `_get_user`. */
    function LookupUser(id: u64): (r: Option<User>)
      reads this
      ensures r.Some? <==> id in users
      ensures r.Some? ==> r.value == users[id] && r.value in users.Values
    {
      if id in users then Some(users[id]) else None
    }

    // -------------------------------------------------------------------
    // Queries
    // -------------------------------------------------------------------

    /** `get_port`. */
    function GetPort(id: u64): (r: Result<Port>)
      reads this
      ensures r == Registry.GetPort(Snapshot(), id)
    {
      match LookupPort(id)
      case Some(port) => Ok(port)
      case None => Err(NotFound)
    }

    /** `get_user`. */
    function GetUser(id: u64): (r: Result<User>)
      reads this
      ensures r == Registry.GetUser(Snapshot(), id)
    {
      match LookupUser(id)
      case Some(user) => Ok(user)
      case None => Err(NotFound)
    }

    /** `get_all_ports`. */
    function GetAllPorts(): seq<Port>
      reads this
    {
      Registry.AllPorts(Snapshot())
    }

    /** `get_all_users`. */
    function GetAllUsers(): seq<User>
      reads this
    {
      Registry.AllUsers(Snapshot())
    }

    /** `get_admin`. */
    function GetAdmin(): AdminPrincipal
      reads this
    {
      Registry.GetAdmin(Snapshot())
    }

    // -------------------------------------------------------------------
    // Ports
    // -------------------------------------------------------------------

    /** `add_port`. */
    method AddPort(caller: string, payload: PortPayload) returns (r: Result<Port>)
      requires Valid()
      requires Registry.IsAdmin(isPrincipalText, admin, caller) ==> counter < U64_MAX
      modifies this
      ensures Valid()
      ensures (Snapshot(), r) == Registry.AddPort(old(Snapshot()), isPrincipalText, caller, payload)
    {
      Registry.AddPortKeepsValid(Snapshot(), isPrincipalText, caller, payload);
      var auth := IsCallerAdmin(caller);
      if auth.Err? {
        return Err(auth.error);
      }
      var portId := NextId();
      var port := Port(portId, payload.name, payload.location, payload.capacity, 0);
      DoInsertPort(port);
      r := Ok(port);
    }

    /** `update_port`. */
    method UpdatePort(caller: string, id: u64, payload: PortPayload) returns (r: Result<Port>)
      requires Valid()
      modifies this
      ensures Valid()
      ensures (Snapshot(), r) == Registry.UpdatePort(old(Snapshot()), isPrincipalText, caller, id, payload)
    {
      Registry.UpdatePortKeepsValid(Snapshot(), isPrincipalText, caller, id, payload);
      var auth := IsCallerAdmin(caller);
      if auth.Err? {
        return Err(auth.error);
      }
      match LookupPort(id)
      case Some(stored) =>
        var port := stored;
        port := port.(name := payload.name);
        port := port.(location := payload.location);
        port := port.(capacity := payload.capacity);
        DoInsertPort(port);
        r := Ok(port);
      case None =>
        r := Err(NotFound);
    }

    /** `delete_port`. */
    method DeletePort(caller: string, id: u64) returns (r: Result<Port>)
      requires Valid()
      modifies this
      ensures Valid()
      ensures (Snapshot(), r) == Registry.DeletePort(old(Snapshot()), isPrincipalText, caller, id)
    {
      Registry.DeletePortKeepsValid(Snapshot(), isPrincipalText, caller, id);
      var auth := IsCallerAdmin(caller);
      if auth.Err? {
        return Err(auth.error);
      }
      var removed := RemovePort(id);
      match removed
      case Some(port) => r := Ok(port);
      case None => r := Err(NotFound);
    }

    /** `add_ship_to_port`. */
    method AddShipToPort(caller: string, id: u64) returns (r: Result<()>)
      requires Valid()
      requires Registry.IsAdmin(isPrincipalText, admin, caller) && id in ports ==> ports[id].current_ships < U32_MAX
      modifies this
      ensures Valid()
      ensures (Snapshot(), r) == Registry.AddShipToPort(old(Snapshot()), isPrincipalText, caller, id)
    {
      Registry.AddShipToPortKeepsValid(Snapshot(), isPrincipalText, caller, id);
      var auth := IsCallerAdmin(caller);
      if auth.Err? {
        return Err(auth.error);
      }
      match LookupPort(id)
      case Some(stored) =>
        var port := stored;
        port := port.(current_ships := port.current_ships + 1);
        DoInsertPort(port);
        r := Ok(());
      case None =>
        r := Err(NotFound);
    }

    /** `ships_arrival`. */
    method ShipsArrival(caller: string, id: u64, numShips: u32) returns (r: Result<()>)
      requires Valid()
      requires Registry.IsAdmin(isPrincipalText, admin, caller) && id in ports ==> ports[id].current_ships + numShips <= U32_MAX
      modifies this
      ensures Valid()
      ensures (Snapshot(), r) == Registry.ShipsArrival(old(Snapshot()), isPrincipalText, caller, id, numShips)
    {
      Registry.ShipsArrivalKeepsValid(Snapshot(), isPrincipalText, caller, id, numShips);
      var auth := IsCallerAdmin(caller);
      if auth.Err? {
        return Err(auth.error);
      }
      match LookupPort(id)
      case Some(stored) =>
        var port := stored;
        port := port.(current_ships := port.current_ships + numShips);
        DoInsertPort(port);
        r := Ok(());
      case None =>
        r := Err(NotFound);
    }

    /** `transfer_ships_admin`: two independent copies are read, changed and
        written back, source first and destination last. */
    method TransferShips(caller: string, source: u64, destination: u64, numShips: u32) returns (r: Result<()>)
      requires Valid()
      requires Registry.TransferAllowed(Snapshot(), isPrincipalText, caller, source, destination, numShips) ==>
        ports[destination].current_ships + numShips <= U32_MAX
      modifies this
      ensures Valid()
      ensures (Snapshot(), r) == Registry.TransferShips(old(Snapshot()), isPrincipalText, caller, source, destination, numShips)
    {
      Registry.TransferShipsKeepsValid(Snapshot(), isPrincipalText, caller, source, destination, numShips);
      var auth := IsCallerAdmin(caller);
      if auth.Err? {
        return Err(auth.error);
      }
      var sourcePort: Port;
      match LookupPort(source) {
        case Some(port) => sourcePort := port;
        case None => return Err(NotFound);
      }
      if sourcePort.current_ships < numShips {
        return Err(NotFound);
      }
      var destinationPort: Port;
      match LookupPort(destination) {
        case Some(port) => destinationPort := port;
        case None => return Err(NotFound);
      }
      sourcePort := sourcePort.(current_ships := sourcePort.current_ships - numShips);
      destinationPort := destinationPort.(current_ships := destinationPort.current_ships + numShips);
      DoInsertPort(sourcePort);
      DoInsertPort(destinationPort);
      r := Ok(());
    }

    // -------------------------------------------------------------------
    // Users
    // -------------------------------------------------------------------

    /** `add_user`. */
    method AddUser(payload: UserPayload) returns (r: Result<User>)
      requires Valid()
      requires !Registry.BlankPayload(payload) ==> counter < U64_MAX
      modifies this
      ensures Valid()
      ensures (Snapshot(), r) == Registry.AddUser(old(Snapshot()), payload)
    {
      Registry.AddUserKeepsValid(Snapshot(), payload);
      if TrimsToEmpty(payload) {
        return Err(InvalidUserPayload(payload));
      }
      var userId := NextId();
      var user := User(userId, payload.username, payload.email);
      DoInsertUser(user);
      r := Ok(user);
    }

    /** `update_user`. */
    method UpdateUser(id: u64, payload: UserPayload) returns (r: Result<User>)
      requires Valid()
      modifies this
      ensures Valid()
      ensures (Snapshot(), r) == Registry.UpdateUser(old(Snapshot()), id, payload)
    {
      Registry.UpdateUserKeepsValid(Snapshot(), id, payload);
      if TrimsToEmpty(payload) {
        return Err(InvalidUserPayload(payload));
      }
      match LookupUser(id)
      case Some(stored) =>
        var user := stored;
        user := user.(username := payload.username);
        user := user.(email := payload.email);
        DoInsertUser(user);
        r := Ok(user);
      case None =>
        r := Err(NotFound);
    }

    /** `delete_user`. */
    method DeleteUser(id: u64) returns (r: Result<User>)
      requires Valid()
      modifies this
      ensures Valid()
      ensures (Snapshot(), r) == Registry.DeleteUser(old(Snapshot()), id)
    {
      Registry.DeleteUserKeepsValid(Snapshot(), id);
      var removed := RemoveUser(id);
      match removed
      case Some(user) => r := Ok(user);
      case None => r := Err(NotFound);
    }
  }
}
