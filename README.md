# Port management canister — a Dafny model

The backend canister keeps a registry of ports and users. It holds four pieces of stable state:
- a shared `u64` id counter;
- the administrator identity, stored as principal text;
- a port store and a user store, each an ordered map keyed by `u64` id.

`init` records the installing caller as the administrator. The port entry points are all admin-gated (`is_caller_admin`):
- creating, updating and deleting ports;
- adding one ship or `num_ships` ships to a port;
- moving ships between two ports.

The user entry points (`add_user`, `update_user`, `delete_user`) are open to every caller. `add_user` and `update_user` reject a username or email that is empty after trimming. Queries return one record, every record in ascending id order, or the admin text.

The model has two layers:
- **Specification.** Module `Registry` gives every entry point as a pure transition over a `State` value: it returns the new state and the reply. Module `Properties` proves what the entry points promise together: read-after-write, the admin gate, listing order, and ship counts. Module `Calls` runs whole histories of calls. It proves that the shared counter hands out strictly increasing ids, that no issued id was already a key, and that the registry invariant holds throughout.
- **Canister.** Module `Backend` holds class `Canister`, whose fields are the stable state. Its methods change those fields step by step, in the order the service does: read the counter, take the next id, build the record, insert it under its own id. Each update method is proved to produce exactly its `Registry` transition, with the same new state and the same reply, and to keep the invariant.

Supporting modules:
- `Types` holds the records, payloads and errors.
- `Text` models `trim()` over Rust's Unicode whitespace set.
- `OrderedStore` models the stores' ascending-key iteration.

The principal parser `Principal::from_text` is a parameter, `isPrincipalText`. The caller (`ic_cdk::caller()`) is a parameter. A principal is identified with its text, so "the parsed admin principal equals the caller" becomes "the admin text parses and equals the caller's text".

## Model

| member | source | states |
|---|---|---|
| Text.TrimStart | src/icp_rust_boilerplate_backend/src/lib.rs:110 | The result is a suffix of the input. The part removed is all whitespace. The result is empty or starts with a non-whitespace character. |
| Text.TrimEnd | src/icp_rust_boilerplate_backend/src/lib.rs:110 | The result is a prefix of the input. The part removed is all whitespace. The result is empty or ends with a non-whitespace character. |
| Text.TrimIsEmptyIffBlank | src/icp_rust_boilerplate_backend/src/lib.rs:110 | `trim().is_empty()` holds exactly when every character of the text is whitespace. |
| Backend.TrimsToEmpty | src/icp_rust_boilerplate_backend/src/lib.rs:154 | The payload check (email or username empty after trimming) holds exactly when one of the two is blank. |
| OrderedStore.SortedKeys | src/icp_rust_boilerplate_backend/src/lib.rs:248 | The store's keys in strictly ascending order, each key exactly once, and no other values. |
| OrderedStore.ValuesByKey | src/icp_rust_boilerplate_backend/src/lib.rs:248 | The store's `iter()` yields one value per key. The i-th value is the one stored under the i-th smallest key. |
| Registry.Init | src/icp_rust_boilerplate_backend/src/lib.rs:40-43 | `init` sets the admin text to the caller. Counter and stores are unchanged. |
| Registry.Authorize | src/icp_rust_boilerplate_backend/src/lib.rs:67-83 | `is_caller_admin` succeeds exactly when the stored admin text parses as a principal and equals the caller. Every failure is `Unauthorized`. |
| Registry.InitAuthorizesOnlyInstaller | src/icp_rust_boilerplate_backend/src/lib.rs:40-83 | After `init`, the admin check passes exactly for the installing caller, and only if its text parses as a principal. |
| Registry.AddPort | src/icp_rust_boilerplate_backend/src/lib.rs:85-106 | Succeeds exactly for the admin. Otherwise `Unauthorized` and nothing changes. The new port has the counter's old value as id, the payload's fields and 0 ships. The counter goes up by one. Under the invariant, the new id was neither a port nor a user key. |
| Registry.UpdatePort | src/icp_rust_boilerplate_backend/src/lib.rs:130-145 | Succeeds exactly for the admin on a stored id. Errors are `Unauthorized` before `NotFound` and leave the state alone. Name, location and capacity are replaced. Id and ship count are kept. Only that key of the port store changes. |
| Registry.DeletePort | src/icp_rust_boilerplate_backend/src/lib.rs:175-184 | Succeeds exactly for the admin on a stored id. Returns the removed port and removes only that key. Errors are `Unauthorized`, then `NotFound`, and leave the state alone. |
| Registry.AddShipToPort | src/icp_rust_boilerplate_backend/src/lib.rs:206-224 | Succeeds exactly for the admin on a stored id. The port's ship count goes up by one. Errors are `Unauthorized` or `NotFound` and leave the state alone. |
| Registry.ShipsArrival | src/icp_rust_boilerplate_backend/src/lib.rs:226-244 | Succeeds exactly for the admin on a stored id. The port's ship count goes up by `numShips`. Errors are `Unauthorized` or `NotFound` and leave the state alone. |
| Registry.TransferShips | src/icp_rust_boilerplate_backend/src/lib.rs:264-304 | Succeeds exactly when the caller is admin, the source exists with at least `numShips` ships, and the destination exists. A non-admin caller gets `Unauthorized`. Every later failure, a shortage included, is `NotFound`. No failure changes the state. On success the decremented source copy is written first and the incremented destination copy last. |
| Registry.GetPort | src/icp_rust_boilerplate_backend/src/lib.rs:47-55 | `Ok` exactly when the id is stored, with the stored port. Otherwise `NotFound`. |
| Registry.AllPorts | src/icp_rust_boilerplate_backend/src/lib.rs:246-249 | One entry per stored port. Order and contents are stated by `Properties.AllPortsInIdOrder`. |
| Registry.AddUser | src/icp_rust_boilerplate_backend/src/lib.rs:108-128 | Succeeds exactly when neither username nor email is blank. Otherwise `InvalidUserPayload` carries the payload, and the counter is untouched. The new user has the counter's old value as id and the untrimmed texts. The counter goes up by one. Under the invariant, the id was neither a port nor a user key. |
| Registry.UpdateUser | src/icp_rust_boilerplate_backend/src/lib.rs:152-168 | Succeeds exactly for a non-blank payload on a stored id. The payload check comes before the lookup. Username and email are replaced and the id is kept. Errors leave the state alone. |
| Registry.DeleteUser | src/icp_rust_boilerplate_backend/src/lib.rs:186-194 | Succeeds exactly on a stored id, for any caller. Returns the removed user and removes only that key. Otherwise `NotFound`. |
| Registry.GetUser | src/icp_rust_boilerplate_backend/src/lib.rs:57-65 | `Ok` exactly when the id is stored, with the stored user. Otherwise `NotFound`. |
| Registry.AllUsers | src/icp_rust_boilerplate_backend/src/lib.rs:251-254 | One entry per stored user. Order and contents are stated by `Properties.AllUsersInIdOrder`. |
| Registry.AddPortKeepsValid | src/icp_rust_boilerplate_backend/src/lib.rs:85-106 | `add_port` keeps the invariant: records under their own ids, ids below the counter, no key both a port and a user. |
| Registry.UpdatePortKeepsValid | src/icp_rust_boilerplate_backend/src/lib.rs:130-145 | `update_port` keeps the invariant. |
| Registry.DeletePortKeepsValid | src/icp_rust_boilerplate_backend/src/lib.rs:175-184 | `delete_port` keeps the invariant. |
| Registry.AddShipToPortKeepsValid | src/icp_rust_boilerplate_backend/src/lib.rs:206-224 | `add_ship_to_port` keeps the invariant. |
| Registry.ShipsArrivalKeepsValid | src/icp_rust_boilerplate_backend/src/lib.rs:226-244 | `ships_arrival` keeps the invariant. |
| Registry.TransferShipsKeepsValid | src/icp_rust_boilerplate_backend/src/lib.rs:264-304 | `transfer_ships_admin` keeps the invariant. |
| Registry.AddUserKeepsValid | src/icp_rust_boilerplate_backend/src/lib.rs:108-128 | `add_user` keeps the invariant. |
| Registry.UpdateUserKeepsValid | src/icp_rust_boilerplate_backend/src/lib.rs:152-168 | `update_user` keeps the invariant. |
| Registry.DeleteUserKeepsValid | src/icp_rust_boilerplate_backend/src/lib.rs:186-194 | `delete_user` keeps the invariant. |
| Properties.AddPortThenGet | src/icp_rust_boilerplate_backend/src/lib.rs:85-106 | A created port is returned by `get_port` under its id, exactly as `add_port` returned it. |
| Properties.AddUserThenGet | src/icp_rust_boilerplate_backend/src/lib.rs:108-128 | A created user is returned by `get_user` under its id, exactly as `add_user` returned it. |
| Properties.UpdatePortThenGet | src/icp_rust_boilerplate_backend/src/lib.rs:130-145 | After `update_port`, `get_port` returns the payload's name, location and capacity with the old id and ship count. |
| Properties.UpdateUserThenGet | src/icp_rust_boilerplate_backend/src/lib.rs:152-168 | After `update_user`, `get_user` returns the payload's username and email under the old id. |
| Properties.DeletePortThenGet | src/icp_rust_boilerplate_backend/src/lib.rs:175-184 | After a successful `delete_port`, `get_port` answers `NotFound` and the store has one port fewer. |
| Properties.DeleteUserThenGet | src/icp_rust_boilerplate_backend/src/lib.rs:186-194 | After a successful `delete_user`, `get_user` answers `NotFound` and the store has one user fewer. |
| Properties.InitThenGetAdmin | src/icp_rust_boilerplate_backend/src/lib.rs:256-262 | After `init`, `get_admin` returns the installing caller's text. |
| Properties.NonAdminChangesNothing | src/icp_rust_boilerplate_backend/src/lib.rs:67-83 | For a caller who fails the admin check, all six gated entry points answer `Unauthorized` and leave the state exactly as it was. |
| Properties.AllPortsInIdOrder | src/icp_rust_boilerplate_backend/src/lib.rs:246-249 | `get_all_ports` lists every stored port and nothing else, with ids strictly ascending. |
| Properties.AllUsersInIdOrder | src/icp_rust_boilerplate_backend/src/lib.rs:251-254 | `get_all_users` lists every stored user and nothing else, with ids strictly ascending. |
| Properties.AddShipCountsOne | src/icp_rust_boilerplate_backend/src/lib.rs:206-224 | A successful `add_ship_to_port` adds one ship to that port and to the total over all ports. No other port changes. |
| Properties.ShipsArrivalCountsN | src/icp_rust_boilerplate_backend/src/lib.rs:226-244 | A successful `ships_arrival` adds `numShips` ships to that port and to the total. No other port changes. |
| Properties.TransferMovesShips | src/icp_rust_boilerplate_backend/src/lib.rs:264-304 | Between two different ports, a transfer moves exactly `numShips` ships from source to destination. The two ports' sum and the total are preserved. Every other field and port is unchanged. |
| Properties.TransferToSelfAddsShips | src/icp_rust_boilerplate_backend/src/lib.rs:295-301 | A transfer from a port to itself succeeds whenever the port holds at least `numShips` ships. The incremented copy is written last, so the port ends with `numShips` more ships and the total grows by `numShips`. |
| Calls.Step | src/icp_rust_boilerplate_backend/src/lib.rs:88-93 | An update call issues at most one id. An issued id is the counter's value before the call, and the counter goes up by one. A call that issues no id leaves the counter alone. The admin never changes. |
| Calls.StepKeepsValid | src/icp_rust_boilerplate_backend/src/lib.rs:28-36 | Every update entry point keeps the registry invariant. |
| Calls.Run | src/icp_rust_boilerplate_backend/src/lib.rs:18-21 | Over a history of calls, the counter advances by exactly the number of ids issued, and the admin never changes. |
| Calls.RunIssuesIncreasingIds | src/icp_rust_boilerplate_backend/src/lib.rs:113-118 | The ids handed out over a history, to ports and users alike, strictly increase. They lie between the counter before and the counter after, so no two are equal. |
| Calls.RunKeepsValid | src/icp_rust_boilerplate_backend/src/lib.rs:28-36 | Every history keeps the invariant. No id it issues was a port or user key before it. |
| Backend.Canister.constructor | src/icp_rust_boilerplate_backend/src/lib.rs:13-37 | A freshly installed canister has the counter at 0, the admin text empty and both stores empty. This satisfies the invariant. |
| Backend.Canister.Init | src/icp_rust_boilerplate_backend/src/lib.rs:40-43 | Writing the caller into the admin field is the `Registry.Init` transition, and it keeps the invariant. |
| Backend.Canister.IsCallerAdmin | src/icp_rust_boilerplate_backend/src/lib.rs:67-83 | `Ok` exactly when the admin field parses as a principal and equals the caller. Otherwise `Unauthorized`. |
| Backend.Canister.NextId | src/icp_rust_boilerplate_backend/src/lib.rs:88-93 | Returns the counter's value before the increment and raises the counter by one. |
| Backend.Canister.DoInsertPort | src/icp_rust_boilerplate_backend/src/lib.rs:147-150 | Stores the port under its own id, replacing whatever was there. Only the port store changes. |
| Backend.Canister.DoInsertUser | src/icp_rust_boilerplate_backend/src/lib.rs:170-173 | Stores the user under its own id, replacing whatever was there. Only the user store changes. |
| Backend.Canister.RemovePort | src/icp_rust_boilerplate_backend/src/lib.rs:178 | Removes the id's port and returns it, or returns nothing and changes nothing. |
| Backend.Canister.RemoveUser | src/icp_rust_boilerplate_backend/src/lib.rs:188 | Removes the id's user and returns it, or returns nothing and changes nothing. |
| Backend.Canister.LookupPort | src/icp_rust_boilerplate_backend/src/lib.rs:196-199 | `_get_port` finds a port exactly when the id is stored, and it is the stored one. |
| Backend.Canister.LookupUser | src/icp_rust_boilerplate_backend/src/lib.rs:201-204 | `_get_user` finds a user exactly when the id is stored, and it is the stored one. |
| Backend.Canister.GetPort | src/icp_rust_boilerplate_backend/src/lib.rs:47-55 | The match on `_get_port` gives exactly the `Registry.GetPort` reply. |
| Backend.Canister.GetUser | src/icp_rust_boilerplate_backend/src/lib.rs:57-65 | The match on `_get_user` gives exactly the `Registry.GetUser` reply. |
| Backend.Canister.AddPort | src/icp_rust_boilerplate_backend/src/lib.rs:85-106 | The step-by-step gate, id, build and insert gives exactly the `Registry.AddPort` state and reply, and keeps the invariant. |
| Backend.Canister.UpdatePort | src/icp_rust_boilerplate_backend/src/lib.rs:130-145 | The gate, the lookup, three field writes and the insert give exactly the `Registry.UpdatePort` state and reply, and keep the invariant. |
| Backend.Canister.DeletePort | src/icp_rust_boilerplate_backend/src/lib.rs:175-184 | The gate and the store's `remove` give exactly the `Registry.DeletePort` state and reply, and keep the invariant. |
| Backend.Canister.AddShipToPort | src/icp_rust_boilerplate_backend/src/lib.rs:206-224 | The gate, the lookup, the increment and the insert give exactly the `Registry.AddShipToPort` state and reply, and keep the invariant. |
| Backend.Canister.ShipsArrival | src/icp_rust_boilerplate_backend/src/lib.rs:226-244 | The gate, the lookup, `+= num_ships` and the insert give exactly the `Registry.ShipsArrival` state and reply, and keep the invariant. |
| Backend.Canister.TransferShips | src/icp_rust_boilerplate_backend/src/lib.rs:264-304 | The gate, two lookups on separate copies, the shortage check, the two updates and the two inserts (source first) give exactly the `Registry.TransferShips` state and reply, and keep the invariant. |
| Backend.Canister.AddUser | src/icp_rust_boilerplate_backend/src/lib.rs:108-128 | The trim check, id, build and insert give exactly the `Registry.AddUser` state and reply, and keep the invariant. |
| Backend.Canister.UpdateUser | src/icp_rust_boilerplate_backend/src/lib.rs:152-168 | The trim check, the lookup, two field writes and the insert give exactly the `Registry.UpdateUser` state and reply, and keep the invariant. |
| Backend.Canister.DeleteUser | src/icp_rust_boilerplate_backend/src/lib.rs:186-194 | The store's `remove` gives exactly the `Registry.DeleteUser` state and reply, and keeps the invariant. |

## Left out

- The `thread_local!` and `MemoryManager` plumbing and the `RefCell` borrows are left out. The counter, the admin identity and the two stores are four plain fields.
- `ID_COUNTER` and `ADMIN` are both opened on `MemoryId::new(0)` (lib.rs lines 18-26), so the two cells share one virtual memory. The model keeps them as independent fields. Whatever one cell's encoded bytes do to the other depends on the layout of `Cell` and on the candid encoding, and neither is part of this model.
- `Storable`/`BoundedStorable` encoding and the `MAX_SIZE` bounds (types.rs) are not modelled. Records of any length are stored, and the insert traps for oversized records are not modelled.
- `Principal::from_text` is a parameter `isPrincipalText` with no fixed definition. The textual principal format (base32 with a CRC32 checksum) is not modelled. Principals are compared by their text.
- `ic_cdk::caller()` is a parameter of every entry point that consults it.
- The `msg` strings of the errors are left out. An error is its kind, plus the payload for `InvalidUserPayload`.
- The `.expect(...)` traps when a stable cell cannot be initialised or written are left out. Such a write never fails in the model.
- `InvalidPortPayload` exists as an error kind, but no entry point constructs it, so no model function returns it. `PortPayload` values are never validated, and a port's capacity is never compared with its ship count.
- `Registry.AddPort`: requires that the counter is below 2^64 - 1 when the call reaches the increment. The source's `+ 1` would trap (debug) or wrap (release); neither is modelled.
- `Registry.AddUser`: the same counter precondition as `Registry.AddPort`.
- `Registry.AddShipToPort`: requires that the ship count stays within `u32`. The source's `+=` would trap or wrap.
- `Registry.ShipsArrival`: requires that `current_ships + num_ships` stays within `u32`, for the same reason.
- `Registry.TransferShips`: requires that the destination's count plus `num_ships` stays within `u32`, for the same reason.
- `Backend.Canister.AddPort`, `Backend.Canister.AddUser`, `Backend.Canister.AddShipToPort`, `Backend.Canister.ShipsArrival`, `Backend.Canister.TransferShips`: carry the same no-overflow preconditions as their `Registry` transitions.
- `Backend.Canister.GetAllPorts`, `Backend.Canister.GetAllUsers` and `Backend.Canister.GetAdmin` only read the fields into `Registry.AllPorts`, `Registry.AllUsers` and `Registry.GetAdmin`. Their properties are stated on those functions, in `Properties.AllPortsInIdOrder`, `Properties.AllUsersInIdOrder` and `Properties.InitThenGetAdmin`.
- The candid bindings (`.did.js`, `.did.d.ts`) and `export_candid!` only describe the interface and are not modelled.
- Concurrency is not modelled. Every call runs to completion before the next one starts, which is the canister's own execution model.
