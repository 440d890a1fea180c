/** Record shapes, integer widths and the error kinds of the port registry. */
module Types {

  const U32_MAX: int := 0xFFFF_FFFF
  const U64_MAX: int := 0xFFFF_FFFF_FFFF_FFFF

  /** Rust's `u32` and `u64`: the model never wraps, callers keep values in range. */
  type u32 = x: int | 0 <= x <= U32_MAX
  type u64 = x: int | 0 <= x <= U64_MAX

  /** A port as stored under key `id`. */
  datatype Port = Port(id: u64, name: string, location: string, capacity: u32, current_ships: u32)

  /** A user as stored under key `user_id`. */
  datatype User = User(user_id: u64, username: string, email: string)

  /** The fields a caller supplies to create or update a port. */
  datatype PortPayload = PortPayload(name: string, location: string, capacity: u32)

  /** The fields a caller supplies to create or update a user. */
  datatype UserPayload = UserPayload(username: string, email: string)

  /** The stored administrator identity, in its textual form. */
  datatype AdminPrincipal = AdminPrincipal(text: string)

  /** The error kinds the entry points return; the message strings are not modelled.
      `InvalidPortPayload` is declared by the service but no entry point returns it. */
  datatype Error =
    | NotFound
    | Unauthorized
    | InvalidUserPayload(payload: UserPayload)
    | InvalidPortPayload(portPayload: PortPayload)

  datatype Result<T> = Ok(value: T) | Err(error: Error)

  datatype Option<T> = None | Some(value: T)
}
