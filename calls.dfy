/** Sequences of update calls against the registry. Every call runs to
    completion before the next starts, so a history is a sequence of calls
    applied one after the other. This module proves what the shared counter
    promises over a whole history: the ids handed out by `add_port` and
    `add_user`, whichever kind they go to, strictly increase. */
module Calls {
  import opened Types
  import opened OrderedStore
  import opened Registry

  /** One invocation of an update entry point, with its caller where the
      entry point consults it. */
  datatype Call =
    | AddPortCall(caller: string, portPayload: PortPayload)
    | AddUserCall(userPayload: UserPayload)
    | UpdatePortCall(caller: string, id: u64, portPayload: PortPayload)
    | UpdateUserCall(id: u64, userPayload: UserPayload)
    | DeletePortCall(caller: string, id: u64)
    | DeleteUserCall(id: u64)
    | AddShipCall(caller: string, id: u64)
    | ShipsArrivalCall(caller: string, id: u64, numShips: u32)
    | TransferCall(caller: string, source: u64, destination: u64, numShips: u32)

  /** The call does not overflow the counter or a ship count. */
  predicate NoOverflow(s: State, isPrincipalText: string -> bool, c: Call) {
    match c
    case AddPortCall(caller, _) => IsAdmin(isPrincipalText, s.admin, caller) ==> s.counter < U64_MAX
    case AddUserCall(payload) => !BlankPayload(payload) ==> s.counter < U64_MAX
    case AddShipCall(caller, id) =>
      IsAdmin(isPrincipalText, s.admin, caller) && id in s.ports ==> s.ports[id].current_ships < U32_MAX
    case ShipsArrivalCall(caller, id, n) =>
      IsAdmin(isPrincipalText, s.admin, caller) && id in s.ports ==> s.ports[id].current_ships + n <= U32_MAX
    case TransferCall(caller, source, destination, n) =>
      TransferAllowed(s, isPrincipalText, caller, source, destination, n) ==>
        s.ports[destination].current_ships + n <= U32_MAX
    case _ => true
  }

  /** Runs one call; the second component is the id it issued, if any. */
  function Step(s: State, isPrincipalText: string -> bool, c: Call): (r: (State, Option<u64>))
    requires NoOverflow(s, isPrincipalText, c)
    ensures r.1.Some? ==> r.1.value == s.counter && r.0.counter == s.counter + 1
    ensures r.1.None? ==> r.0.counter == s.counter
    ensures r.0.admin == s.admin
  {
    match c
    case AddPortCall(caller, payload) =>
      var (s', reply) := AddPort(s, isPrincipalText, caller, payload);
      (s', if reply.Ok? then Some(reply.value.id) else None)
    case AddUserCall(payload) =>
      var (s', reply) := AddUser(s, payload);
      (s', if reply.Ok? then Some(reply.value.user_id) else None)
    case UpdatePortCall(caller, id, payload) => (UpdatePort(s, isPrincipalText, caller, id, payload).0, None)
    case UpdateUserCall(id, payload) => (UpdateUser(s, id, payload).0, None)
    case DeletePortCall(caller, id) => (DeletePort(s, isPrincipalText, caller, id).0, None)
    case DeleteUserCall(id) => (DeleteUser(s, id).0, None)
    case AddShipCall(caller, id) => (AddShipToPort(s, isPrincipalText, caller, id).0, None)
    case ShipsArrivalCall(caller, id, n) => (ShipsArrival(s, isPrincipalText, caller, id, n).0, None)
    case TransferCall(caller, source, destination, n) =>
      (TransferShips(s, isPrincipalText, caller, source, destination, n).0, None)
  }

  /** Every update entry point keeps the registry invariant: inserts use the
      record's own id (a fresh one when creating), updates keep the id,
      deletes only remove. */
  lemma StepKeepsValid(s: State, isPrincipalText: string -> bool, c: Call)
    requires Valid(s)
    requires NoOverflow(s, isPrincipalText, c)
    ensures Valid(Step(s, isPrincipalText, c).0)
  {
    match c {
      case AddPortCall(caller, payload) => AddPortKeepsValid(s, isPrincipalText, caller, payload);
      case AddUserCall(payload) => AddUserKeepsValid(s, payload);
      case UpdatePortCall(caller, id, payload) => UpdatePortKeepsValid(s, isPrincipalText, caller, id, payload);
      case UpdateUserCall(id, payload) => UpdateUserKeepsValid(s, id, payload);
      case DeletePortCall(caller, id) => DeletePortKeepsValid(s, isPrincipalText, caller, id);
      case DeleteUserCall(id) => DeleteUserKeepsValid(s, id);
      case AddShipCall(caller, id) => AddShipToPortKeepsValid(s, isPrincipalText, caller, id);
      case ShipsArrivalCall(caller, id, n) => ShipsArrivalKeepsValid(s, isPrincipalText, caller, id, n);
      case TransferCall(caller, source, destination, n) =>
        TransferShipsKeepsValid(s, isPrincipalText, caller, source, destination, n);
    }
  }

  /** No call of the history overflows, each in the state its predecessors left. */
  ghost predicate NoOverflowRun(s: State, isPrincipalText: string -> bool, calls: seq<Call>)
    decreases |calls|
  {
    calls != [] ==>
      && NoOverflow(s, isPrincipalText, calls[0])
      && NoOverflowRun(Step(s, isPrincipalText, calls[0]).0, isPrincipalText, calls[1..])
  }

  /** Every id of `ids` lies in `[lo, hi)`. */
  predicate AllWithin(ids: seq<u64>, lo: int, hi: int) {
    forall i :: 0 <= i < |ids| ==> lo <= ids[i] < hi
  }

  /** Ids issued in one call (at most one, below `mid`) followed by the ids
      issued in the rest of the history (increasing, from `mid` on) are
      increasing as a whole. */
  lemma IssuedInOrder(first: seq<u64>, rest: seq<u64>, lo: int, mid: int, hi: int)
    requires |first| <= 1 && mid == lo + |first| && mid <= hi
    requires forall i :: 0 <= i < |first| ==> first[i] == lo
    requires StrictlyIncreasing(rest) && AllWithin(rest, mid, hi)
    ensures StrictlyIncreasing(first + rest) && AllWithin(first + rest, lo, hi)
  {
    var ids := first + rest;
    forall i, j | 0 <= i < j < |ids| ensures ids[i] < ids[j] {
      assert ids[j] == rest[j - |first|];
      if i >= |first| {
        assert ids[i] == rest[i - |first|];
      }
    }
    forall i | 0 <= i < |ids| ensures lo <= ids[i] < hi {
      if i >= |first| {
        assert ids[i] == rest[i - |first|];
      }
    }
  }

  /** Runs a history of calls; returns the final state and the ids issued,
      in the order they were issued. The counter advances by exactly their
      number and the admin identity never changes. */
  function Run(s: State, isPrincipalText: string -> bool, calls: seq<Call>): (r: (State, seq<u64>))
    requires NoOverflowRun(s, isPrincipalText, calls)
    ensures r.0.counter == s.counter + |r.1|
    ensures r.0.admin == s.admin
    decreases |calls|
  {
    if calls == [] then
      (s, [])
    else
      var step := Step(s, isPrincipalText, calls[0]);
      var tail := Run(step.0, isPrincipalText, calls[1..]);
      ((tail.0, if step.1.Some? then [step.1.value] + tail.1 else tail.1))
  }

  /** The shared counter's promise over a whole history: the ids handed out,
      to ports and users alike, strictly increase and lie between the counter
      before and the counter after the history, so no two are equal. */
  lemma {:induction false} RunIssuesIncreasingIds(s: State, isPrincipalText: string -> bool, calls: seq<Call>)
    requires NoOverflowRun(s, isPrincipalText, calls)
    ensures var r := Run(s, isPrincipalText, calls);
      StrictlyIncreasing(r.1) && AllWithin(r.1, s.counter, r.0.counter)
    decreases |calls|
  {
    if calls != [] {
      var step := Step(s, isPrincipalText, calls[0]);
      var tail := Run(step.0, isPrincipalText, calls[1..]);
      RunIssuesIncreasingIds(step.0, isPrincipalText, calls[1..]);
      var first := if step.1.Some? then [step.1.value] else [];
      IssuedInOrder(first, tail.1, s.counter, step.0.counter, tail.0.counter);
      assert Run(s, isPrincipalText, calls).1 == first + tail.1;
    }
  }

  /** Every history of calls keeps the registry invariant (records under
      their own ids, ids below the counter, no id both a port and a user),
      and no id it issues was a key of either store before it. */
  lemma {:induction false} RunKeepsValid(s: State, isPrincipalText: string -> bool, calls: seq<Call>)
    requires Valid(s)
    requires NoOverflowRun(s, isPrincipalText, calls)
    ensures Valid(Run(s, isPrincipalText, calls).0)
    ensures var ids := Run(s, isPrincipalText, calls).1;
      forall i :: 0 <= i < |ids| ==> ids[i] !in s.ports && ids[i] !in s.users
    decreases |calls|
  {
    RunIssuesIncreasingIds(s, isPrincipalText, calls);
    if calls != [] {
      StepKeepsValid(s, isPrincipalText, calls[0]);
      RunKeepsValid(Step(s, isPrincipalText, calls[0]).0, isPrincipalText, calls[1..]);
    }
  }
}
