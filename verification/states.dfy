/**
 * States of new-style resources.
 *
 * New-style resources (tenants, networks, security groups, volumes,
 * snapshots, backups, settings-scoped instances) share one state machine
 * whose states are stored as small integers. Old-style instances use a
 * separate set of named states, in module `InstanceStates`.
 */
module States {
  import opened Wrappers

  datatype State =
    | CreationScheduled
    | Creating
    | UpdateScheduled
    | Updating
    | DeletionScheduled
    | Deleting
    | Ok
    | Erred

  /** The integer stored in the database for each state. */
  function Code(s: State): (c: int)
    ensures 1 <= c <= 8
  {
    match s
    case CreationScheduled => 5
    case Creating => 6
    case UpdateScheduled => 1
    case Updating => 2
    case DeletionScheduled => 7
    case Deleting => 8
    case Ok => 3
    case Erred => 4
  }

  /** Reads a stored integer back; integers outside 1..8 are not states. */
  function FromCode(c: int): (r: Option<State>)
    ensures r.Some? <==> 1 <= c <= 8
    ensures r.Some? ==> Code(r.value) == c
  {
    if c == 5 then Some(CreationScheduled)
    else if c == 6 then Some(Creating)
    else if c == 1 then Some(UpdateScheduled)
    else if c == 2 then Some(Updating)
    else if c == 7 then Some(DeletionScheduled)
    else if c == 8 then Some(Deleting)
    else if c == 3 then Some(Ok)
    else if c == 4 then Some(Erred)
    else None
  }

  /** Every state is stored under its own integer, so decoding undoes encoding. */
  lemma CodeRoundTrip(s: State)
    ensures FromCode(Code(s)) == Some(s)
  {
  }

  lemma CodeInjective(s: State, t: State)
    ensures Code(s) == Code(t) ==> s == t
  {
    CodeRoundTrip(s);
    CodeRoundTrip(t);
  }

  /** The default state of a freshly created row. */
  const DefaultState: State := CreationScheduled
}
