/**
 * The periodic pull of volumes, snapshots and instances of one service
 * settings (`PullServiceSettingsResources`, and the `pull_volumes`,
 * `pull_snapshots`, `pull_instances` methods of the tenant backend).
 *
 * Only resources in a stable state, OK or ERRED, are looked at. A resource
 * the backend no longer lists becomes ERRED with an explanatory message; a
 * listed one takes the backend-owned fields from the backend and, if it was
 * ERRED, is recovered to OK with its error cleared. For instances the set of
 * security groups is replaced by the backend's when the two differ.
 */
module ResourcePull {
  import opened Wrappers
  import opened States
  import PF = PulledFields

  /** A stored resource; `fields` holds its backend-owned fields, runtime state included. */
  datatype Resource = Resource(
    backendId: string,
    state: State,
    errorMessage: string,
    fields: map<string, string>,
    groups: set<string>)

  datatype BackendResource = BackendResource(fields: map<string, string>, groups: set<string>)

  const RuntimeStateField: string := "runtime_state"
  const NotFoundMessage: string := "Does not exist at backend."

  /** The states in which a resource is pulled. */
  predicate Stable(s: State)
  {
    s == Ok || s == Erred
  }

  /** `_set_erred`: the resource is missing at the backend. */
  function SetErred(r: Resource): Resource
  {
    r.(state := Erred, errorMessage := NotFoundMessage, fields := r.fields[RuntimeStateField := ""])
  }

  /** `_update`: pulled fields copied; an erred resource recovers with its error cleared. */
  function Update(r: Resource, b: BackendResource, pulled: seq<string>, syncGroups: bool): Result<Resource, PF.FieldError>
  {
    match PF.UpdatePulledFields(r.fields, b.fields, pulled)
    case Failure(e) => Failure(e)
    case Success(p) =>
      var r := r.(fields := p.record);
      var r := if r.state == Erred then r.(state := Ok, errorMessage := "") else r;
      Success(if syncGroups && r.groups != b.groups then r.(groups := b.groups) else r)
  }

  /** The pull of one stored resource against the backend listing keyed by backend id. */
  function PullOne(r: Resource, backend: map<string, BackendResource>, pulled: seq<string>, syncGroups: bool)
    : (res: Result<Resource, PF.FieldError>)
    ensures !Stable(r.state) ==> res == Success(r)
    ensures Stable(r.state) && r.backendId !in backend ==>
              res.Success? && res.value.state == Erred && res.value.errorMessage == NotFoundMessage
              && RuntimeStateField in res.value.fields && res.value.fields[RuntimeStateField] == ""
    ensures Stable(r.state) && r.backendId in backend ==>
              (res.Success? <==> PF.HasAll(r.fields, pulled) && PF.HasAll(backend[r.backendId].fields, pulled))
    ensures Stable(r.state) && r.backendId in backend && res.Success? ==>
              && res.value.state == Ok
              && res.value.errorMessage == (if r.state == Erred then "" else r.errorMessage)
              && PF.HasAll(res.value.fields, pulled) && PF.HasAll(backend[r.backendId].fields, pulled)
              && (forall i :: 0 <= i < |pulled| ==> res.value.fields[pulled[i]] == backend[r.backendId].fields[pulled[i]])
              && (syncGroups ==> res.value.groups == backend[r.backendId].groups)
              && (!syncGroups ==> res.value.groups == r.groups)
    ensures res.Success? ==> res.value.backendId == r.backendId
  {
    if !Stable(r.state) then Success(r)
    else if r.backendId !in backend then Success(SetErred(r))
    else Update(r, backend[r.backendId], pulled, syncGroups)
  }

  /**
   * A pull stopped by a field error, with the resources as they are left
   * stored: each resource is saved as the loop reaches it, so those before
   * the failing one keep their pulled state and the rest are untouched.
   */
  datatype PullFailure = PullFailure(error: PF.FieldError, stored: seq<Resource>)

  /**
   * The pull stopped at the `k`-th resource: every earlier one was pulled,
   * that one failed with `f`'s error, and `f` holds the earlier resources
   * pulled and the others as they were.
   */
  predicate StoppedAt(rs: seq<Resource>, backend: map<string, BackendResource>, pulled: seq<string>, syncGroups: bool,
                      k: int, f: PullFailure)
  {
    && 0 <= k < |rs|
    && (forall i :: 0 <= i < k ==> PullOne(rs[i], backend, pulled, syncGroups).Success?)
    && PullOne(rs[k], backend, pulled, syncGroups) == Failure(f.error)
    && |f.stored| == |rs|
    && (forall i :: 0 <= i < k ==> f.stored[i] == PullOne(rs[i], backend, pulled, syncGroups).value)
    && (forall i :: k <= i < |rs| ==> f.stored[i] == rs[i])
  }

  /**
   * The pull of every stored resource, in order; a field missing on either
   * side stops it at that resource, after the earlier ones were saved.
   */
  function PullResources(rs: seq<Resource>, backend: map<string, BackendResource>, pulled: seq<string>, syncGroups: bool)
    : (res: Result<seq<Resource>, PullFailure>)
    ensures res.Success? <==> forall i :: 0 <= i < |rs| ==> PullOne(rs[i], backend, pulled, syncGroups).Success?
    ensures res.Success? ==> |res.value| == |rs|
                             && forall i :: 0 <= i < |rs| ==> res.value[i] == PullOne(rs[i], backend, pulled, syncGroups).value
    ensures res.Failure? ==> exists k :: StoppedAt(rs, backend, pulled, syncGroups, k, res.error)
    decreases |rs|
  {
    if rs == [] then Success([])
    else
      match PullOne(rs[0], backend, pulled, syncGroups)
      case Failure(e) =>
        assert StoppedAt(rs, backend, pulled, syncGroups, 0, PullFailure(e, rs));
        Failure(PullFailure(e, rs))
      case Success(r) =>
        assert forall i :: 1 <= i < |rs| ==> rs[i] == rs[1..][i - 1];
        match PullResources(rs[1..], backend, pulled, syncGroups)
        case Failure(f) =>
          var k :| StoppedAt(rs[1..], backend, pulled, syncGroups, k, f);
          var g := PullFailure(f.error, [r] + f.stored);
          assert StoppedAt(rs, backend, pulled, syncGroups, k + 1, g);
          Failure(g)
        case Success(rest) =>
          Success([r] + rest)
  }

  /** A failed pull leaves every resource either as it was or as its own pull left it. */
  lemma FailedPullKeepsEachResourcePulledOrUntouched(rs: seq<Resource>, backend: map<string, BackendResource>,
                                                     pulled: seq<string>, syncGroups: bool, i: int)
    requires PullResources(rs, backend, pulled, syncGroups).Failure? && 0 <= i < |rs|
    ensures var f := PullResources(rs, backend, pulled, syncGroups).error;
            |f.stored| == |rs| && (f.stored[i] == rs[i] || Success(f.stored[i]) == PullOne(rs[i], backend, pulled, syncGroups))
  {
    var f := PullResources(rs, backend, pulled, syncGroups).error;
    var k :| StoppedAt(rs, backend, pulled, syncGroups, k, f);
  }

  /** Pulling a resource a second time against the same listing changes nothing more. */
  lemma PullOneIdempotent(r: Resource, backend: map<string, BackendResource>, pulled: seq<string>, syncGroups: bool)
    requires PullOne(r, backend, pulled, syncGroups).Success?
    ensures var once := PullOne(r, backend, pulled, syncGroups).value;
            PullOne(once, backend, pulled, syncGroups) == Success(once)
  {
    var once := PullOne(r, backend, pulled, syncGroups).value;
    if Stable(r.state) && r.backendId in backend {
      var b := backend[r.backendId];
      PF.NoChangeNoSave(once.fields, b.fields, pulled);
      assert once.fields == PF.UpdatePulledFields(r.fields, b.fields, pulled).value.record;
    } else if Stable(r.state) {
      assert SetErred(once) == once;
    }
  }

  /** The whole pull is idempotent. */
  lemma {:induction false} PullResourcesIdempotent(rs: seq<Resource>, backend: map<string, BackendResource>,
                                                   pulled: seq<string>, syncGroups: bool)
    requires PullResources(rs, backend, pulled, syncGroups).Success?
    ensures var once := PullResources(rs, backend, pulled, syncGroups).value;
            PullResources(once, backend, pulled, syncGroups) == Success(once)
  {
    var once := PullResources(rs, backend, pulled, syncGroups).value;
    forall i | 0 <= i < |once| ensures PullOne(once[i], backend, pulled, syncGroups) == Success(once[i]) {
      PullOneIdempotent(rs[i], backend, pulled, syncGroups);
    }
    var twice := PullResources(once, backend, pulled, syncGroups);
    assert twice.value == once;
  }
}
