/**
 * Mirrors: the tenant application's security groups and floating IPs are
 * mirrored as objects of the settings-scoped application, under the service
 * settings whose scope is the tenant. A mirror is found by its settings and
 * the source's backend id.
 */
module Mirrors {
  import opened Wrappers
  import opened States

  /** Where a mirror is filed: its settings and backend id. */
  datatype Key = Key(settings: string, backendId: string)

  /** The indices, from `from` on, of the objects filed under `k`, in increasing order. */
  function Positions<M>(ms: seq<M>, keyOf: M -> Key, k: Key, from: nat): (r: seq<nat>)
    requires from <= |ms|
    ensures forall i :: 0 <= i < |r| ==> from <= r[i] < |ms| && keyOf(ms[r[i]]) == k
    ensures forall i :: from <= i < |ms| && keyOf(ms[i]) == k ==> i in r
    ensures forall i, j :: 0 <= i < j < |r| ==> r[i] < r[j]
    decreases |ms| - from
  {
    if from == |ms| then []
    else if keyOf(ms[from]) == k then [from] + Positions(ms, keyOf, k, from + 1)
    else Positions(ms, keyOf, k, from + 1)
  }

  /** The result of a `get`: nothing, one object, or more than one (which raises). */
  datatype Lookup = Missing | Found(index: nat) | Ambiguous

  function Find<M>(ms: seq<M>, keyOf: M -> Key, k: Key): (r: Lookup)
    ensures r.Missing? <==> forall i :: 0 <= i < |ms| ==> keyOf(ms[i]) != k
    ensures r.Found? ==> r.index < |ms| && keyOf(ms[r.index]) == k
                         && forall j :: 0 <= j < |ms| && j != r.index ==> keyOf(ms[j]) != k
    ensures r.Ambiguous? <==> exists i, j :: 0 <= i < j < |ms| && keyOf(ms[i]) == k && keyOf(ms[j]) == k
  {
    var ps := Positions(ms, keyOf, k, 0);
    if |ps| == 0 then Missing
    else if |ps| == 1 then
      assert forall j :: 0 <= j < |ms| && keyOf(ms[j]) == k ==> j == ps[0] by {
        forall j | 0 <= j < |ms| && keyOf(ms[j]) == k ensures j == ps[0] {
          assert j in ps;
        }
      }
      Found(ps[0])
    else
      assert keyOf(ms[ps[0]]) == k && keyOf(ms[ps[1]]) == k && ps[0] < ps[1];
      Ambiguous
  }

  function Remove<M>(ms: seq<M>, i: nat): (r: seq<M>)
    requires i < |ms|
    ensures |r| == |ms| - 1
    ensures forall j :: 0 <= j < i ==> r[j] == ms[j]
    ensures forall j :: i <= j < |r| ==> r[j] == ms[j + 1]
  {
    ms[..i] + ms[i + 1..]
  }

  /** A deletion handler: the mirror under `k` is deleted when there is one. */
  function DeleteMirror<M>(ms: seq<M>, keyOf: M -> Key, k: Key): (r: Result<seq<M>, string>)
    ensures r.Failure? <==> Find(ms, keyOf, k).Ambiguous?
    ensures r.Success? ==> forall i :: 0 <= i < |r.value| ==> keyOf(r.value[i]) != k
    ensures r.Success? ==> forall m :: m in ms && keyOf(m) != k ==> m in r.value
    ensures r.Success? ==> |r.value| >= |ms| - 1
  {
    match Find(ms, keyOf, k)
    case Missing => Success(ms)
    case Found(i) =>
      var r := Remove(ms, i);
      assert forall m :: m in ms && keyOf(m) != k ==> m in r by {
        forall m | m in ms && keyOf(m) != k ensures m in r {
          var j :| 0 <= j < |ms| && ms[j] == m;
          if j < i { assert r[j] == m; } else { assert r[j - 1] == m; }
        }
      }
      Success(r)
    case Ambiguous => Failure("MultipleObjectsReturned")
  }

  /* ---------------------------------------------------------------------- */
  /* Security groups                                                        */

  /** A tenant-application security group, the source of a mirror. */
  datatype SourceGroup = SourceGroup(name: string, description: string, backendId: string)

  datatype MirrorGroup = MirrorGroup(settings: string, backendId: string, name: string, description: string)

  function GroupKey(m: MirrorGroup): Key
  {
    Key(m.settings, m.backendId)
  }

  /**
   * The text the database stores for a one-element tuple holding `name`:
   * its representation `(u'name',)`. Quote escaping inside `name` is not
   * modelled.
   */
  function OneTupleText(name: string): string
  {
    "(u'" + name + "',)"
  }

  lemma OneTupleTextDiffers(name: string)
    ensures OneTupleText(name) != name
  {
    assert |OneTupleText(name)| == |name| + 6;
  }

  /**
   * `on_openstack_security_group_state_changed`, with the name written by
   * the update branch as a parameter: nothing without settings; CREATING to
   * OK files a new mirror; UPDATING to OK copies name and description onto
   * the mirror when there is exactly one.
   */
  function GroupStateChanged(ms: seq<MirrorGroup>, settings: Option<string>, g: SourceGroup,
                             source: State, target: State, updatedName: string -> string)
    : (r: Result<seq<MirrorGroup>, string>)
    ensures settings.None? ==> r == Success(ms)
    ensures settings.Some? && source == Creating && target == Ok ==>
              r == Success(ms + [MirrorGroup(settings.value, g.backendId, g.name, g.description)])
    ensures !(source == Creating && target == Ok) && !(source == Updating && target == Ok) ==> r == Success(ms)
    ensures r.Success? ==> |r.value| >= |ms|
  {
    if settings.None? then Success(ms)
    else if source == Creating && target == Ok then
      Success(ms + [MirrorGroup(settings.value, g.backendId, g.name, g.description)])
    else if source == Updating && target == Ok then
      match Find(ms, GroupKey, Key(settings.value, g.backendId))
      case Missing => Success(ms)
      case Found(i) => Success(ms[i := ms[i].(name := updatedName(g.name), description := g.description)])
      case Ambiguous => Failure("MultipleObjectsReturned")
    else Success(ms)
  }

  /** As written, the update branch assigns a one-element tuple to the name. */
  function GroupStateChangedAsWritten(ms: seq<MirrorGroup>, settings: Option<string>, g: SourceGroup,
                                      source: State, target: State): (r: Result<seq<MirrorGroup>, string>)
    ensures settings.None? ==> r == Success(ms)
    ensures settings.Some? && source == Creating && target == Ok ==>
              r == Success(ms + [MirrorGroup(settings.value, g.backendId, g.name, g.description)])
  {
    GroupStateChanged(ms, settings, g, source, target, OneTupleText)
  }

  function Same(name: string): string
  {
    name
  }

  /** The update branch copying the name itself. */
  function GroupStateChangedCorrected(ms: seq<MirrorGroup>, settings: Option<string>, g: SourceGroup,
                                      source: State, target: State): (r: Result<seq<MirrorGroup>, string>)
    ensures settings.None? ==> r == Success(ms)
    ensures settings.Some? && source == Creating && target == Ok ==>
              r == Success(ms + [MirrorGroup(settings.value, g.backendId, g.name, g.description)])
  {
    GroupStateChanged(ms, settings, g, source, target, Same)
  }

  /** With the corrected update, a renamed source leaves its single mirror with the new name and description. */
  lemma CorrectedUpdateCopiesSource(ms: seq<MirrorGroup>, settings: string, g: SourceGroup)
    requires Find(ms, GroupKey, Key(settings, g.backendId)).Found?
    ensures var r := GroupStateChangedCorrected(ms, Some(settings), g, Updating, Ok);
            var i := Find(ms, GroupKey, Key(settings, g.backendId)).index;
            && r.Success? && |r.value| == |ms|
            && r.value[i] == MirrorGroup(settings, g.backendId, g.name, g.description)
            && forall j :: 0 <= j < |ms| && j != i ==> r.value[j] == ms[j]
  {
  }

  /** As written, the updated mirror's name is never the source's name. */
  lemma AsWrittenUpdateMangledName(ms: seq<MirrorGroup>, settings: string, g: SourceGroup)
    requires Find(ms, GroupKey, Key(settings, g.backendId)).Found?
    ensures var r := GroupStateChangedAsWritten(ms, Some(settings), g, Updating, Ok);
            var i := Find(ms, GroupKey, Key(settings, g.backendId)).index;
            && r.Success?
            && r.value[i].name == OneTupleText(g.name)
            && r.value[i].name != g.name
  {
    OneTupleTextDiffers(g.name);
  }

  /** Creating a mirror and then deleting its source leaves the mirrors as they were. */
  lemma DeleteUndoesCreate(ms: seq<MirrorGroup>, settings: string, g: SourceGroup)
    requires Find(ms, GroupKey, Key(settings, g.backendId)).Missing?
    ensures var created := GroupStateChangedCorrected(ms, Some(settings), g, Creating, Ok);
            && created.Success?
            && DeleteMirror(created.value, GroupKey, Key(settings, g.backendId)) == Success(ms)
  {
    var k := Key(settings, g.backendId);
    var c := ms + [MirrorGroup(settings, g.backendId, g.name, g.description)];
    assert Find(c, GroupKey, k) == Found(|ms|) by {
      assert GroupKey(c[|ms|]) == k;
      assert forall j :: 0 <= j < |ms| ==> c[j] == ms[j];
    }
    assert Remove(c, |ms|) == ms;
  }

  /* ---------------------------------------------------------------------- */
  /* Floating IPs                                                           */

  datatype SourceIp = SourceIp(name: string, backendId: string, address: string, runtimeState: string,
                               backendNetworkId: string)

  datatype MirrorIp = MirrorIp(settings: string, backendId: string, name: string, address: string,
                               status: string, backendNetworkId: string)

  function IpKey(m: MirrorIp): Key
  {
    Key(m.settings, m.backendId)
  }

  function MirrorOf(settings: string, ip: SourceIp): MirrorIp
  {
    MirrorIp(settings, ip.backendId, ip.name, ip.address, ip.runtimeState, ip.backendNetworkId)
  }

  /**
   * `on_openstack_floating_ip_state_changed`: CREATING to OK files a mirror
   * with the same name, address, status and network; UPDATING to OK copies
   * those onto the single mirror when there is one.
   */
  function IpStateChanged(ms: seq<MirrorIp>, settings: Option<string>, ip: SourceIp, source: State, target: State)
    : (r: Result<seq<MirrorIp>, string>)
    ensures settings.None? ==> r == Success(ms)
    ensures settings.Some? && source == Creating && target == Ok ==> r == Success(ms + [MirrorOf(settings.value, ip)])
    ensures !(source == Creating && target == Ok) && !(source == Updating && target == Ok) ==> r == Success(ms)
    ensures settings.Some? && source == Updating && target == Ok ==>
              match Find(ms, IpKey, Key(settings.value, ip.backendId))
              case Missing => r == Success(ms)
              case Found(i) => r.Success? && |r.value| == |ms| && r.value[i] == MirrorOf(settings.value, ip)
                               && forall j :: 0 <= j < |ms| && j != i ==> r.value[j] == ms[j]
              case Ambiguous => r.Failure?
  {
    if settings.None? then Success(ms)
    else if source == Creating && target == Ok then Success(ms + [MirrorOf(settings.value, ip)])
    else if source == Updating && target == Ok then
      match Find(ms, IpKey, Key(settings.value, ip.backendId))
      case Missing => Success(ms)
      case Found(i) =>
        Success(ms[i := ms[i].(name := ip.name, address := ip.address, status := ip.runtimeState,
                               backendNetworkId := ip.backendNetworkId)])
      case Ambiguous => Failure("MultipleObjectsReturned")
    else Success(ms)
  }

  /** A key held at exactly one position is found there. */
  lemma FindOnly<M>(ms: seq<M>, keyOf: M -> Key, k: Key, i: int)
    requires 0 <= i < |ms| && keyOf(ms[i]) == k
    requires forall j :: 0 <= j < |ms| && keyOf(ms[j]) == k ==> j == i
    ensures Find(ms, keyOf, k) == Found(i)
  {
    assert !exists a, b :: 0 <= a < b < |ms| && keyOf(ms[a]) == k && keyOf(ms[b]) == k;
  }

  /** After an update, looking the mirror up again finds the source's fields. */
  lemma IpUpdateThenFind(ms: seq<MirrorIp>, settings: string, ip: SourceIp)
    requires Find(ms, IpKey, Key(settings, ip.backendId)).Found?
    ensures var r := IpStateChanged(ms, Some(settings), ip, Updating, Ok);
            && r.Success?
            && Find(r.value, IpKey, Key(settings, ip.backendId)) == Find(ms, IpKey, Key(settings, ip.backendId))
            && r.value[Find(ms, IpKey, Key(settings, ip.backendId)).index] == MirrorOf(settings, ip)
  {
    var k := Key(settings, ip.backendId);
    var i := Find(ms, IpKey, k).index;
    var r := IpStateChanged(ms, Some(settings), ip, Updating, Ok).value;
    assert forall j :: 0 <= j < |r| ==> (IpKey(r[j]) == k <==> j == i);
    FindOnly(r, IpKey, k, i);
  }

  /** Creating an IP mirror and then deleting its source leaves the mirrors as they were. */
  lemma IpDeleteUndoesCreate(ms: seq<MirrorIp>, settings: string, ip: SourceIp)
    requires Find(ms, IpKey, Key(settings, ip.backendId)).Missing?
    ensures var created := IpStateChanged(ms, Some(settings), ip, Creating, Ok);
            && created.Success?
            && DeleteMirror(created.value, IpKey, Key(settings, ip.backendId)) == Success(ms)
  {
    var k := Key(settings, ip.backendId);
    var c := ms + [MirrorOf(settings, ip)];
    assert Find(c, IpKey, k) == Found(|ms|) by {
      assert IpKey(c[|ms|]) == k;
      assert forall j :: 0 <= j < |ms| ==> c[j] == ms[j];
    }
    assert Remove(c, |ms|) == ms;
  }

  /** `on_openstack_*_deleted`: without settings nothing happens, otherwise the mirror is deleted. */
  function SourceDeleted<M>(ms: seq<M>, keyOf: M -> Key, settings: Option<string>, backendId: string)
    : (r: Result<seq<M>, string>)
    ensures settings.None? ==> r == Success(ms)
    ensures settings.Some? ==> r == DeleteMirror(ms, keyOf, Key(settings.value, backendId))
  {
    if settings.None? then Success(ms) else DeleteMirror(ms, keyOf, Key(settings.value, backendId))
  }
}
