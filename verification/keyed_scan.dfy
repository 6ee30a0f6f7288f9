/**
 * The shape shared by the pulls that walk a backend listing against a
 * pending map: stored records keyed by backend id, a pending map of the
 * stored records not yet matched, one handling step per backend entry, and
 * a final sweep that deletes whatever is still pending.
 *
 * A step only looks at and changes the stored and pending records under its
 * own entry's id. That is what lets the outcome for one id be read off the
 * entries carrying that id alone.
 */
module KeyedScan {
  import opened Wrappers

  /** What a scan holds under one id. */
  datatype Slot<R> = Slot(stored: Option<R>, pending: Option<R>)

  datatype Scan<R> = Scan(stored: map<string, R>, pending: map<string, R>)

  function Get<R>(m: map<string, R>, id: string): Option<R>
  {
    if id in m then Some(m[id]) else None
  }

  function Put<R>(m: map<string, R>, id: string, v: Option<R>): map<string, R>
  {
    if v.Some? then m[id := v.value] else m - {id}
  }

  function At<R>(s: Scan<R>, id: string): Slot<R>
  {
    Slot(Get(s.stored, id), Get(s.pending, id))
  }

  /** One entry handled: its id's slot is replaced by what `handle` makes of it. */
  function Step<R, B>(s: Scan<R>, b: B, idOf: B -> string, handle: (Slot<R>, B) -> Slot<R>): Scan<R>
  {
    var id := idOf(b);
    var slot := handle(At(s, id), b);
    Scan(Put(s.stored, id, slot.stored), Put(s.pending, id, slot.pending))
  }

  /** The entries handled in listing order. */
  function Fold<R, B>(s: Scan<R>, entries: seq<B>, idOf: B -> string, handle: (Slot<R>, B) -> Slot<R>): Scan<R>
    decreases |entries|
  {
    if entries == [] then s
    else Fold(Step(s, entries[0], idOf, handle), entries[1..], idOf, handle)
  }

  /** The stored records left once everything still pending is deleted. */
  function Sweep<R>(s: Scan<R>): (r: map<string, R>)
    ensures forall id :: id in r <==> At(s, id).stored.Some? && At(s, id).pending.None?
    ensures forall id :: id in r ==> r[id] == At(s, id).stored.value
  {
    map id | id in s.stored && id !in s.pending :: s.stored[id]
  }

  predicate DistinctIds<B>(entries: seq<B>, idOf: B -> string)
  {
    forall i, j :: 0 <= i < j < |entries| ==> idOf(entries[i]) != idOf(entries[j])
  }

  lemma StepLocal<R, B>(s: Scan<R>, b: B, idOf: B -> string, handle: (Slot<R>, B) -> Slot<R>, id: string)
    ensures At(Step(s, b, idOf, handle), id) == if idOf(b) == id then handle(At(s, id), b) else At(s, id)
  {
  }

  /** Entries that leave an id's slot as it is leave it as it is over the whole scan. */
  lemma {:induction false} FoldFixed<R, B>(s: Scan<R>, entries: seq<B>, idOf: B -> string,
                                           handle: (Slot<R>, B) -> Slot<R>, id: string)
    requires forall k :: 0 <= k < |entries| && idOf(entries[k]) == id ==> handle(At(s, id), entries[k]) == At(s, id)
    ensures At(Fold(s, entries, idOf, handle), id) == At(s, id)
    decreases |entries|
  {
    if entries != [] {
      var next := Step(s, entries[0], idOf, handle);
      StepLocal(s, entries[0], idOf, handle, id);
      assert At(next, id) == At(s, id);
      assert forall k :: 0 <= k < |entries[1..]| ==> entries[1..][k] == entries[k + 1];
      FoldFixed(next, entries[1..], idOf, handle, id);
    }
  }

  /** With distinct ids, an id's slot at the end is what its one entry makes of its slot at the start. */
  lemma {:induction false} FoldOnce<R, B>(s: Scan<R>, entries: seq<B>, idOf: B -> string,
                                          handle: (Slot<R>, B) -> Slot<R>, k: int)
    requires DistinctIds(entries, idOf) && 0 <= k < |entries|
    ensures At(Fold(s, entries, idOf, handle), idOf(entries[k])) == handle(At(s, idOf(entries[k])), entries[k])
    decreases |entries|
  {
    var id := idOf(entries[k]);
    var next := Step(s, entries[0], idOf, handle);
    var rest := entries[1..];
    StepLocal(s, entries[0], idOf, handle, id);
    assert forall m :: 0 <= m < |rest| ==> rest[m] == entries[m + 1];
    if k == 0 {
      FoldFixed(next, rest, idOf, handle, id);
    } else {
      assert DistinctIds(rest, idOf);
      FoldOnce(next, rest, idOf, handle, k - 1);
    }
  }
}
