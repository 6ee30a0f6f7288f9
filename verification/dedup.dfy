/**
 * The data migration that removes security groups sharing a backend id.
 *
 * Rows are listed in primary-key order. For every backend id held by more
 * than one row (the empty id included) one row survives: the first row in
 * state OK (stored as 3) if there is one, otherwise the first row. All other
 * rows with that id are deleted.
 */
module GroupDedup {
  import opened Wrappers
  import opened Seqs

  const OkState: int := 3

  datatype Row = Row(pk: int, backendId: string, state: int)

  predicate DistinctKeys(rows: seq<Row>)
  {
    forall i, j :: 0 <= i < j < |rows| ==> rows[i].pk != rows[j].pk
  }

  /** Index of the first row satisfying `p`, if any. */
  function FirstWhere(rows: seq<Row>, p: Row -> bool): (r: Option<nat>)
    ensures r.Some? ==> r.value < |rows| && p(rows[r.value]) && forall k :: 0 <= k < r.value ==> !p(rows[k])
    ensures r.None? ==> forall k :: 0 <= k < |rows| ==> !p(rows[k])
    decreases |rows|
  {
    if rows == [] then None
    else if p(rows[0]) then Some(0)
    else match FirstWhere(rows[1..], p)
      case None => None
      case Some(k) => Some(k + 1)
  }

  lemma FirstWhereSnoc(rows: seq<Row>, x: Row, p: Row -> bool)
    ensures FirstWhere(rows + [x], p) ==
              if FirstWhere(rows, p).Some? then FirstWhere(rows, p)
              else if p(x) then Some(|rows|) else None
  {
    var s := rows + [x];
    var r := FirstWhere(s, p);
    if FirstWhere(rows, p).Some? {
      var k := FirstWhere(rows, p).value;
      assert s[k] == rows[k];
    } else if p(x) {
      assert s[|rows|] == x;
    }
  }

  function SameId(b: string): Row -> bool
  {
    (r: Row) => r.backendId == b
  }

  function SameIdOk(b: string): Row -> bool
  {
    (r: Row) => r.backendId == b && r.state == OkState
  }

  /** The row kept for backend id `b`: the first OK one, else the first one; none if no row has the id. */
  function Survivor(rows: seq<Row>, b: string): (s: Option<Row>)
    ensures s.Some? <==> exists k :: 0 <= k < |rows| && rows[k].backendId == b
    ensures s.Some? ==> s.value in rows && s.value.backendId == b
  {
    match FirstWhere(rows, SameIdOk(b))
    case Some(k) => Some(rows[k])
    case None =>
      match FirstWhere(rows, SameId(b))
      case Some(k) => Some(rows[k])
      case None => None
  }

  predicate Survives(rows: seq<Row>, r: Row)
  {
    Survivor(rows, r.backendId) == Some(r)
  }

  /** The selection the migration applies to `rows`. */
  function Surviving(rows: seq<Row>): Row -> bool
  {
    r => Survives(rows, r)
  }

  /** Adding a row changes the survivor of its own id only; an OK row replaces a non-OK survivor. */
  lemma SurvivorSnoc(rows: seq<Row>, x: Row, b: string)
    ensures Survivor(rows + [x], b) ==
              if x.backendId != b then Survivor(rows, b)
              else if Survivor(rows, b).None? then Some(x)
              else if x.state == OkState && Survivor(rows, b).value.state != OkState then Some(x)
              else Survivor(rows, b)
  {
    FirstWhereSnoc(rows, x, SameIdOk(b));
    FirstWhereSnoc(rows, x, SameId(b));
  }

  /** The candidate map after one more row. */
  function Choose(chosen: map<string, Row>, r: Row): map<string, Row>
  {
    if r.backendId !in chosen then chosen[r.backendId := r]
    else if chosen[r.backendId].state != OkState && r.state == OkState then chosen[r.backendId := r]
    else chosen
  }

  /** `chosen` holds exactly the survivors of `rows`. */
  ghost predicate ChosenFor(chosen: map<string, Row>, rows: seq<Row>)
  {
    forall b :: Survivor(rows, b) == (if b in chosen then Some(chosen[b]) else None)
  }

  lemma ChooseStep(chosen: map<string, Row>, rows: seq<Row>, r: Row)
    requires ChosenFor(chosen, rows)
    ensures ChosenFor(Choose(chosen, r), rows + [r])
  {
    forall b ensures Survivor(rows + [r], b) == (if b in Choose(chosen, r) then Some(Choose(chosen, r)[b]) else None) {
      SurvivorSnoc(rows, r, b);
    }
  }

  lemma ChosenLookup(chosen: map<string, Row>, rows: seq<Row>, r: Row)
    requires ChosenFor(chosen, rows)
    ensures Surviving(rows)(r) <==> r.backendId in chosen && chosen[r.backendId] == r
  {
    assert Survivor(rows, r.backendId) == (if r.backendId in chosen then Some(chosen[r.backendId]) else None);
  }

  lemma KeepStep(chosen: map<string, Row>, rows: seq<Row>, j: int)
    requires ChosenFor(chosen, rows) && 0 <= j < |rows|
    ensures Filter(rows[..j + 1], Surviving(rows)) ==
              Filter(rows[..j], Surviving(rows))
              + (if rows[j].backendId in chosen && chosen[rows[j].backendId] == rows[j] then [rows[j]] else [])
  {
    assert rows[..j + 1] == rows[..j] + [rows[j]];
    FilterSnoc(rows[..j], rows[j], Surviving(rows));
    ChosenLookup(chosen, rows, rows[j]);
  }

  /** First pass of the migration: the candidate survivor per backend id. */
  method ChooseSurvivors(rows: seq<Row>) returns (chosen: map<string, Row>)
    ensures ChosenFor(chosen, rows)
  {
    chosen := map[];
    var i := 0;
    while i < |rows|
      invariant 0 <= i <= |rows|
      invariant ChosenFor(chosen, rows[..i])
    {
      assert rows[..i + 1] == rows[..i] + [rows[i]];
      ChooseStep(chosen, rows[..i], rows[i]);
      chosen := Choose(chosen, rows[i]);
      i := i + 1;
    }
    assert rows[..i] == rows;
  }

  /**
   * The migration: one pass keeps the candidate survivor per backend id,
   * replacing a non-OK candidate by the first OK row; a second pass keeps
   * the chosen rows in their original order.
   */
  method RemoveDuplicates(rows: seq<Row>) returns (kept: seq<Row>)
    ensures kept == Filter(rows, Surviving(rows))
  {
    var chosen := ChooseSurvivors(rows);
    kept := [];
    var j := 0;
    while j < |rows|
      invariant 0 <= j <= |rows|
      invariant kept == Filter(rows[..j], Surviving(rows))
    {
      var r := rows[j];
      KeepStep(chosen, rows, j);
      if r.backendId in chosen && chosen[r.backendId] == r {
        kept := kept + [r];
      }
      j := j + 1;
    }
    assert rows[..j] == rows;
  }

  /** After the migration no two remaining groups share a backend id. */
  lemma NoDuplicatesRemain(rows: seq<Row>)
    requires DistinctKeys(rows)
    ensures var kept := Filter(rows, Surviving(rows));
            forall i, j :: 0 <= i < j < |kept| ==> kept[i].backendId != kept[j].backendId
  {
    assert Distinct(rows);
    var kept := Filter(rows, Surviving(rows));
    FilterDistinct(rows, Surviving(rows));
    FilterMembers(rows, Surviving(rows));
    forall i, j | 0 <= i < j < |kept| ensures kept[i].backendId != kept[j].backendId {
      assert Surviving(rows)(kept[i]) && Surviving(rows)(kept[j]);
    }
  }

  /** Every backend id present before the migration is still present after it. */
  lemma EveryBackendIdSurvives(rows: seq<Row>, b: string)
    requires exists k :: 0 <= k < |rows| && rows[k].backendId == b
    ensures exists r :: r in Filter(rows, Surviving(rows)) && r.backendId == b
  {
    var s := Survivor(rows, b).value;
    var k :| 0 <= k < |rows| && rows[k] == s;
    assert Surviving(rows)(rows[k]);
    FilterMembers(rows, Surviving(rows));
  }

  /** When any row with the id was OK, the survivor is OK. */
  lemma SurvivorIsOkWhenPossible(rows: seq<Row>, b: string)
    requires exists k :: 0 <= k < |rows| && rows[k].backendId == b && rows[k].state == OkState
    ensures Survivor(rows, b).Some? && Survivor(rows, b).value.state == OkState
  {
    var k :| 0 <= k < |rows| && rows[k].backendId == b && rows[k].state == OkState;
    assert SameIdOk(b)(rows[k]);
  }

  /** When no row with the id was OK, the first such row survives. */
  lemma FirstSurvivesOtherwise(rows: seq<Row>, b: string, k: int)
    requires 0 <= k < |rows| && rows[k].backendId == b
    requires forall m :: 0 <= m < k ==> rows[m].backendId != b
    requires forall m :: 0 <= m < |rows| && rows[m].backendId == b ==> rows[m].state != OkState
    ensures Survivor(rows, b) == Some(rows[k])
  {
    assert SameId(b)(rows[k]);
  }

  /** A group whose backend id no other group holds is left alone. */
  lemma UniqueGroupsUntouched(rows: seq<Row>, k: int)
    requires 0 <= k < |rows|
    requires forall m :: 0 <= m < |rows| && m != k ==> rows[m].backendId != rows[k].backendId
    ensures rows[k] in Filter(rows, Surviving(rows))
  {
    var b := rows[k].backendId;
    assert SameId(b)(rows[k]);
    assert Surviving(rows)(rows[k]);
    FilterMembers(rows, Surviving(rows));
  }
}
