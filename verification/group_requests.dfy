/**
 * The rule list of a security-group request: how each submitted rule is
 * validated, and how an update turns the group's stored rules and the
 * submitted list into the rules it keeps, deletes and adds.
 */
module GroupRequests {
  import opened Wrappers
  import opened Seqs
  import SR = SecurityGroupRules

  /**
   * A rule as submitted: a new one has no id; a stored one carries its id
   * and the group it is stored under.
   */
  datatype Submitted = Submitted(id: Option<int>, group: Option<string>, rule: SR.Rule)

  datatype RuleListError = InvalidRule(e: SR.RuleError) | InvalidField | ExistingRuleOnCreate | ForeignRule

  /**
   * One rule of `validate_rules`: Django's `full_clean` (the field checks of
   * `clean_fields`, then the model's `clean`), then a stored rule is refused
   * on creation (`target` is none) and, on update, when it belongs to
   * another group.
   */
  function CheckRule(s: Submitted, target: Option<string>, cidrOk: string -> bool): (o: Outcome<RuleListError>)
    ensures o.Pass? <==> SR.FullClean(s.rule, cidrOk) && (s.id.Some? ==> target.Some? && s.group == target)
    ensures o == Fail(ExistingRuleOnCreate) <==> SR.FullClean(s.rule, cidrOk) && s.id.Some? && target.None?
  {
    if !SR.FieldsValid(s.rule) then Fail(InvalidField)
    else if SR.Clean(s.rule, cidrOk).Fail? then Fail(InvalidRule(SR.Clean(s.rule, cidrOk).error))
    else if s.id.Some? && target.None? then Fail(ExistingRuleOnCreate)
    else if s.id.Some? && s.group != target then Fail(ForeignRule)
    else Pass
  }

  /** `validate_rules`: the rules in order; the first refusal is the answer. */
  function ValidateRules(rules: seq<Submitted>, target: Option<string>, cidrOk: string -> bool)
    : (o: Outcome<RuleListError>)
    ensures o.Pass? <==> forall i :: 0 <= i < |rules| ==> CheckRule(rules[i], target, cidrOk).Pass?
    ensures o.Fail? ==> exists i :: && 0 <= i < |rules| && CheckRule(rules[i], target, cidrOk) == o
                                    && forall j :: 0 <= j < i ==> CheckRule(rules[j], target, cidrOk).Pass?
    decreases |rules|
  {
    if rules == [] then Pass
    else match CheckRule(rules[0], target, cidrOk)
      case Fail(e) => Fail(e)
      case Pass =>
        var o := ValidateRules(rules[1..], target, cidrOk);
        assert forall i :: 1 <= i < |rules| ==> rules[i] == rules[1..][i - 1];
        if o.Fail? then
          var k :| && 0 <= k < |rules[1..]| && CheckRule(rules[1..][k], target, cidrOk) == o
                   && forall j :: 0 <= j < k ==> CheckRule(rules[1..][j], target, cidrOk).Pass?;
          assert CheckRule(rules[k + 1], target, cidrOk) == o;
          o
        else o
  }

  /** A rule list accepted for a new group holds only new rules, and all of them are valid. */
  lemma CreateTakesOnlyNewRules(rules: seq<Submitted>, cidrOk: string -> bool, i: int)
    requires ValidateRules(rules, None, cidrOk).Pass? && 0 <= i < |rules|
    ensures rules[i].id.None? && SR.FullClean(rules[i].rule, cidrOk)
  {
    assert CheckRule(rules[i], None, cidrOk).Pass?;
  }

  /* ---------------------------------------------------------------------- */
  /* Update                                                                 */

  datatype StoredRule = StoredRule(id: int, rule: SR.Rule)

  function IdsOf(rules: seq<StoredRule>): set<int>
  {
    set r | r in rules :: r.id
  }

  predicate DistinctIds(rules: seq<StoredRule>)
  {
    forall i, j :: 0 <= i < j < |rules| ==> rules[i].id != rules[j].id
  }

  /** The ids of the stored rules in a submitted list. */
  function ExistedIds(rules: seq<Submitted>): set<int>
  {
    set s | s in rules && s.id.Some? :: s.id.value
  }

  function IdIn(ids: set<int>): StoredRule -> bool
  {
    (r: StoredRule) => r.id in ids
  }

  function IdNotIn(ids: set<int>): StoredRule -> bool
  {
    (r: StoredRule) => r.id !in ids
  }

  function IsNew(): Submitted -> bool
  {
    (s: Submitted) => s.id.None?
  }

  function RuleOf(s: Submitted): SR.Rule
  {
    s.rule
  }

  datatype RuleUpdate = RuleUpdate(kept: seq<StoredRule>, deleted: seq<StoredRule>, added: seq<SR.Rule>)

  /**
   * `update`: the stored rules whose id was not submitted are deleted, the
   * others stay as stored, and the submitted rules without an id are added.
   */
  function UpdateRules(current: seq<StoredRule>, submitted: seq<Submitted>): (u: RuleUpdate)
    ensures |u.kept| + |u.deleted| == |current|
  {
    var existed := ExistedIds(submitted);
    FilterPartition(current, existed);
    RuleUpdate(Filter(current, IdIn(existed)), Filter(current, IdNotIn(existed)),
               Map(Filter(submitted, IsNew()), RuleOf))
  }

  lemma {:induction false} FilterPartition(current: seq<StoredRule>, ids: set<int>)
    ensures |Filter(current, IdIn(ids))| + |Filter(current, IdNotIn(ids))| == |current|
    decreases |current|
  {
    if current != [] {
      FilterPartition(current[1..], ids);
    }
  }

  /** A stored rule stays exactly when its id was submitted, and is deleted otherwise. */
  lemma UpdateKeepsSubmittedIds(current: seq<StoredRule>, submitted: seq<Submitted>, r: StoredRule)
    requires r in current
    ensures var u := UpdateRules(current, submitted);
            && (r in u.kept <==> exists s :: s in submitted && s.id == Some(r.id))
            && (r in u.deleted <==> !exists s :: s in submitted && s.id == Some(r.id))
  {
    var existed := ExistedIds(submitted);
    FilterIn(current, IdIn(existed), r);
    FilterIn(current, IdNotIn(existed), r);
    if r.id in existed {
      var s :| s in submitted && s.id.Some? && s.id.value == r.id;
      assert s.id == Some(r.id);
    }
  }

  /** Every rule the update keeps or deletes was stored: nothing outside the group is touched. */
  lemma UpdateTouchesOnlyTheGroup(current: seq<StoredRule>, submitted: seq<Submitted>, r: StoredRule)
    ensures var u := UpdateRules(current, submitted);
            (r in u.kept || r in u.deleted) ==> r in current
  {
    var existed := ExistedIds(submitted);
    FilterIn(current, IdIn(existed), r);
    FilterIn(current, IdNotIn(existed), r);
  }

  /** The added rules are the submitted rules without an id, in the order given. */
  lemma UpdateAddsNewRules(current: seq<StoredRule>, submitted: seq<Submitted>, s: Submitted)
    requires s in submitted && s.id.None?
    ensures s.rule in UpdateRules(current, submitted).added
  {
    FilterIn(submitted, IsNew(), s);
    var f := Filter(submitted, IsNew());
    var k :| 0 <= k < |f| && f[k] == s;
    assert Map(f, RuleOf)[k] == s.rule;
  }

  /** Submitting exactly the stored rules and nothing new changes nothing. */
  lemma ResubmittingIsNoChange(current: seq<StoredRule>, submitted: seq<Submitted>)
    requires forall s :: s in submitted ==> s.id.Some?
    requires ExistedIds(submitted) == IdsOf(current)
    ensures UpdateRules(current, submitted) == RuleUpdate(current, [], [])
  {
    var existed := ExistedIds(submitted);
    FilterAll(current, IdIn(existed));
    FilterNone(current, IdNotIn(existed));
    FilterNoneSubmitted(submitted);
  }

  lemma {:induction false} FilterNone(current: seq<StoredRule>, drop: StoredRule -> bool)
    requires forall r :: r in current ==> !drop(r)
    ensures Filter(current, drop) == []
    decreases |current|
  {
    if current != [] {
      assert forall r :: r in current[1..] ==> r in current;
      FilterNone(current[1..], drop);
    }
  }

  lemma {:induction false} FilterNoneSubmitted(submitted: seq<Submitted>)
    requires forall s :: s in submitted ==> s.id.Some?
    ensures Filter(submitted, IsNew()) == []
    decreases |submitted|
  {
    if submitted != [] {
      assert forall s :: s in submitted[1..] ==> s in submitted;
      FilterNoneSubmitted(submitted[1..]);
    }
  }

  /** With distinct stored ids, the update keeps one rule per submitted id that names a stored rule. */
  lemma {:induction false} KeptCount(current: seq<StoredRule>, ids: set<int>)
    requires DistinctIds(current)
    ensures |Filter(current, IdIn(ids))| == |ids * IdsOf(current)|
    decreases |current|
  {
    if current == [] {
      assert IdsOf(current) == {};
    } else {
      var h, rest := current[0], current[1..];
      DistinctTail(current);
      KeptCount(rest, ids);
      IdsOfCons(current);
      var tail := ids * IdsOf(rest);
      assert h.id !in tail;
      if h.id in ids {
        assert Filter(current, IdIn(ids)) == [h] + Filter(rest, IdIn(ids));
        assert ids * IdsOf(current) == {h.id} + tail;
        assert |{h.id} + tail| == 1 + |tail|;
      } else {
        assert Filter(current, IdIn(ids)) == Filter(rest, IdIn(ids));
        assert ids * IdsOf(current) == tail;
      }
    }
  }

  lemma DistinctTail(current: seq<StoredRule>)
    requires DistinctIds(current) && current != []
    ensures DistinctIds(current[1..])
  {
    var rest := current[1..];
    forall a, b | 0 <= a < b < |rest| ensures rest[a].id != rest[b].id {
      assert rest[a] == current[a + 1] && rest[b] == current[b + 1];
    }
  }

  /** The ids of a non-empty list: its head's id, which the tail does not repeat, and the tail's. */
  lemma IdsOfCons(current: seq<StoredRule>)
    requires DistinctIds(current) && current != []
    ensures IdsOf(current) == {current[0].id} + IdsOf(current[1..])
    ensures current[0].id !in IdsOf(current[1..])
  {
    var h, rest := current[0], current[1..];
    assert forall r :: r in current <==> r == h || r in rest;
    forall r | r in rest ensures r.id != h.id {
      var m :| 0 <= m < |rest| && rest[m] == r;
      assert current[m + 1] == r;
    }
  }

  /**
   * After an accepted update of group `g` whose stored rules are `current`,
   * the group holds one rule per distinct submitted id plus the new rules.
   */
  lemma UpdatedGroupSize(current: seq<StoredRule>, submitted: seq<Submitted>, g: string, cidrOk: string -> bool)
    requires DistinctIds(current)
    requires ValidateRules(submitted, Some(g), cidrOk).Pass?
    requires forall s :: s in submitted && s.id.Some? && s.group == Some(g) ==> s.id.value in IdsOf(current)
    ensures var u := UpdateRules(current, submitted);
            |u.kept| + |u.added| == |ExistedIds(submitted)| + Count(submitted, IsNew())
  {
    var existed := ExistedIds(submitted);
    KeptCount(current, existed);
    assert existed <= IdsOf(current) by {
      forall x | x in existed ensures x in IdsOf(current) {
        var s :| s in submitted && s.id.Some? && s.id.value == x;
        var i :| 0 <= i < |submitted| && submitted[i] == s;
        assert CheckRule(submitted[i], Some(g), cidrOk).Pass?;
      }
    }
    assert existed * IdsOf(current) == existed;
  }
}
