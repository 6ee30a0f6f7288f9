/**
 * The password validators: every validator of the list runs, and the
 * password is refused with all of their errors, in order, when any refuses.
 */
module Passwords {
  import opened Wrappers
  import opened Seqs

  datatype Validator = MinimumLength(minLength: int) | Numeric

  datatype PasswordError = TooShort(minLength: int) | EntirelyNumeric

  const DefaultMinLength: int := 8

  /** The list used when the caller gives none. */
  const DefaultValidators: seq<Validator> := [MinimumLength(DefaultMinLength), Numeric]

  predicate IsDigit(c: char)
  {
    '0' <= c <= '9'
  }

  /** `str.isdigit`: at least one character, and every character a digit. */
  predicate AllDigits(p: string)
  {
    |p| > 0 && forall i :: 0 <= i < |p| ==> IsDigit(p[i])
  }

  /** One validator's verdict on a password. */
  function Check(v: Validator, p: string): (o: Outcome<PasswordError>)
    ensures v.MinimumLength? ==> (o.Fail? <==> |p| < v.minLength)
    ensures v.Numeric? ==> (o.Fail? <==> AllDigits(p))
    ensures o.Fail? ==> (o.error.TooShort? <==> v.MinimumLength?)
  {
    match v
    case MinimumLength(n) => if |p| < n then Fail(TooShort(n)) else Pass
    case Numeric => if AllDigits(p) then Fail(EntirelyNumeric) else Pass
  }

  /** The errors of the given validators, one per refusing validator, in their order. */
  function Errors(p: string, validators: seq<Validator>): (r: seq<PasswordError>)
    ensures |r| <= |validators|
    ensures r == [] <==> forall i :: 0 <= i < |validators| ==> Check(validators[i], p).Pass?
    ensures forall v :: v in validators && Check(v, p).Fail? ==> Check(v, p).error in r
    ensures forall e :: e in r ==> exists v :: v in validators && Check(v, p) == Fail(e)
    decreases |validators|
  {
    if validators == [] then []
    else
      var rest := Errors(p, validators[1..]);
      assert forall i :: 1 <= i < |validators| ==> validators[i] == validators[1..][i - 1];
      assert forall v :: v in validators[1..] ==> v in validators;
      match Check(validators[0], p)
      case Fail(e) => [e] + rest
      case Pass => rest
  }

  /** `validate_password`: none means the default list; the password passes iff no validator refuses it. */
  function ValidatePassword(p: string, validators: Option<seq<Validator>>): (o: Outcome<seq<PasswordError>>)
    ensures o.Pass? <==> Errors(p, validators.GetOr(DefaultValidators)) == []
    ensures o.Fail? ==> o.error == Errors(p, validators.GetOr(DefaultValidators)) && |o.error| > 0
  {
    var errors := Errors(p, validators.GetOr(DefaultValidators));
    if errors == [] then Pass else Fail(errors)
  }

  /** With the default validators a password passes iff it has at least 8 characters and is not all digits. */
  lemma DefaultPolicy(p: string)
    ensures ValidatePassword(p, None).Pass? <==> |p| >= DefaultMinLength && !AllDigits(p)
  {
    var vs := DefaultValidators;
    assert vs[0] == MinimumLength(8) && vs[1] == Numeric;
  }

  /** A short numeric password gets both errors, the length one first. */
  lemma ShortNumericGetsBothErrors(p: string)
    requires |p| < DefaultMinLength && AllDigits(p)
    ensures ValidatePassword(p, None) == Fail([TooShort(DefaultMinLength), EntirelyNumeric])
  {
    var vs := DefaultValidators;
    assert vs[1..] == [Numeric] && vs[1..][1..] == [];
    assert Errors(p, vs[1..][1..]) == [];
    assert Errors(p, vs[1..]) == [EntirelyNumeric];
    assert Errors(p, vs) == [TooShort(DefaultMinLength), EntirelyNumeric];
  }

  /** The empty password is too short but not numeric. */
  lemma EmptyPasswordIsOnlyTooShort()
    ensures ValidatePassword("", None) == Fail([TooShort(DefaultMinLength)])
  {
    var vs := DefaultValidators;
    assert vs[1..] == [Numeric] && vs[1..][1..] == [];
    assert Errors("", vs[1..][1..]) == [];
    assert Errors("", vs[1..]) == [];
    assert Errors("", vs) == [TooShort(DefaultMinLength)];
  }

  /** An empty validator list accepts every password. */
  lemma NoValidatorsAcceptAll(p: string)
    ensures ValidatePassword(p, Some([])).Pass?
  {
  }
}
