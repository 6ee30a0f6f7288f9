/**
 * What a text field of a request does to its value before any check: it
 * trims whitespace from both ends. A value that is empty once trimmed is
 * blank; a field refuses it unless blank values are allowed.
 *
 * Only the ASCII whitespace characters are modelled.
 */
module TextFields {
  const Whitespace: set<char> := {' ', '\t', '\n', '\r', '\U{000B}', '\U{000C}'}

  /** How many whitespace characters the value starts with. */
  function LeadingSpaces(s: string): (n: nat)
    ensures n <= |s|
    ensures forall i :: 0 <= i < n ==> s[i] in Whitespace
    ensures n < |s| ==> s[n] !in Whitespace
    decreases |s|
  {
    if s != [] && s[0] in Whitespace then 1 + LeadingSpaces(s[1..]) else 0
  }

  /** The value with its trailing whitespace removed. */
  function TrimEnd(s: string): (r: string)
    ensures |r| <= |s| && r == s[..|r|]
    ensures forall i :: |r| <= i < |s| ==> s[i] in Whitespace
    ensures r != [] ==> r[|r| - 1] !in Whitespace
    decreases |s|
  {
    if s != [] && s[|s| - 1] in Whitespace then TrimEnd(s[..|s| - 1]) else s
  }

  /**
   * The trimmed value: the slice of the input after its leading whitespace
   * that neither starts nor ends with whitespace, with only whitespace
   * after it.
   */
  function Trim(s: string): (r: string)
    ensures LeadingSpaces(s) + |r| <= |s|
    ensures r == s[LeadingSpaces(s)..LeadingSpaces(s) + |r|]
    ensures forall i :: LeadingSpaces(s) + |r| <= i < |s| ==> s[i] in Whitespace
    ensures r != [] ==> r[0] !in Whitespace && r[|r| - 1] !in Whitespace
  {
    var a := LeadingSpaces(s);
    var r := TrimEnd(s[a..]);
    assert forall i :: a + |r| <= i < |s| ==> s[i] == s[a..][i - a];
    r
  }

  /** Empty once trimmed. */
  predicate Blank(s: string)
  {
    Trim(s) == ""
  }

  /** A value is blank exactly when all its characters are whitespace. */
  lemma BlankIsAllWhitespace(s: string)
    ensures Blank(s) <==> forall i :: 0 <= i < |s| ==> s[i] in Whitespace
  {
    var r := Trim(s);
    var a := LeadingSpaces(s);
    if r != "" {
      assert s[a] == r[0];
    }
  }

  /** A value without surrounding whitespace is left as it is. */
  lemma TrimKeepsTrimmed(s: string)
    requires s == [] || (s[0] !in Whitespace && s[|s| - 1] !in Whitespace)
    ensures Trim(s) == s
  {
  }

  /** Trimming twice is trimming once. */
  lemma TrimIdempotent(s: string)
    ensures Trim(Trim(s)) == Trim(s)
  {
    TrimKeepsTrimmed(Trim(s));
  }
}
