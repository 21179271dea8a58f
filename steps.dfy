/** A single Given/When/Then/Background step (BDDStep) and its display form. */
module Steps {
  import opened Wrappers

  /** A step action is an opaque zero-argument callable; the model identifies it by a number. */
  type ActionId = nat

  /** An opaque data-table or context value. */
  datatype Value = Value(id: nat)

  const GivenKeyword: string := "Given"
  const WhenKeyword: string := "When"
  const ThenKeyword: string := "Then"
  const BackgroundKeyword: string := "Background"

  /** A step: its keyword, its free-text description and the action bound to it, if any. */
  datatype Step = Step(keyword: string, description: string, action: Option<ActionId>)

  /** The display form `"<keyword> <description>"` (BDDStep.__repr__, also used by str()). */
  function Display(step: Step): (s: string)
    ensures |s| == |step.keyword| + 1 + |step.description|
    ensures s[..|step.keyword|] == step.keyword && s[|step.keyword|] == ' '
    ensures s[|step.keyword| + 1..] == step.description
  {
    step.keyword + " " + step.description
  }

  /** Index of the first space in `s`, or `|s|` when there is none. */
  function FirstSpace(s: string): (i: nat)
    ensures i <= |s|
    ensures i < |s| ==> s[i] == ' '
    ensures forall j :: 0 <= j < i ==> s[j] != ' '
  {
    if s == [] then 0
    else if s[0] == ' ' then 0
    else 1 + FirstSpace(s[1..])
  }

  /** Splits a display string back into keyword and description at its first space. */
  function ParseDisplay(s: string): (r: Option<(string, string)>)
    ensures r.None? <==> ' ' !in s
    ensures r.Some? ==> r.value.0 + " " + r.value.1 == s && ' ' !in r.value.0
  {
    var i := FirstSpace(s);
    if i == |s| then None
    else
      assert s == s[..i] + " " + s[i + 1..];
      Some((s[..i], s[i + 1..]))
  }

  /**
   * The reporter keeps only display strings; for every keyword without a space
   * (all four keywords the DSL uses) the keyword and description can be read back.
   */
  lemma ParseDisplayRoundTrip(step: Step)
    requires ' ' !in step.keyword
    ensures ParseDisplay(Display(step)) == Some((step.keyword, step.description))
  {
    var s := Display(step);
    assert s[|step.keyword|] == ' ';
  }

  /** Two steps with space-free keywords and the same display string agree on keyword and description. */
  lemma DisplayInjective(a: Step, b: Step)
    requires ' ' !in a.keyword && ' ' !in b.keyword
    requires Display(a) == Display(b)
    ensures a.keyword == b.keyword && a.description == b.description
  {
    ParseDisplayRoundTrip(a);
    ParseDisplayRoundTrip(b);
  }
}
