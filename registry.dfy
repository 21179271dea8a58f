/**
 * The step registry (StepRegistry): per-phase tables from step descriptions to
 * actions, resolution of a step text to an action, and the shared context store.
 */
module Registry {
  import opened Wrappers
  import opened Steps

  /** One entry of a phase table: a registered description and its action. */
  datatype Entry = Entry(key: string, action: ActionId)

  /**
   * A phase table is a Python dict: entries in first-insertion order. Every
   * operation below keeps its keys unique.
   */
  ghost predicate UniqueKeys(m: seq<Entry>)
  {
    forall i, j :: 0 <= i < j < |m| ==> m[i].key != m[j].key
  }

  /** Position of the entry with `key` (the first one), or `|m|` when the key is not registered. */
  function IndexOf(m: seq<Entry>, key: string): (i: nat)
    ensures i <= |m|
    ensures i < |m| ==> m[i].key == key
    ensures forall j :: 0 <= j < i ==> m[j].key != key
  {
    if m == [] then 0
    else if m[0].key == key then 0
    else 1 + IndexOf(m[1..], key)
  }

  /** Dict lookup (`key in d` / `d[key]`): the action registered under `key`, if any. */
  function Lookup(m: seq<Entry>, key: string): (r: Option<ActionId>)
    ensures r.None? <==> forall j :: 0 <= j < |m| ==> m[j].key != key
    ensures UniqueKeys(m) ==> forall j :: 0 <= j < |m| && m[j].key == key ==> r == Some(m[j].action)
  {
    var i := IndexOf(m, key);
    if i < |m| then Some(m[i].action) else None
  }

  /**
   * Dict assignment `d[key] = action`: an existing key keeps its position and
   * takes the new action; a new key is appended at the end. Afterwards `key`
   * looks up the new action and every other key what it did before.
   */
  function Put(m: seq<Entry>, key: string, action: ActionId): (r: seq<Entry>)
    ensures |m| <= |r| <= |m| + 1
    ensures UniqueKeys(m) ==> UniqueKeys(r)
    ensures forall j :: 0 <= j < |m| ==> r[j].key == m[j].key
    ensures forall j :: 0 <= j < |m| && m[j].key != key ==> r[j] == m[j]
    ensures Lookup(m, key).Some? ==> |r| == |m|
    ensures Lookup(m, key).None? ==> |r| == |m| + 1 && r[|m|] == Entry(key, action)
    ensures Lookup(r, key) == Some(action)
    ensures forall k :: k != key ==> Lookup(r, k) == Lookup(m, k)
  {
    var i := IndexOf(m, key);
    if i < |m| then m[i := Entry(key, action)] else m + [Entry(key, action)]
  }

  /**
   * StepRegistry._matches_pattern. The pattern is passed through `re.escape`,
   * and the `{placeholder}` replacement that follows looks for a text that
   * escaped output never contains, so it never fires; `re.match` then anchors
   * the literal pattern at the start of the text only. The test is therefore
   * "the pattern is a prefix of the text", decided here character by character.
   */
  function MatchesPattern(pattern: string, text: string): (r: bool)
    ensures r <==> |pattern| <= |text| && text[..|pattern|] == pattern
  {
    if pattern == [] then true
    else if text == [] then false
    else pattern[0] == text[0] && MatchesPattern(pattern[1..], text[1..])
  }

  /**
   * A `{placeholder}` in a registered description is matched as literal text:
   * "I search for {query}" does not match "I search for python", while its
   * literal prefix "I search for " does.
   */
  lemma PlaceholderIsLiteral()
    ensures !MatchesPattern("I search for {query}", "I search for python")
    ensures MatchesPattern("I search for ", "I search for python")
  {
    assert "I search for python"[13] == 'p';
  }

  /** The action of the first entry, in table order, whose key is a prefix of `description`. */
  function FirstMatch(m: seq<Entry>, description: string): (r: Option<ActionId>)
    ensures r.None? <==> forall i :: 0 <= i < |m| ==> !MatchesPattern(m[i].key, description)
    ensures r.Some? ==>
      exists i :: 0 <= i < |m| && m[i].action == r.value && MatchesPattern(m[i].key, description)
        && forall j :: 0 <= j < i ==> !MatchesPattern(m[j].key, description)
  {
    if m == [] then None
    else if MatchesPattern(m[0].key, description) then Some(m[0].action)
    else
      var r := FirstMatch(m[1..], description);
      assert forall i :: 1 <= i < |m| ==> m[i] == m[1..][i - 1];
      if r.Some? then
        var i :| 0 <= i < |m[1..]| && m[1..][i].action == r.value
          && MatchesPattern(m[1..][i].key, description)
          && forall j :: 0 <= j < i ==> !MatchesPattern(m[1..][j].key, description);
        assert m[i + 1] == m[1..][i];
        r
      else r
  }

  /**
   * StepRegistry.match_step on one phase table: an exact key wins; otherwise
   * the first key, in insertion order, that is a prefix of the description;
   * otherwise nothing.
   */
  function Resolve(m: seq<Entry>, description: string): (r: Option<ActionId>)
    ensures Lookup(m, description).Some? ==> r == Lookup(m, description)
    ensures Lookup(m, description).None? ==> r == FirstMatch(m, description)
    ensures r.None? <==> forall i :: 0 <= i < |m| ==> !MatchesPattern(m[i].key, description)
  {
    var exact := Lookup(m, description);
    if exact.Some? then
      assert MatchesPattern(m[IndexOf(m, description)].key, description);
      exact
    else FirstMatch(m, description)
  }

  /**
   * The exact key takes priority even over an earlier-registered key that is a
   * prefix of the description.
   */
  lemma ExactBeatsEarlierPrefix(m: seq<Entry>, i: nat, j: nat, description: string)
    requires UniqueKeys(m)
    requires i < j < |m| && MatchesPattern(m[i].key, description) && m[j].key == description
    ensures Resolve(m, description) == Some(m[j].action)
  {
  }

  /** Without an exact key, of two keys that are prefixes of the description the earlier-registered wins. */
  lemma EarlierPrefixWins(m: seq<Entry>, i: nat, j: nat, description: string)
    requires i < j < |m| && MatchesPattern(m[i].key, description) && MatchesPattern(m[j].key, description)
    requires forall k :: 0 <= k < i ==> !MatchesPattern(m[k].key, description)
    requires Lookup(m, description).None?
    ensures Resolve(m, description) == Some(m[i].action)
  {
    var r := FirstMatch(m, description);
    var k :| 0 <= k < |m| && m[k].action == r.value && MatchesPattern(m[k].key, description)
      && forall l :: 0 <= l < k ==> !MatchesPattern(m[l].key, description);
    assert k == i;
  }

  lemma PutFirstMatch(m: seq<Entry>, key: string, action: ActionId, description: string)
    requires !MatchesPattern(key, description)
    ensures FirstMatch(Put(m, key, action), description) == FirstMatch(m, description)
  {
    var r := Put(m, key, action);
    var after, before := FirstMatch(r, description), FirstMatch(m, description);
    if after.Some? {
      var i :| 0 <= i < |r| && r[i].action == after.value && MatchesPattern(r[i].key, description)
        && forall j :: 0 <= j < i ==> !MatchesPattern(r[j].key, description);
      assert i < |m| && r[i] == m[i];
      assert before.Some?;
      var k :| 0 <= k < |m| && m[k].action == before.value && MatchesPattern(m[k].key, description)
        && forall j :: 0 <= j < k ==> !MatchesPattern(m[j].key, description);
      assert k == i;
    }
  }

  /** Registering `key` changes the resolution of a description only if `key` is a prefix of it. */
  lemma PutPreservesOtherResolutions(m: seq<Entry>, key: string, action: ActionId, description: string)
    requires !MatchesPattern(key, description)
    ensures Resolve(Put(m, key, action), description) == Resolve(m, description)
  {
    assert key != description;
    PutFirstMatch(m, key, action, description);
  }

  /** Last write wins: of two registrations under one key, resolving that key yields the second. */
  lemma LastRegistrationWins(m: seq<Entry>, key: string, first: ActionId, second: ActionId)
    ensures Resolve(Put(Put(m, key, first), key, second), key) == Some(second)
  {
  }

  /** The step registry: three phase tables and the scenario context. */
  class StepRegistry {
    var givenSteps: seq<Entry>
    var whenSteps: seq<Entry>
    var thenSteps: seq<Entry>
    var context: map<string, Value>

    ghost predicate Valid()
      reads this
    {
      UniqueKeys(givenSteps) && UniqueKeys(whenSteps) && UniqueKeys(thenSteps)
    }

    constructor ()
      ensures Valid()
      ensures givenSteps == [] && whenSteps == [] && thenSteps == [] && context == map[]
    {
      givenSteps, whenSteps, thenSteps := [], [], [];
      context := map[];
    }

    /** The table `match_step` consults for a keyword; any keyword but Given, When or Then has none. */
    function PhaseTable(keyword: string): (m: seq<Entry>)
      reads this
      ensures keyword !in {GivenKeyword, WhenKeyword, ThenKeyword} ==> m == []
    {
      if keyword == GivenKeyword then givenSteps
      else if keyword == WhenKeyword then whenSteps
      else if keyword == ThenKeyword then thenSteps
      else []
    }

    /** What `match_step(keyword, description)` returns in the current state. */
    function StepFor(keyword: string, description: string): (r: Option<ActionId>)
      reads this
      ensures keyword !in {GivenKeyword, WhenKeyword, ThenKeyword} ==> r.None?
    {
      Resolve(PhaseTable(keyword), description)
    }

    /** The `given(description)` decorator applied to `action`: registers it and hands it back. */
    method RegisterGiven(description: string, action: ActionId) returns (registered: ActionId)
      requires Valid()
      modifies this
      ensures Valid() && registered == action
      ensures givenSteps == Put(old(givenSteps), description, action)
      ensures whenSteps == old(whenSteps) && thenSteps == old(thenSteps) && context == old(context)
      ensures StepFor(GivenKeyword, description) == Some(action)
    {
      givenSteps := Put(givenSteps, description, action);
      registered := action;
    }

    /** The `when(description)` decorator applied to `action`. */
    method RegisterWhen(description: string, action: ActionId) returns (registered: ActionId)
      requires Valid()
      modifies this
      ensures Valid() && registered == action
      ensures whenSteps == Put(old(whenSteps), description, action)
      ensures givenSteps == old(givenSteps) && thenSteps == old(thenSteps) && context == old(context)
      ensures StepFor(WhenKeyword, description) == Some(action)
    {
      whenSteps := Put(whenSteps, description, action);
      registered := action;
    }

    /** The `then(description)` decorator applied to `action`. */
    method RegisterThen(description: string, action: ActionId) returns (registered: ActionId)
      requires Valid()
      modifies this
      ensures Valid() && registered == action
      ensures thenSteps == Put(old(thenSteps), description, action)
      ensures givenSteps == old(givenSteps) && whenSteps == old(whenSteps) && context == old(context)
      ensures StepFor(ThenKeyword, description) == Some(action)
    {
      thenSteps := Put(thenSteps, description, action);
      registered := action;
    }

    method SetContext(key: string, value: Value)
      modifies this
      ensures context == old(context)[key := value]
      ensures GetContext(key) == Some(value)
      ensures forall k :: k != key ==> GetContext(k) == old(GetContext(k))
      ensures givenSteps == old(givenSteps) && whenSteps == old(whenSteps) && thenSteps == old(thenSteps)
    {
      context := context[key := value];
    }

    /** `get_context`: the stored value, or None for a key that is not set. */
    function GetContext(key: string): (r: Option<Value>)
      reads this
      ensures r.Some? <==> key in context
      ensures r.Some? ==> r.value == context[key]
    {
      if key in context then Some(context[key]) else None
    }

    method ClearContext()
      modifies this
      ensures context == map[]
      ensures forall k :: GetContext(k) == None
      ensures givenSteps == old(givenSteps) && whenSteps == old(whenSteps) && thenSteps == old(thenSteps)
    {
      context := map[];
    }

    /**
     * `match_step`: the exact key of the keyword's table if present, otherwise
     * a scan of the table in insertion order for the first key that matches as
     * a pattern, otherwise None.
     */
    method MatchStep(keyword: string, description: string) returns (action: Option<ActionId>)
      ensures action == StepFor(keyword, description)
    {
      var table := PhaseTable(keyword);
      var exact := Lookup(table, description);
      if exact.Some? {
        return exact;
      }
      var i := 0;
      while i < |table|
        invariant 0 <= i <= |table|
        invariant forall j :: 0 <= j < i ==> !MatchesPattern(table[j].key, description)
      {
        if MatchesPattern(table[i].key, description) {
          return Some(table[i].action);
        }
        i := i + 1;
      }
      return None;
    }
  }
}
