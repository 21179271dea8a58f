/** Scenarios (BDDScenario) and features (BDDFeature). */
module Scenarios {
  import opened Wrappers
  import opened Steps

  /** The actions `execute` invokes for `steps`, in order, skipping steps without one. */
  function Invoked(steps: seq<Step>): (ids: seq<ActionId>)
    ensures |ids| <= |steps|
  {
    if steps == [] then []
    else
      var last := steps[|steps| - 1];
      Invoked(steps[..|steps| - 1]) + (if last.action.Some? then [last.action.value] else [])
  }

  /** Invoking a concatenation invokes the first part, then the second. */
  lemma {:induction false} InvokedAppend(a: seq<Step>, b: seq<Step>)
    ensures Invoked(a + b) == Invoked(a) + Invoked(b)
    decreases |b|
  {
    if b == [] {
      assert a + b == a;
    } else {
      var b' := b[..|b| - 1];
      assert (a + b)[..|a + b| - 1] == a + b';
      InvokedAppend(a, b');
    }
  }

  /** An action id is invoked exactly when some step carries it. */
  lemma {:induction false} InvokedMembers(steps: seq<Step>, x: ActionId)
    ensures x in Invoked(steps) <==> exists i :: 0 <= i < |steps| && steps[i].action == Some(x)
    decreases |steps|
  {
    if steps != [] {
      var init := steps[..|steps| - 1];
      InvokedMembers(init, x);
      if x in Invoked(init) {
        var i :| 0 <= i < |init| && init[i].action == Some(x);
        assert steps[i].action == Some(x);
      }
      if exists i :: 0 <= i < |steps| && steps[i].action == Some(x) {
        var i :| 0 <= i < |steps| && steps[i].action == Some(x);
        if i < |init| {
          assert init[i].action == Some(x);
        }
      }
    }
  }

  /** When every step carries an action, each one is invoked, one per step and in step order. */
  lemma {:induction false} InvokedAllPresent(steps: seq<Step>)
    requires forall i :: 0 <= i < |steps| ==> steps[i].action.Some?
    ensures |Invoked(steps)| == |steps|
    ensures forall i :: 0 <= i < |steps| ==> Invoked(steps)[i] == steps[i].action.value
    decreases |steps|
  {
    if steps != [] {
      var init := steps[..|steps| - 1];
      InvokedAllPresent(init);
    }
  }

  /** When no step carries an action, nothing is invoked. */
  lemma {:induction false} InvokedNonePresent(steps: seq<Step>)
    requires forall i :: 0 <= i < |steps| ==> steps[i].action.None?
    ensures Invoked(steps) == []
    decreases |steps|
  {
    if steps != [] {
      InvokedNonePresent(steps[..|steps| - 1]);
    }
  }

  /** A BDD scenario: four ordered step lists and a data table, all updated in place. */
  class Scenario {
    var name: string
    var backgroundSteps: seq<Step>
    var givenSteps: seq<Step>
    var whenSteps: seq<Step>
    var thenSteps: seq<Step>
    var dataTable: map<string, Value>

    constructor (name: string)
      ensures this.name == name
      ensures backgroundSteps == [] && givenSteps == [] && whenSteps == [] && thenSteps == []
      ensures dataTable == map[]
    {
      this.name := name;
      backgroundSteps, givenSteps, whenSteps, thenSteps := [], [], [], [];
      dataTable := map[];
    }

    method AddGiven(step: Step) returns (self: Scenario)
      modifies this
      ensures self == this
      ensures givenSteps == old(givenSteps) + [step]
      ensures backgroundSteps == old(backgroundSteps) && whenSteps == old(whenSteps) && thenSteps == old(thenSteps)
      ensures name == old(name) && dataTable == old(dataTable)
    {
      givenSteps := givenSteps + [step];
      self := this;
    }

    method AddWhen(step: Step) returns (self: Scenario)
      modifies this
      ensures self == this
      ensures whenSteps == old(whenSteps) + [step]
      ensures backgroundSteps == old(backgroundSteps) && givenSteps == old(givenSteps) && thenSteps == old(thenSteps)
      ensures name == old(name) && dataTable == old(dataTable)
    {
      whenSteps := whenSteps + [step];
      self := this;
    }

    method AddThen(step: Step) returns (self: Scenario)
      modifies this
      ensures self == this
      ensures thenSteps == old(thenSteps) + [step]
      ensures backgroundSteps == old(backgroundSteps) && givenSteps == old(givenSteps) && whenSteps == old(whenSteps)
      ensures name == old(name) && dataTable == old(dataTable)
    {
      thenSteps := thenSteps + [step];
      self := this;
    }

    method AddBackground(step: Step) returns (self: Scenario)
      modifies this
      ensures self == this
      ensures backgroundSteps == old(backgroundSteps) + [step]
      ensures givenSteps == old(givenSteps) && whenSteps == old(whenSteps) && thenSteps == old(thenSteps)
      ensures name == old(name) && dataTable == old(dataTable)
    {
      backgroundSteps := backgroundSteps + [step];
      self := this;
    }

    /** Replaces the whole data table (no merge). */
    method SetDataTable(data: map<string, Value>) returns (self: Scenario)
      modifies this
      ensures self == this && dataTable == data
      ensures backgroundSteps == old(backgroundSteps) && givenSteps == old(givenSteps)
      ensures whenSteps == old(whenSteps) && thenSteps == old(thenSteps) && name == old(name)
    {
      dataTable := data;
      self := this;
    }

    /**
     * All steps in phase order: the background block, then the given, when and
     * then blocks, each in insertion order.
     */
    function AllSteps(): (all: seq<Step>)
      reads this
      ensures |all| == |backgroundSteps| + |givenSteps| + |whenSteps| + |thenSteps|
      ensures all[..|backgroundSteps|] == backgroundSteps
      ensures all[|backgroundSteps|..|backgroundSteps| + |givenSteps|] == givenSteps
      ensures all[|backgroundSteps| + |givenSteps|..|all| - |thenSteps|] == whenSteps
      ensures all[|all| - |thenSteps|..] == thenSteps
    {
      backgroundSteps + givenSteps + whenSteps + thenSteps
    }

    /** The actions of all steps, phase by phase. */
    lemma ExecutionPhaseOrder()
      ensures Invoked(AllSteps()) ==
        Invoked(backgroundSteps) + Invoked(givenSteps) + Invoked(whenSteps) + Invoked(thenSteps)
    {
      InvokedAppend(backgroundSteps, givenSteps);
      InvokedAppend(backgroundSteps + givenSteps, whenSteps);
      InvokedAppend(backgroundSteps + givenSteps + whenSteps, thenSteps);
    }

    /**
     * Runs the scenario: calls each present action of AllSteps() in order and
     * skips the steps that have none. The result is the trace of calls made.
     */
    method Execute() returns (trace: seq<ActionId>)
      ensures trace == Invoked(AllSteps())
    {
      var steps := AllSteps();
      trace := [];
      var i := 0;
      while i < |steps|
        invariant 0 <= i <= |steps|
        invariant trace == Invoked(steps[..i])
      {
        assert steps[..i + 1][..i] == steps[..i];
        if steps[i].action.Some? {
          trace := trace + [steps[i].action.value];
        }
        i := i + 1;
      }
      assert steps[..i] == steps;
    }
  }

  /** A BDD feature: a named, append-only list of scenarios. */
  class Feature {
    var name: string
    var description: string
    var scenarios: seq<Scenario>

    constructor (name: string, description: string := "")
      ensures this.name == name && this.description == description && scenarios == []
    {
      this.name := name;
      this.description := description;
      scenarios := [];
    }

    method AddScenario(scenario: Scenario) returns (self: Feature)
      modifies this
      ensures self == this
      ensures scenarios == old(scenarios) + [scenario]
      ensures name == old(name) && description == old(description)
    {
      scenarios := scenarios + [scenario];
      self := this;
    }

    /** The scenarios as stored, in insertion order. */
    function GetScenarios(): seq<Scenario>
      reads this
    {
      scenarios
    }
  }
}
