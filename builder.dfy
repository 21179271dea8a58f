/** The fluent scenario builder (BDDScenarioBuilder). */
module Builder {
  import opened Wrappers
  import opened Steps
  import opened Scenarios
  import opened Registry

  /**
   * Wraps one scenario and one registry, both fixed at construction. Each step
   * call resolves its description through the registry and appends one step.
   */
  class ScenarioBuilder {
    const scenario: Scenario
    const registry: StepRegistry

    constructor (name: string, registry: StepRegistry)
      ensures this.registry == registry && fresh(scenario)
      ensures scenario.name == name && scenario.dataTable == map[]
      ensures scenario.backgroundSteps == [] && scenario.givenSteps == []
      ensures scenario.whenSteps == [] && scenario.thenSteps == []
    {
      this.registry := registry;
      var s := new Scenario(name);
      this.scenario := s;
    }

    method Given(description: string) returns (self: ScenarioBuilder)
      modifies scenario
      ensures self == this
      ensures scenario.givenSteps ==
        old(scenario.givenSteps) + [Step(GivenKeyword, description, registry.StepFor(GivenKeyword, description))]
      ensures scenario.backgroundSteps == old(scenario.backgroundSteps)
      ensures scenario.whenSteps == old(scenario.whenSteps) && scenario.thenSteps == old(scenario.thenSteps)
      ensures scenario.name == old(scenario.name) && scenario.dataTable == old(scenario.dataTable)
    {
      var action := registry.MatchStep(GivenKeyword, description);
      var _ := scenario.AddGiven(Step(GivenKeyword, description, action));
      self := this;
    }

    method When(description: string) returns (self: ScenarioBuilder)
      modifies scenario
      ensures self == this
      ensures scenario.whenSteps ==
        old(scenario.whenSteps) + [Step(WhenKeyword, description, registry.StepFor(WhenKeyword, description))]
      ensures scenario.backgroundSteps == old(scenario.backgroundSteps)
      ensures scenario.givenSteps == old(scenario.givenSteps) && scenario.thenSteps == old(scenario.thenSteps)
      ensures scenario.name == old(scenario.name) && scenario.dataTable == old(scenario.dataTable)
    {
      var action := registry.MatchStep(WhenKeyword, description);
      var _ := scenario.AddWhen(Step(WhenKeyword, description, action));
      self := this;
    }

    method Then(description: string) returns (self: ScenarioBuilder)
      modifies scenario
      ensures self == this
      ensures scenario.thenSteps ==
        old(scenario.thenSteps) + [Step(ThenKeyword, description, registry.StepFor(ThenKeyword, description))]
      ensures scenario.backgroundSteps == old(scenario.backgroundSteps)
      ensures scenario.givenSteps == old(scenario.givenSteps) && scenario.whenSteps == old(scenario.whenSteps)
      ensures scenario.name == old(scenario.name) && scenario.dataTable == old(scenario.dataTable)
    {
      var action := registry.MatchStep(ThenKeyword, description);
      var _ := scenario.AddThen(Step(ThenKeyword, description, action));
      self := this;
    }

    /** A background step is resolved against the Given table but keeps the keyword Background. */
    method Background(description: string) returns (self: ScenarioBuilder)
      modifies scenario
      ensures self == this
      ensures scenario.backgroundSteps ==
        old(scenario.backgroundSteps) + [Step(BackgroundKeyword, description, registry.StepFor(GivenKeyword, description))]
      ensures scenario.givenSteps == old(scenario.givenSteps)
      ensures scenario.whenSteps == old(scenario.whenSteps) && scenario.thenSteps == old(scenario.thenSteps)
      ensures scenario.name == old(scenario.name) && scenario.dataTable == old(scenario.dataTable)
    {
      var action := registry.MatchStep(GivenKeyword, description);
      var _ := scenario.AddBackground(Step(BackgroundKeyword, description, action));
      self := this;
    }

    method WithData(data: map<string, Value>) returns (self: ScenarioBuilder)
      modifies scenario
      ensures self == this && scenario.dataTable == data
      ensures scenario.backgroundSteps == old(scenario.backgroundSteps) && scenario.givenSteps == old(scenario.givenSteps)
      ensures scenario.whenSteps == old(scenario.whenSteps) && scenario.thenSteps == old(scenario.thenSteps)
      ensures scenario.name == old(scenario.name)
    {
      var _ := scenario.SetDataTable(data);
      self := this;
    }

    /** Hands out the builder's own scenario (no copy: later builder calls still change it). */
    method Build() returns (built: Scenario)
      ensures built == scenario
    {
      built := scenario;
    }
  }

  /**
   * Building `given("g").when("w").then("t")` yields exactly three steps, with
   * those descriptions, in that order.
   */
  method BuildGivenWhenThen(registry: StepRegistry) returns (built: Scenario)
    ensures fresh(built)
    ensures |built.AllSteps()| == 3
    ensures built.AllSteps()[0].description == "g" && built.AllSteps()[0].keyword == GivenKeyword
    ensures built.AllSteps()[1].description == "w" && built.AllSteps()[1].keyword == WhenKeyword
    ensures built.AllSteps()[2].description == "t" && built.AllSteps()[2].keyword == ThenKeyword
  {
    var builder := new ScenarioBuilder("S", registry);
    var b := builder.Given("g");
    b := b.When("w");
    b := b.Then("t");
    built := b.Build();
  }

  /** Registers actions 1, 2 and 3 for a Given, a When and a Then description in a new registry. */
  method RegisterThree(given: string, when: string, then': string) returns (registry: StepRegistry)
    ensures fresh(registry) && registry.Valid()
    ensures registry.StepFor(GivenKeyword, given) == Some(1)
    ensures registry.StepFor(WhenKeyword, when) == Some(2)
    ensures registry.StepFor(ThenKeyword, then') == Some(3)
  {
    registry := new StepRegistry();
    var _ := registry.RegisterGiven(given, 1);
    var _ := registry.RegisterWhen(when, 2);
    assert registry.StepFor(GivenKeyword, given) == Some(1);
    var _ := registry.RegisterThen(then', 3);
  }

  /** A scenario built from those descriptions binds each step to its action. */
  method RegisterAndBuild(given: string, when: string, then': string) returns (built: Scenario)
    ensures fresh(built)
    ensures built.AllSteps() ==
      [Step(GivenKeyword, given, Some(1)), Step(WhenKeyword, when, Some(2)), Step(ThenKeyword, then', Some(3))]
  {
    var registry := RegisterThree(given, when, then');
    built := BuildThree(registry, given, when, then');
  }

  method BuildThree(registry: StepRegistry, given: string, when: string, then': string) returns (built: Scenario)
    requires registry.StepFor(GivenKeyword, given) == Some(1)
    requires registry.StepFor(WhenKeyword, when) == Some(2)
    requires registry.StepFor(ThenKeyword, then') == Some(3)
    ensures fresh(built)
    ensures built.backgroundSteps == []
    ensures built.givenSteps == [Step(GivenKeyword, given, Some(1))]
    ensures built.whenSteps == [Step(WhenKeyword, when, Some(2))]
    ensures built.thenSteps == [Step(ThenKeyword, then', Some(3))]
  {
    var builder := new ScenarioBuilder("Test", registry);
    var b := builder.Given(given);
    b := b.When(when);
    b := b.Then(then');
    built := b.Build();
  }

  /** Executing that scenario calls the three actions in phase order. */
  method RegisterBuildExecute(given: string, when: string, then': string) returns (trace: seq<ActionId>)
    ensures trace == [1, 2, 3]
  {
    var scenario := RegisterAndBuild(given, when, then');
    InvokedAllPresent(scenario.AllSteps());
    trace := scenario.Execute();
  }
}
