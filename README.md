# A verified model of the Given/When/Then DSL

This project models the behaviour-driven-development DSL in
`framework/bdd_framework.py`, the only part of the repository with logic of its own:

- steps (`BDDStep`);
- scenarios and features (`BDDScenario`, `BDDFeature`);
- the step registry (`StepRegistry`), which binds step descriptions to actions and resolves a step text to an action;
- the fluent scenario builder (`BDDScenarioBuilder`);
- the result reporter (`BDDReporter`).

The modules follow the source's classes:

- `Wrappers` (`wrappers.dfy`) holds `Option`, the stand-in for Python's `None`.
- `Steps` (`steps.dfy`) holds the step record and its display form `"<keyword> <description>"`.
- `Scenarios` (`scenarios.dfy`) holds the `Scenario` and `Feature` classes and `Invoked`, the trace of actions that executing a step list calls.
- `Registry` (`registry.dfy`) holds the phase tables as insertion-ordered entry lists with the dict operations over them, the pattern test, the resolution function `Resolve`, and the `StepRegistry` class.
- `Builder` (`builder.dfy`) holds the `ScenarioBuilder` class and client methods that replay the source's tests.
- `Reporting` (`reporting.dfy`) holds the result records, the status counts, the text rendering and the `BddReporter` class.

Objects that the source updates in place are classes whose methods reassign `seq`/`map` fields, with `modifies` clauses. Each such method states the whole new state and what it leaves unchanged. Loops are methods proved against a specification function:

- `Scenario.Execute` against `Invoked`;
- `StepRegistry.MatchStep` against `Resolve`;
- the text report against `TextReportOf`.

The properties of each specification function are then proved as lemmas.

Step actions are opaque callables. The model identifies each one by a number (`ActionId`). `Execute` returns the trace of action ids it calls, in call order.

Where the comments and the code disagree, the model follows the code:

- `_matches_pattern` (`framework/bdd_framework.py:156-162`) is commented as turning `{query}` placeholders into wildcards. It does not, because its `str.replace` looks for the text `\{.*?\}`. `re.escape` output never contains that text, since the `.`, `*` and `?` would themselves be escaped. `re.match` then anchors the escaped, literal pattern at the start of the text only. So a registered pattern matches exactly the descriptions it is a prefix of, and `MatchesPattern` states that rule.
- The registration decorators return a `functools.wraps` wrapper that forwards to the action. The model returns the action's own id.

## Model

| member | source | states |
|---|---|---|
| `Steps.Display` | framework/bdd_framework.py:17-18 | the display string is the keyword, one space, then the description |
| `Steps.ParseDisplay` | framework/bdd_framework.py:17-18 | splitting at the first space inverts the display form; no space means no split |
| `Steps.ParseDisplayRoundTrip` | framework/bdd_framework.py:214-222 | a display snapshot stored by the reporter gives back the step's keyword and description, for any space-free keyword |
| `Steps.DisplayInjective` | framework/bdd_framework.py:17-18 | steps with space-free keywords and equal display strings agree on keyword and description |
| `Scenarios.Invoked` | framework/bdd_framework.py:60-65 | executing a step list calls at most one action per step |
| `Scenarios.InvokedAppend` | framework/bdd_framework.py:60-65 | executing a concatenation runs the first part's actions, then the second's |
| `Scenarios.InvokedMembers` | framework/bdd_framework.py:63-65 | an action is called exactly when some step carries it |
| `Scenarios.InvokedAllPresent` | framework/bdd_framework.py:63-65 | when every step has an action, the i-th call is the i-th step's action |
| `Scenarios.InvokedNonePresent` | framework/bdd_framework.py:63-65 | steps without actions are skipped, so such a list calls nothing |
| `Scenarios.Scenario.constructor` | framework/bdd_framework.py:23-29 | a new scenario has its name, four empty step lists and an empty data table |
| `Scenarios.Scenario.AddGiven` | framework/bdd_framework.py:31-34 | appends to the given list only and returns the same scenario |
| `Scenarios.Scenario.AddWhen` | framework/bdd_framework.py:36-39 | appends to the when list only and returns the same scenario |
| `Scenarios.Scenario.AddThen` | framework/bdd_framework.py:41-44 | appends to the then list only and returns the same scenario |
| `Scenarios.Scenario.AddBackground` | framework/bdd_framework.py:46-49 | appends to the background list only and returns the same scenario |
| `Scenarios.Scenario.SetDataTable` | framework/bdd_framework.py:51-54 | replaces the data table wholesale, leaves the steps alone, returns the same scenario |
| `Scenarios.Scenario.AllSteps` | framework/bdd_framework.py:56-58 | length is the sum of the four list lengths; the background, given, when and then blocks appear in that order, each in insertion order |
| `Scenarios.Scenario.ExecutionPhaseOrder` | framework/bdd_framework.py:56-65 | the actions run phase by phase: background, given, when, then |
| `Scenarios.Scenario.Execute` | framework/bdd_framework.py:60-65 | the calls made are exactly the present actions of all steps, in step order; an empty scenario calls nothing |
| `Scenarios.Feature.constructor` | framework/bdd_framework.py:70-73 | a new feature has its name and description and no scenarios |
| `Scenarios.Feature.AddScenario` | framework/bdd_framework.py:75-78 | appends one scenario, changes nothing else and returns the same feature |
| `Registry.Lookup` | framework/bdd_framework.py:146-147 | None exactly when no entry has the key; otherwise the action of that key's entry |
| `Registry.Put` | framework/bdd_framework.py:93-96 | dict assignment: keys stay unique and in position, a new key goes last, the key then maps to the new action and every other key keeps its action |
| `Registry.MatchesPattern` | framework/bdd_framework.py:156-162 | true exactly when the pattern is a prefix of the text |
| `Registry.PlaceholderIsLiteral` | framework/bdd_framework.py:156-162 | a `{query}` placeholder is matched as literal text: the pattern with the placeholder does not match a concrete description, while its literal prefix does |
| `Registry.FirstMatch` | framework/bdd_framework.py:149-154 | the action of the first entry in insertion order whose key matches; None exactly when no key matches |
| `Registry.Resolve` | framework/bdd_framework.py:135-154 | an exact key's action wins; otherwise the first match; None exactly when no key is a prefix of the description |
| `Registry.ExactBeatsEarlierPrefix` | framework/bdd_framework.py:145-152 | an exact key wins over an earlier-registered key that is a prefix of the description |
| `Registry.EarlierPrefixWins` | framework/bdd_framework.py:149-152 | without an exact key, the earlier of two matching keys wins |
| `Registry.PutFirstMatch` | framework/bdd_framework.py:149-152 | registering a key that does not match a description leaves the first match for that description unchanged |
| `Registry.PutPreservesOtherResolutions` | framework/bdd_framework.py:93-154 | registering a key changes the resolution of a description only if the key is a prefix of it |
| `Registry.LastRegistrationWins` | framework/bdd_framework.py:93-101 | after two registrations under one description, resolving it yields the second action |
| `Registry.StepRegistry.constructor` | framework/bdd_framework.py:87-91 | a new registry has three empty tables and an empty context |
| `Registry.StepRegistry.PhaseTable` | framework/bdd_framework.py:137-143 | any keyword other than Given, When or Then selects an empty table |
| `Registry.StepRegistry.StepFor` | framework/bdd_framework.py:135-154 | any keyword other than Given, When or Then resolves to None |
| `Registry.StepRegistry.RegisterGiven` | framework/bdd_framework.py:93-101 | updates the Given table as a dict assignment, returns the action, leaves the other tables and the context unchanged, and the description then resolves to the action |
| `Registry.StepRegistry.RegisterWhen` | framework/bdd_framework.py:103-111 | the same for the When table |
| `Registry.StepRegistry.RegisterThen` | framework/bdd_framework.py:113-121 | the same for the Then table |
| `Registry.StepRegistry.SetContext` | framework/bdd_framework.py:123-125 | the key then reads back the value; every other key reads as before; the tables are unchanged |
| `Registry.StepRegistry.GetContext` | framework/bdd_framework.py:127-129 | the stored value, or None exactly when the key is not set |
| `Registry.StepRegistry.ClearContext` | framework/bdd_framework.py:131-133 | afterwards every key reads None; the tables are unchanged |
| `Registry.StepRegistry.MatchStep` | framework/bdd_framework.py:135-154 | the exact lookup, then the insertion-order scan, returns what `Resolve` specifies for the keyword's table |
| `Builder.ScenarioBuilder.constructor` | framework/bdd_framework.py:167-169 | the builder holds the given registry and a fresh, empty scenario with the given name |
| `Builder.ScenarioBuilder.Given` | framework/bdd_framework.py:171-176 | appends exactly one Given step carrying the description and the action resolved for it; returns the builder |
| `Builder.ScenarioBuilder.When` | framework/bdd_framework.py:178-183 | the same for a When step |
| `Builder.ScenarioBuilder.Then` | framework/bdd_framework.py:185-190 | the same for a Then step |
| `Builder.ScenarioBuilder.Background` | framework/bdd_framework.py:192-197 | appends a step with keyword Background whose action is resolved against the Given table |
| `Builder.ScenarioBuilder.WithData` | framework/bdd_framework.py:199-202 | replaces the scenario's data table and returns the builder |
| `Builder.ScenarioBuilder.Build` | framework/bdd_framework.py:204-206 | returns the builder's own scenario, not a copy |
| `Builder.BuildGivenWhenThen` | tests/test_extended_suite.py:542-546 | `given("g").when("w").then("t").build()` has exactly three steps, g, w and t, in that order |
| `Builder.RegisterThree` | tests/test_framework_components.py:365-381 | after the three registrations, each description resolves to its action in its own phase |
| `Builder.BuildThree` | tests/test_framework_components.py:384-390 | building `given`, `when`, `then` over a registry that resolves them binds each step to its action, in its own phase list |
| `Builder.RegisterAndBuild` | tests/test_framework_components.py:365-390 | a scenario built from registered descriptions has exactly those three steps, each bound to its action, in phase order |
| `Builder.RegisterBuildExecute` | tests/test_framework_components.py:365-396 | executing that scenario calls the Given, When and Then actions in that order |
| `Reporting.StepStrings` | framework/bdd_framework.py:219 | one display string per step, in step order |
| `Reporting.CountStatus` | framework/bdd_framework.py:254-256 | a status count never exceeds the number of records |
| `Reporting.CountIsMultiplicity` | framework/bdd_framework.py:254-256 | a status count is that status's multiplicity among the logged statuses |
| `Reporting.DistinctCountsBounded` | framework/bdd_framework.py:250-257 | the counts of three different statuses add up to at most the number of records |
| `Reporting.CountAllIff` | framework/bdd_framework.py:254-256 | a status count equals the record count exactly when every record has that status |
| `Reporting.ConcatMapAppend` | framework/bdd_framework.py:235-243 | rendering two consecutive parts of a list gives each part's rendering, in order |
| `Reporting.ConcatMapSplit` | framework/bdd_framework.py:235-243 | each element's rendering sits between those of the elements before and after it |
| `Reporting.RecordBlockInReport` | framework/bdd_framework.py:232-243 | every record's block appears in the text report after the banner and the earlier records' blocks, and before the later ones |
| `Reporting.ReportIsPrefixOfLaterReport` | framework/bdd_framework.py:214-243 | logging more results only extends the text report |
| `Reporting.AppendRecordBlock` | framework/bdd_framework.py:236-242 | one pass of the report loop appends the scenario line, the status line, one line per step, the error line when the error is non-empty, and a blank line |
| `Reporting.AppendRecordBlocks` | framework/bdd_framework.py:235-243 | the report loop appends every record's block in log order |
| `Reporting.BddReporter.constructor` | framework/bdd_framework.py:211-212 | a new reporter has an empty log |
| `Reporting.BddReporter.AddResult` | framework/bdd_framework.py:214-222 | appends exactly one record holding the steps' display strings; the total grows by one and only the counter of the given status grows, by one |
| `Reporting.BddReporter.GetStatistics` | framework/bdd_framework.py:250-257 | total is the record count; each status count is its multiplicity in the log; the three counts add up to at most the total |
| `Reporting.BddReporter.TextReport` | framework/bdd_framework.py:232-243 | the text report is the banner followed by every record's block in log order |
| `Reporting.BddReporter.GenerateReport` | framework/bdd_framework.py:224-230 | "text" selects the text report, "json" the record list, and any other format gives the empty string |
| `Reporting.StatisticsOfFourResults` | tests/test_framework_components.py:291-304 | results logged as passed, passed, failed and skipped count as 4 in total, 2 passed, 1 failed and 1 skipped |

## Left out

- The JSON rendering (`framework/bdd_framework.py:245-248`) is a direct `json.dumps` library call. `GenerateReport` returns the record list it serialises, not the JSON text.
- Step actions are opaque ids. What an action does, and an exception escaping from one, are not modelled. An exception in the source stops `execute` part-way, and the model covers runs that complete.
- The `functools.wraps` wrapper returned by the registration decorators is not modelled. `RegisterGiven`, `RegisterWhen` and `RegisterThen` return the registered action itself.
- Data-table and context values are an opaque `Value` type. Storing Python `None` as a context value, which `get_context` could not tell from a missing key, is not modelled.
- `Scenarios.Feature.GetScenarios` carries no contract of its own. Its order is the one `AddScenario` states.
- Shared references to lists and dicts are not captured. `get_scenarios` (`framework/bdd_framework.py:80-82`) returns the live list, and a caller that appends to it grows the feature. `set_data_table` and `with_data` (`framework/bdd_framework.py:51-54`, `framework/bdd_framework.py:199-202`) keep the caller's dict, so its later changes show in the scenario. The model's `seq` and `map` are values: `GetScenarios` returns a copy, and `SetDataTable` and `WithData` store a copy of the table.
- Keywords and statuses are plain strings, as in the source. A status other than PASSED, FAILED or SKIPPED counts toward the total only.
- `Reporting.StatisticsOfFourResults`, `Builder.RegisterThree`, `Builder.BuildThree`, `Builder.RegisterAndBuild` and `Builder.RegisterBuildExecute` take the scenario names and step descriptions as parameters instead of the tests' literal strings, so each states its property for any names.
- The module-level `step_registry` singleton (`framework/bdd_framework.py:261`) is not modelled. Callers construct and pass a `StepRegistry`.
- Browser drivers, page objects, locators, configuration, the command-line runner, pytest fixtures and the network checks are not part of this model.
