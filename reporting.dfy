/** The result log and its renderings (BDDReporter). */
module Reporting {
  import opened Wrappers
  import opened Steps

  /** One logged outcome: the scenario's name, its steps as display strings, a status and an optional error. */
  datatype Record = Record(scenario: string, steps: seq<string>, status: string, error: Option<string>)

  /** The counts `get_statistics` reports. */
  datatype Statistics = Statistics(total: nat, passed: nat, failed: nat, skipped: nat)

  /**
   * A generated report: the text rendering, or the JSON document, which is
   * kept here as the record list it serialises.
   */
  datatype Report = Text(text: string) | Json(document: seq<Record>)

  const PassedStatus: string := "PASSED"
  const FailedStatus: string := "FAILED"
  const SkippedStatus: string := "SKIPPED"

  /** The display strings stored for a step list (`[str(s) for s in steps]`). */
  function StepStrings(steps: seq<Step>): (r: seq<string>)
    ensures |r| == |steps|
    ensures forall i :: 0 <= i < |steps| ==> r[i] == Display(steps[i])
  {
    seq(|steps|, i requires 0 <= i < |steps| => Display(steps[i]))
  }

  /** The statuses of a log, in log order. */
  function Statuses(rs: seq<Record>): (r: seq<string>)
    ensures |r| == |rs| && forall i :: 0 <= i < |rs| ==> r[i] == rs[i].status
  {
    seq(|rs|, i requires 0 <= i < |rs| => rs[i].status)
  }

  /** The number of records whose status is exactly `status`. */
  function CountStatus(rs: seq<Record>, status: string): (n: nat)
    ensures n <= |rs|
  {
    if rs == [] then 0
    else CountStatus(rs[..|rs| - 1], status) + (if rs[|rs| - 1].status == status then 1 else 0)
  }

  /** The count of a status is its multiplicity among the log's statuses. */
  lemma {:induction false} CountIsMultiplicity(rs: seq<Record>, status: string)
    ensures CountStatus(rs, status) == multiset(Statuses(rs))[status]
    decreases |rs|
  {
    if rs != [] {
      var init := rs[..|rs| - 1];
      CountIsMultiplicity(init, status);
      assert Statuses(rs) == Statuses(init) + [rs[|rs| - 1].status];
    }
  }

  /** Records of three different statuses together number at most the whole log. */
  lemma {:induction false} DistinctCountsBounded(rs: seq<Record>, a: string, b: string, c: string)
    requires a != b && b != c && a != c
    ensures CountStatus(rs, a) + CountStatus(rs, b) + CountStatus(rs, c) <= |rs|
    decreases |rs|
  {
    if rs != [] {
      DistinctCountsBounded(rs[..|rs| - 1], a, b, c);
    }
  }

  /** Every record has the status exactly when the count equals the log length. */
  lemma {:induction false} CountAllIff(rs: seq<Record>, status: string)
    ensures CountStatus(rs, status) == |rs| <==> forall i :: 0 <= i < |rs| ==> rs[i].status == status
    decreases |rs|
  {
    if rs != [] {
      var init := rs[..|rs| - 1];
      CountAllIff(init, status);
      if CountStatus(rs, status) == |rs| {
        forall i | 0 <= i < |rs| ensures rs[i].status == status {
          if i < |init| { assert rs[i] == init[i]; }
        }
      }
      if forall i :: 0 <= i < |rs| ==> rs[i].status == status {
        assert forall i :: 0 <= i < |init| ==> init[i].status == status;
      }
    }
  }

  /** Sixty '=' characters (Python's `"=" * 60`). */
  const Rule: string := "============================================================"

  /** The text report's banner: the title between two rules, then a blank line. */
  const Banner: string := Rule + "\nBDD TEST REPORT\n" + Rule + "\n\n"

  /** The concatenation of `f` over `xs`, in order. */
  function ConcatMap<T>(xs: seq<T>, f: T -> string): string
  {
    if xs == [] then "" else ConcatMap(xs[..|xs| - 1], f) + f(xs[|xs| - 1])
  }

  /** Concatenating over two consecutive parts gives the concatenations of each part, in order. */
  lemma {:induction false} ConcatMapAppend<T>(a: seq<T>, b: seq<T>, f: T -> string)
    ensures ConcatMap(a + b, f) == ConcatMap(a, f) + ConcatMap(b, f)
    decreases |b|
  {
    if b == [] {
      assert a + b == a;
    } else {
      var b' := b[..|b| - 1];
      assert (a + b)[..|a + b| - 1] == a + b';
      ConcatMapAppend(a, b', f);
    }
  }

  /** Concatenating over a sequence puts each element's string between those of its neighbours. */
  lemma ConcatMapSplit<T>(xs: seq<T>, i: nat, f: T -> string)
    requires i < |xs|
    ensures ConcatMap(xs, f) == ConcatMap(xs[..i], f) + f(xs[i]) + ConcatMap(xs[i + 1..], f)
  {
    var init := xs[..i + 1];
    assert xs == init + xs[i + 1..];
    ConcatMapAppend(init, xs[i + 1..], f);
    assert init[..i] == xs[..i];
    assert ConcatMap(init, f) == ConcatMap(xs[..i], f) + f(xs[i]);
  }

  /** The first two lines of a record's block. */
  function ScenarioLine(r: Record): string
  {
    "Scenario: " + r.scenario + "\n"
  }

  function StatusLine(r: Record): string
  {
    "Status: " + r.status + "\n"
  }

  /** The line printed for one stored step string. */
  function StepLine(step: string): string
  {
    "  - " + step + "\n"
  }

  /** The error line, printed only for an error that is present and not empty (Python truthiness). */
  function ErrorLine(error: Option<string>): string
  {
    if error.Some? && error.value != "" then "Error: " + error.value + "\n" else ""
  }

  /** The text block of one record. */
  function RecordBlock(r: Record): string
  {
    ScenarioLine(r) + StatusLine(r) + ConcatMap(r.steps, StepLine) + ErrorLine(r.error) + "\n"
  }

  /** The whole text report of a log: the banner, then each record's block in log order. */
  function TextReportOf(rs: seq<Record>): string
  {
    Banner + ConcatMap(rs, RecordBlock)
  }

  /**
   * Every record's block appears in the text report, after the banner and the
   * blocks of the records logged before it and before those logged after it.
   */
  lemma RecordBlockInReport(rs: seq<Record>, i: nat)
    requires i < |rs|
    ensures TextReportOf(rs) ==
      Banner + ConcatMap(rs[..i], RecordBlock) + RecordBlock(rs[i]) + ConcatMap(rs[i + 1..], RecordBlock)
  {
    ConcatMapSplit(rs, i, RecordBlock);
    AssociateThree(Banner, ConcatMap(rs[..i], RecordBlock), RecordBlock(rs[i]), ConcatMap(rs[i + 1..], RecordBlock));
  }

  /** Reports only grow: the report of a log is a prefix of the report of any extension of it. */
  lemma ReportIsPrefixOfLaterReport(rs: seq<Record>, later: seq<Record>)
    ensures TextReportOf(rs) <= TextReportOf(rs + later)
  {
    ConcatMapAppend(rs, later, RecordBlock);
  }

  /**
   * Regroupings of string concatenations. Stating them as separate lemmas keeps
   * the solver from searching for the regrouping in the large contexts of the
   * report proofs, where it otherwise runs out of resource.
   */
  lemma Associate(a: string, b: string, c: string)
    ensures a + (b + c) == a + b + c
  {
  }

  lemma AssociateThree(a: string, b: string, c: string, d: string)
    ensures a + (b + c + d) == a + b + c + d
  {
  }

  lemma AssociateFive(a: string, b: string, c: string, d: string, e: string, f: string)
    ensures a + (b + c + d + e + f) == a + b + c + d + e + f
  {
  }

  /**
   * The body of the text report's loop for one record: appends the scenario
   * and status lines, one line per step, the error line if the error is
   * present and not empty, and a blank line.
   */
  method AppendRecordBlock(report: string, r: Record) returns (extended: string)
    ensures extended == report + RecordBlock(r)
  {
    extended := report + ScenarioLine(r);
    extended := extended + StatusLine(r);
    ghost var head := extended;
    var j := 0;
    while j < |r.steps|
      invariant 0 <= j <= |r.steps|
      invariant extended == head + ConcatMap(r.steps[..j], StepLine)
    {
      assert r.steps[..j + 1][..j] == r.steps[..j];
      extended := extended + StepLine(r.steps[j]);
      j := j + 1;
    }
    assert r.steps[..j] == r.steps;
    if r.error.Some? && r.error.value != "" {
      extended := extended + ErrorLine(r.error);
    }
    extended := extended + "\n";
    AssociateFive(report, ScenarioLine(r), StatusLine(r), ConcatMap(r.steps, StepLine), ErrorLine(r.error), "\n");
  }

  /** The loop of the text report: appends each record's block to `report`, in log order. */
  method AppendRecordBlocks(report: string, rs: seq<Record>) returns (extended: string)
    ensures extended == report + ConcatMap(rs, RecordBlock)
  {
    extended := report;
    var i := 0;
    assert rs[..i] == [];
    while i < |rs|
      invariant 0 <= i <= |rs|
      invariant extended == report + ConcatMap(rs[..i], RecordBlock)
    {
      extended := AppendRecordBlock(extended, rs[i]);
      Associate(report, ConcatMap(rs[..i], RecordBlock), RecordBlock(rs[i]));
      assert rs[..i + 1][..i] == rs[..i];
      i := i + 1;
    }
    assert rs[..i] == rs;
  }

  /** The reporter: an append-only log of results. */
  class BddReporter {
    var results: seq<Record>

    constructor ()
      ensures results == []
    {
      results := [];
    }

    /** Logs one result, snapshotting each step as its display string. */
    method AddResult(scenarioName: string, steps: seq<Step>, status: string, error: Option<string> := None)
      modifies this
      ensures results == old(results) + [Record(scenarioName, StepStrings(steps), status, error)]
      ensures GetStatistics().total == old(GetStatistics().total) + 1
      ensures GetStatistics().passed == old(GetStatistics().passed) + (if status == PassedStatus then 1 else 0)
      ensures GetStatistics().failed == old(GetStatistics().failed) + (if status == FailedStatus then 1 else 0)
      ensures GetStatistics().skipped == old(GetStatistics().skipped) + (if status == SkippedStatus then 1 else 0)
    {
      results := results + [Record(scenarioName, StepStrings(steps), status, error)];
      assert results[..|results| - 1] == old(results);
    }

    /**
     * `get_statistics`: how many records there are and how many carry each of
     * the three statuses, counted at call time.
     */
    function GetStatistics(): (s: Statistics)
      reads this
      ensures s.total == |results|
      ensures s.passed == multiset(Statuses(results))[PassedStatus]
      ensures s.failed == multiset(Statuses(results))[FailedStatus]
      ensures s.skipped == multiset(Statuses(results))[SkippedStatus]
      ensures s.passed + s.failed + s.skipped <= s.total
    {
      CountIsMultiplicity(results, PassedStatus);
      CountIsMultiplicity(results, FailedStatus);
      CountIsMultiplicity(results, SkippedStatus);
      DistinctCountsBounded(results, PassedStatus, FailedStatus, SkippedStatus);
      Statistics(|results|, CountStatus(results, PassedStatus), CountStatus(results, FailedStatus),
                 CountStatus(results, SkippedStatus))
    }

    /** `_generate_text_report`: the banner, then one block per record. */
    method TextReport() returns (report: string)
      ensures report == TextReportOf(results)
    {
      report := AppendRecordBlocks(Banner, results);
    }

    /** `generate_report`: "text" renders the text report, "json" the record list, anything else "". */
    method GenerateReport(format: string := "text") returns (r: Report)
      ensures format == "text" ==> r == Text(TextReportOf(results))
      ensures format == "json" ==> r == Json(results)
      ensures format != "text" && format != "json" ==> r == Text("")
    {
      if format == "text" {
        var text := TextReport();
        return Text(text);
      } else if format == "json" {
        return Json(results);
      }
      return Text("");
    }
  }

  /** Four results logged as passed, passed, failed and skipped give the counts 4, 2, 1 and 1. */
  method StatisticsOfFourResults(names: seq<string>) returns (stats: Statistics)
    requires |names| == 4
    ensures stats == Statistics(4, 2, 1, 1)
  {
    assert PassedStatus[0] == 'P' && FailedStatus[0] == 'F' && SkippedStatus[0] == 'S';
    var reporter := new BddReporter();
    assert reporter.GetStatistics() == Statistics(0, 0, 0, 0);
    reporter.AddResult(names[0], [], PassedStatus, None);
    assert reporter.GetStatistics() == Statistics(1, 1, 0, 0);
    reporter.AddResult(names[1], [], PassedStatus, None);
    assert reporter.GetStatistics() == Statistics(2, 2, 0, 0);
    reporter.AddResult(names[2], [], FailedStatus, None);
    assert reporter.GetStatistics() == Statistics(3, 2, 1, 0);
    reporter.AddResult(names[3], [], SkippedStatus, None);
    stats := reporter.GetStatistics();
  }
}
