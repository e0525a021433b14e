/**
 * The gosec report builder (gosec/gosec_report.js): a severity breakdown and
 * one annotation per issue, or the fixed no-issues report.
 */
module GosecReport {
  import opened Wrappers
  import opened Config
  import opened AnnotationLevels

  /** One entry of gosec's `Issues` list. */
  datatype GosecIssue = GosecIssue(
    severity: string,
    confidence: string,
    ruleId: string,
    details: string,
    file: string,
    code: string,
    line: string)

  /** gosec's JSON output: only its `Issues` list is read here. */
  datatype GosecResults = GosecResults(issues: seq<GosecIssue>)

  /** The `{SEVERITY_HIGH, SEVERITY_MEDIUM, SEVERITY_LOW}` record. */
  datatype SeverityBreakdown = SeverityBreakdown(high: nat, medium: nat, low: nat)

  /** The report's summary: the no-issues text, or the severity breakdown record. */
  datatype Summary = Text(text: string) | Breakdown(counts: SeverityBreakdown)

  /** The report; `annotations` is unset (None) in the no-issues case. */
  datatype GosecOutput = GosecOutput(title: string, summary: Summary, annotations: Option<seq<Annotation>>)

  /** The fixed report for absent or empty results. */
  const NoIssuesReport := GosecOutput(NoIssuesTitle, Text(NoIssuesSummary), None)

  /** The severities of the issues, in order. */
  function Severities(s: seq<GosecIssue>): seq<string> {
    seq(|s|, i requires 0 <= i < |s| => s[i].severity)
  }

  /** Specification of the breakdown: the number of issues with each exact severity. */
  function SeverityCount(s: seq<GosecIssue>): SeverityBreakdown {
    var m := multiset(Severities(s));
    SeverityBreakdown(m["HIGH"], m["MEDIUM"], m["LOW"])
  }

  /**
   * customSummary: one pass with three counters; issues with any other
   * severity are not counted.
   */
  method CustomSummary(issues: seq<GosecIssue>) returns (summary: SeverityBreakdown)
    ensures summary == SeverityCount(issues)
  {
    var high, medium, low := 0, 0, 0;
    for i := 0 to |issues|
      invariant SeverityBreakdown(high, medium, low) == SeverityCount(issues[..i])
    {
      assert Severities(issues[..i + 1]) == Severities(issues[..i]) + [issues[i].severity];
      var severity := issues[i].severity;
      if severity == "HIGH" {
        high := high + 1;
      } else if severity == "MEDIUM" {
        medium := medium + 1;
      } else if severity == "LOW" {
        low := low + 1;
      }
    }
    assert issues[..|issues|] == issues;
    summary := SeverityBreakdown(high, medium, low);
  }

  /** The three counts together never exceed the number of issues. */
  lemma {:induction false} SeverityCountBound(s: seq<GosecIssue>)
    ensures SeverityCount(s).high + SeverityCount(s).medium + SeverityCount(s).low <= |s|
  {
    if s != [] {
      SeverityCountBound(s[1..]);
      assert Severities(s) == [s[0].severity] + Severities(s[1..]);
    }
  }

  /** The annotations, one per issue and in the same order. */
  function Annotations(issues: seq<GosecIssue>, directory: Option<string>,
                       getAnnotation: (GosecIssue, Option<string>) -> Annotation): (r: seq<Annotation>)
    ensures |r| == |issues|
    ensures forall i :: 0 <= i < |issues| ==> r[i] == getAnnotation(issues[i], directory)
  {
    seq(|issues|, i requires 0 <= i < |issues| => getAnnotation(issues[i], directory))
  }

  /** There are results and their `Issues` list is not empty. */
  predicate HasIssues(results: Option<GosecResults>) {
    results.Some? && |results.value.issues| != 0
  }

  /**
   * The exported report function. `results` is None for JavaScript's null; the
   * working directory is passed on to the per-issue converter and may itself be
   * absent.
   */
  function Report(results: Option<GosecResults>, directory: Option<string>,
                  getAnnotation: (GosecIssue, Option<string>) -> Annotation): (r: GosecOutput)
    ensures r.title == IssuesFoundTitle <==> HasIssues(results)
    ensures !HasIssues(results) ==>
              r.title == NoIssuesTitle && r.summary == Text(NoIssuesSummary) && r.annotations.None?
    ensures HasIssues(results) ==>
              && r.summary == Breakdown(SeverityCount(results.value.issues))
              && r.annotations.Some?
              && |r.annotations.value| == |results.value.issues|
              && forall i :: 0 <= i < |results.value.issues| ==>
                   r.annotations.value[i] == getAnnotation(results.value.issues[i], directory)
  {
    if results.Some? && |results.value.issues| != 0 then
      GosecOutput(IssuesFoundTitle,
                  Breakdown(SeverityCount(results.value.issues)),
                  Some(Annotations(results.value.issues, directory, getAnnotation)))
    else
      NoIssuesReport
  }
}
