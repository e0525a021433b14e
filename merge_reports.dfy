/**
 * The two-report merger (merge_reports.js): title from both input titles, a
 * fixed summary template, and gosec's annotations followed by Bandit's.
 */
module MergeReports {
  import opened Config
  import opened AnnotationLevels

  /** A check-run report with a text summary and a present annotation list. */
  datatype Report = Report(title: string, summary: string, annotations: seq<Annotation>)

  /** The pieces of the summary template, the Bandit header with its original spelling. */
  const GosecHeader: string := "\nGosec summary: \n"
  const Gap: string := "\n \n"
  /** A rule of 65 dashes. */
  const Separator: string := "-----------------------------------------------------------------"
  const BanditHeader: string := "\nBandit summuary\n"

  /** Everything the template puts between the two input summaries. */
  const Middle: string := Gap + Separator + BanditHeader

  /** The merged report; bandit comes first in the argument list, gosec first in the output. */
  function Merge(banditReport: Report, gosecReport: Report): (r: Report)
    ensures r.annotations == gosecReport.annotations + banditReport.annotations
    ensures |r.annotations| == |gosecReport.annotations| + |banditReport.annotations|
    ensures r.title == NoIssuesTitle <==>
              banditReport.title == NoIssuesTitle && gosecReport.title == NoIssuesTitle
    ensures r.title != NoIssuesTitle ==> r.title == IssuesFoundTitle
  {
    var title :=
      if banditReport.title == NoIssuesTitle && banditReport.title == gosecReport.title
      then NoIssuesTitle
      else IssuesFoundTitle;
    var summary := GosecHeader + gosecReport.summary + Gap + Separator + BanditHeader + banditReport.summary;
    Report(title, summary, [] + gosecReport.annotations + banditReport.annotations)
  }

  /**
   * The summary is the gosec header, the gosec summary, the fixed middle part and
   * the Bandit summary; both input summaries can be read back out of it.
   */
  lemma MergedSummaryLayout(banditReport: Report, gosecReport: Report)
    ensures var s := Merge(banditReport, gosecReport).summary;
            var g := |GosecHeader| + |gosecReport.summary|;
            && |s| == g + |Middle| + |banditReport.summary|
            && s[..|GosecHeader|] == GosecHeader
            && s[|GosecHeader|..g] == gosecReport.summary
            && s[g..g + |Middle|] == Middle
            && s[g + |Middle|..] == banditReport.summary
  {
    ConcatSlices(GosecHeader, gosecReport.summary, Gap, Separator, BanditHeader, banditReport.summary);
  }

  lemma ConcatSlices(a: string, b: string, c: string, d: string, e: string, f: string)
    ensures var s := a + b + c + d + e + f;
            var n := |a| + |b|;
            var m := |c + d + e|;
            && |s| == n + m + |f|
            && s[..|a|] == a
            && s[|a|..n] == b
            && s[n..n + m] == c + d + e
            && s[n + m..] == f
  {
    var s := a + b + c + d + e + f;
    assert s == a + b + (c + d + e) + f;
  }

  /** The merged summary never equals the no-issues summary, whatever the inputs. */
  lemma MergedSummaryNeverNoIssues(banditReport: Report, gosecReport: Report)
    ensures Merge(banditReport, gosecReport).summary != NoIssuesSummary
  {
    MergedSummaryLayout(banditReport, gosecReport);
    var s := Merge(banditReport, gosecReport).summary;
    assert s[0] == '\n';
    assert NoIssuesSummary[0] == 'T';
  }

  /** The merged level tally is the sum of the inputs' tallies. */
  lemma MergedCount(banditReport: Report, gosecReport: Report)
    ensures Count(Merge(banditReport, gosecReport).annotations)
            == Add(Count(gosecReport.annotations), Count(banditReport.annotations))
  {
    CountAppend(gosecReport.annotations, banditReport.annotations);
  }

  /** The title depends on the two input titles only, never on the annotations or summaries. */
  lemma MergedTitleOnlyFromTitles(b1: Report, g1: Report, b2: Report, g2: Report)
    requires b1.title == b2.title && g1.title == g2.title
    ensures Merge(b1, g1).title == Merge(b2, g2).title
  {
  }

  /**
   * A report is consistent when its title is one of the two sentinels and it is
   * the no-issues title exactly when there are no annotations.
   */
  predicate Consistent(r: Report) {
    && (r.title == NoIssuesTitle || r.title == IssuesFoundTitle)
    && (r.title == NoIssuesTitle <==> r.annotations == [])
  }

  /** Merging consistent reports yields the no-issues title exactly when nothing was found. */
  lemma MergePreservesConsistency(banditReport: Report, gosecReport: Report)
    requires Consistent(banditReport) && Consistent(gosecReport)
    ensures Consistent(Merge(banditReport, gosecReport))
  {
    var r := Merge(banditReport, gosecReport);
    assert r.annotations == [] <==> gosecReport.annotations == [] && banditReport.annotations == [];
  }

  /** Two no-issue reports with no annotations merge into a no-issues report with no annotations. */
  lemma MergeNoIssues(banditReport: Report, gosecReport: Report)
    requires banditReport.title == NoIssuesTitle && banditReport.annotations == []
    requires gosecReport.title == NoIssuesTitle && gosecReport.annotations == []
    ensures Merge(banditReport, gosecReport).title == NoIssuesTitle
    ensures Merge(banditReport, gosecReport).annotations == []
  {
  }
}
