/**
 * The gosec linter adapter (linters/gosec.js). The class has no state, so its
 * getters and methods are functions of this module.
 */
module GosecLinter {
  import opened Wrappers
  import opened Config
  import opened AnnotationLevels
  import Cache
  import GosecReport

  /** The `name` getter. */
  function Name(): (r: string)
    ensures r == "gosec"
  {
    "gosec"
  }

  /** The `reportPath` getter: the report file, in the parent of the working directory. */
  function ReportPath(): (r: string)
    ensures r == "../gosec.json"
    ensures r[..3] == "../"
  {
    "../gosec.json"
  }

  /** The suffix of the files gosec analyses. */
  const GoSuffix: string := ".go"

  /** `String.prototype.endsWith`. */
  predicate EndsWith(s: string, suffix: string) {
    |suffix| <= |s| && s[|s| - |suffix|..] == suffix
  }

  /** `filter`: the names ending in ".go", in their original order. */
  function Filter(files: seq<string>): (r: seq<string>)
    ensures forall x :: x in r <==> x in files && EndsWith(x, GoSuffix)
    ensures forall x :: multiset(r)[x] == if EndsWith(x, GoSuffix) then multiset(files)[x] else 0
    ensures |r| <= |files|
  {
    if files == [] then []
    else
      assert files == [files[0]] + files[1..];
      if EndsWith(files[0], GoSuffix) then [files[0]] + Filter(files[1..])
      else Filter(files[1..])
  }

  /** `r` is `s` with some elements left out, the rest in their original order. */
  predicate IsSubsequence(r: seq<string>, s: seq<string>) {
    if r == [] then true
    else if s == [] then false
    else (r[0] == s[0] && IsSubsequence(r[1..], s[1..])) || IsSubsequence(r, s[1..])
  }

  /** The filtered list is a subsequence of the input: nothing is reordered. */
  lemma {:induction false} FilterIsSubsequence(files: seq<string>)
    ensures IsSubsequence(Filter(files), files)
  {
    if files != [] {
      FilterIsSubsequence(files[1..]);
      if EndsWith(files[0], GoSuffix) {
        assert Filter(files)[1..] == Filter(files[1..]);
      }
    }
  }

  /** Filtering twice is filtering once. */
  lemma {:induction false} FilterIdempotent(files: seq<string>)
    ensures Filter(Filter(files)) == Filter(files)
  {
    if files != [] {
      FilterIdempotent(files[1..]);
      if EndsWith(files[0], GoSuffix) {
        assert ([files[0]] + Filter(files[1..]))[1..] == Filter(files[1..]);
      }
    }
  }

  /** `workingDirectoryForPR`: the cache directory of the "gosec" branch tag. */
  function WorkingDirectoryForPR(repoId: nat, prId: nat): (p: Cache.Path)
    ensures p == Cache.BranchPath(repoId, prId, Name())
    ensures p == [CacheRoot, Cache.NatToString(repoId), Cache.NatToString(prId), Name()]
    ensures Cache.PrPath(repoId, prId) <= p
  {
    Cache.BranchPath(repoId, prId, Name())
  }

  /** `args`: the fixed gosec command line, whatever the files. */
  function Args(files: seq<string>): (r: seq<string>)
    ensures |r| == 4
    ensures r[0] == "-fmt=json" && r[3] == "./..."
    ensures r[1] == "-out" && r[2] == ReportPath()
  {
    ["-fmt=json", "-out", ReportPath(), "./..."]
  }

  /** `defaultReport`: the report of absent results, which is the no-issues report. */
  function DefaultReport(getAnnotation: (GosecReport.GosecIssue, Option<string>) -> Annotation)
    : (r: GosecReport.GosecOutput)
    ensures r == GosecReport.Report(None, None, getAnnotation)
    ensures r.title == NoIssuesTitle && r.summary == GosecReport.Text(NoIssuesSummary)
    ensures r.annotations.None?
  {
    GosecReport.Report(None, None, getAnnotation)
  }

  /** `generateReport`: the gosec report, called without a working directory. */
  function GenerateReport(results: Option<GosecReport.GosecResults>,
                          getAnnotation: (GosecReport.GosecIssue, Option<string>) -> Annotation)
    : (r: GosecReport.GosecOutput)
    ensures r == GosecReport.Report(results, None, getAnnotation)
  {
    GosecReport.Report(results, None, getAnnotation)
  }
}
