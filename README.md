# Precaution result pipeline and PR file cache, in Dafny

This project models the core of the Precaution GitHub bot. The bot runs the
Bandit and gosec security linters on the files of a pull request and reports
their findings as one check run. The modelled core is:

- the annotation-level counter and the severity x confidence mapper
  (`AnnotationLevels`, annotations_levels.js);
- the Bandit report builder, with its deduplicated "more info" link block
  (`BanditReport`, bandit/bandit_report.js);
- the gosec report builder, with its severity breakdown and no-issues report
  (`GosecReport`, gosec/gosec_report.js);
- the two-report merger (`MergeReports`, merge_reports.js);
- the gosec linter adapter (`GosecLinter`, linters/gosec.js);
- the per-pull-request file cache over an in-memory store (`Cache`, cache.js).

`Config` holds the sentinel strings of config.js. `Wrappers` holds `Option`,
which stands for JavaScript's `null` / `undefined`.

Modelling choices:

- Loops over counters or strings are methods with loop invariants:
  `CountIssueLevels`, `CustomSummary` and `CreateMoreInfoLinks`. Each is
  proved equal to a specification function (`Count`, `SeverityCount`,
  `MoreInfoLinks`). The properties of those functions are proved as lemmas.
- The cache is a class `PrCache` whose field `files` maps paths to bytes.
  Its methods change the field and state the new store through the pure
  functions `Saved` and `Cleared`. The lemmas are stated about these functions.
- A path is a sequence of segments. A repository or pull-request id becomes
  a segment through `NatToString`, which is proved injective.
- A branch-tag directory `cache/<repo>/<pr>/<tag>` exists when some stored
  file lies beneath it. These are the only directories `branchPathExists`
  asks about. Saves create one only by writing a file under it, through
  `mkdirpSync`, and `clearPRCache` removes it together with its files.
  Directories higher up, such as `cache/<repo>`, can stay on disk after a
  clear with nothing beneath them; the model does not track them.
- The per-issue converters `getAnnotation` of bandit_annotations.js and
  gosec_annotations.js are not part of this model. They are function-typed
  parameters.
- The severity matrix `annotationsLevels` is a `LevelMatrix` parameter.
  annotations_levels.js:4 reads it, but config.js does not define it.
- Annotation levels stay strings, so an unknown level reaches the counter's
  notice branch.
- A Bandit `more_info` counts as a link only when it is present and not the
  empty string. This is JavaScript truthiness at bandit/bandit_report.js:15.
- `Gosec.generateReport` (linters/gosec.js:65-67) calls the report function
  without a working directory, so the directory is an `Option<string>`.

Points where the model follows the code as written:

- The merged title is decided by the two input titles (merge_reports.js:10).
  It does not look at whether the annotation lists are empty.
  `MergePreservesConsistency` shows the two agree on consistent inputs.
- The merged summary is the fixed template of merge_reports.js:16-18, with
  "summuary" spelt as in the code. It is not the per-level prose of
  test/merge.reports.test.js:27-56. It never equals the no-issues summary
  (`MergedSummaryNeverNoIssues`), although test/merge.reports.test.js:19
  expects that.
- Only two reports are merged, Bandit then gosec as arguments, and gosec's
  annotations come first.

## Model

| member | source | states |
|---|---|---|
| `AnnotationLevels.CountIssueLevels` | annotations_levels.js:6-21 | the loop returns the tally `Count` of the annotations, and errors + warnings + notices is the number of annotations |
| `AnnotationLevels.CountAppend` | annotations_levels.js:7-19 | counting `a + b` gives the componentwise sum of counting `a` and counting `b` (and `[]` counts zero by definition) |
| `AnnotationLevels.CountTotal` | annotations_levels.js:6-20 | every annotation is counted exactly once: the three counts sum to the length |
| `AnnotationLevels.CountMeaning` | annotations_levels.js:12-18 | errors is the number of "failure" levels, warnings the number of "warning" levels, notices all the rest |
| `AnnotationLevels.UnknownLevelIsNotice` | annotations_levels.js:16-18 | appending an annotation whose level is neither "failure" nor "warning", an unknown string included, adds one notice and nothing else |
| `AnnotationLevels.AnnotationLevel` | annotations_levels.js:28-54 | a recognised severity and confidence give their matrix entry; an unrecognised severity, or an unrecognised confidence under a recognised severity, gives "warning" |
| `AnnotationLevels.AnnotationLevelTable` | annotations_levels.js:31-51 | each of the nine spelled-out pairs HIGH/MEDIUM/LOW selects its own matrix entry |
| `AnnotationLevels.AnnotationLevelInTaxonomy` | annotations_levels.js:29-53 | when every matrix entry is failure, warning or notice, every result is one of the three |
| `BanditReport.CreateMoreInfoLinks` | bandit/bandit_report.js:10-25 | the loop with its seen-id map builds exactly the block of lines of the first-linked issues, in order |
| `BanditReport.FirstLinkedStep` | bandit/bandit_report.js:15-16 | the loop's test (id not yet seen and a link present) holds exactly for the first issue with a link for its id, and only linked ids are marked seen |
| `BanditReport.FirstLinkedIds` | bandit/bandit_report.js:14-19 | every line comes from a linked issue, and the ids with a line are exactly the ids of linked issues |
| `BanditReport.FirstLinkedDistinct` | bandit/bandit_report.js:15-16 | no two lines share a `test_id` |
| `BanditReport.MoreInfoOneLinePerId` | bandit/bandit_report.js:14-19 | exactly one line per distinct linked `test_id` |
| `BanditReport.FirstLinkedIncludes` | bandit/bandit_report.js:15 | a linked issue after linkless issues of the same id still gets its line |
| `BanditReport.MoreInfoEmptyIff` | bandit/bandit_report.js:21-24 | the block is the empty string exactly when no issue has a link |
| `BanditReport.Annotations` | bandit/bandit_report.js:32 | one annotation per issue, in the same order |
| `BanditReport.Report` | bandit/bandit_report.js:31-37 | one annotation per issue in order; `issueCount` is the tally of those annotations and sums to the number of issues; `moreInfo` is empty when there are no issues or no links, and otherwise is the link block |
| `GosecReport.CustomSummary` | gosec/gosec_report.js:7-26 | the three counters are the numbers of issues whose severity is exactly HIGH, MEDIUM and LOW |
| `GosecReport.SeverityCountBound` | gosec/gosec_report.js:13-17 | issues of other severities are not counted, so the three counts sum to at most the number of issues |
| `GosecReport.Annotations` | gosec/gosec_report.js:38 | one annotation per issue, in order, each converted with the working directory |
| `GosecReport.Report` | gosec/gosec_report.js:33-45 | the title is "Issues found" exactly when results are present with a non-empty `Issues`; then the summary is the severity breakdown and there is one annotation per issue; otherwise the no-issues title and summary, with annotations unset |
| `MergeReports.Merge` | merge_reports.js:6-23 | annotations are gosec's followed by Bandit's, lengths add up; the title is the no-issues title exactly when both input titles are, and "Issues found" otherwise |
| `MergeReports.MergedSummaryLayout` | merge_reports.js:16-18 | the summary is the gosec header, the gosec summary, the blank line, the 65-dash rule and "Bandit summuary" header, then the Bandit summary; both input summaries can be read back out of it |
| `MergeReports.MergedSummaryNeverNoIssues` | merge_reports.js:16-18 | the merged summary is never the no-issues summary |
| `MergeReports.MergedCount` | merge_reports.js:20 | the level tally of the merged annotations is the sum of the inputs' tallies |
| `MergeReports.MergedTitleOnlyFromTitles` | merge_reports.js:10-14 | the title depends on the input titles only, never on annotations or summaries |
| `MergeReports.MergePreservesConsistency` | merge_reports.js:10-20 | if each input has a sentinel title that is the no-issues title exactly when its annotations are empty, the merged report does too |
| `MergeReports.MergeNoIssues` | merge_reports.js:10-20 | two no-issue reports with no annotations merge into a no-issues title with no annotations |
| `GosecLinter.Filter` | linters/gosec.js:30-32 | keeps exactly the names ending in ".go", each as many times as it occurs in the input, and drops every other name |
| `GosecLinter.FilterIsSubsequence` | linters/gosec.js:31 | the kept names are a subsequence of the input, in their original order |
| `GosecLinter.FilterIdempotent` | linters/gosec.js:31 | filtering twice is filtering once |
| `GosecLinter.Name` | linters/gosec.js:9-11 | the linter's name is "gosec" |
| `GosecLinter.ReportPath` | linters/gosec.js:17-19 | the report file is "../gosec.json", in the parent of the working directory |
| `GosecLinter.WorkingDirectoryForPR` | linters/gosec.js:39-41 | the working directory is the branch path of tag "gosec", `cache/<repo>/<pr>/gosec`, inside the pull request's directory |
| `GosecLinter.Args` | linters/gosec.js:47-49 | always the four arguments `-fmt=json -out ../gosec.json ./...`, whatever the files |
| `GosecLinter.DefaultReport` | linters/gosec.js:21-23 | the report of null results: no-issues title and summary, annotations unset |
| `GosecLinter.GenerateReport` | linters/gosec.js:65-67 | the gosec report of the results, with no working directory passed |
| `Cache.NatToStringInjective` | cache.js:14 | distinct ids give distinct path segments |
| `Cache.BranchPath` | cache.js:13-15 | the branch path is the pull request's directory followed by the branch tag |
| `Cache.PrPath` | cache.js:45 | the directory a clear removes is `cache/<repo>/<pr>`: three segments, the cache root then the two ids in decimal |
| `Cache.PrCache.BranchPathExists` | cache.js:23-25 | true exactly when some stored file lies under `cache/<repo>/<pr>/<tag>` |
| `Cache.PrPathInjective` | cache.js:45 | distinct (repository, pull request) pairs own distinct directories |
| `Cache.Saved` | cache.js:53-55 | after a write the path holds the new data, overwriting; every other entry is unchanged |
| `Cache.Cleared` | cache.js:45 | after removal exactly the entries outside the directory remain, unchanged |
| `Cache.SaveCreatesBranch` | cache.js:23-25 | after a save under a branch tag, that branch's directory exists |
| `Cache.ClearRemovesEveryBranch` | cache.js:44-46 | after clearing a pull request no branch directory of it exists, whatever the tag |
| `Cache.ClearMissingIsNoop` | cache.js:45 | clearing a directory with nothing in it leaves the store as it was |
| `Cache.ClearIdempotent` | cache.js:45 | clearing twice is clearing once |
| `Cache.ClearKeepsOtherPrs` | cache.js:44-46 | clearing one pull request keeps every file of every other pull request, same repository or not, with its content |
| `Cache.SavesOfDistinctFilesIndependent` | cache.js:35-37 | two saves of distinct files under one branch tag both keep their content |
| `Cache.PrCache.WriteFileCreateDirs` | cache.js:53-56 | the store afterwards is the old store with the file written |
| `Cache.PrCache.SaveFileToPRCache` | cache.js:35-37 | the file is written at `cache/<repo>/<pr>/<tag>/<file>` and the branch path then exists |
| `Cache.PrCache.ClearPRCache` | cache.js:44-46 | the store afterwards is the old store without the pull request's directory, and no branch path of it exists |

## Left out

- index.js is not part of this model. It registers webhooks, runs work concurrently, calls the GitHub API and loads YAML configuration. Its `cache.saveFile` calls pass their arguments in a different order from `saveFileToPRCache`; that call site is not modelled.
- Running the linter processes and `Gosec.parseResults` (`JSON.parse`, linters/gosec.js:55-57) are foreign calls and are not modelled.
- The per-issue converters in bandit_annotations.js and gosec_annotations.js are not part of this model; they are parameters.
- MergeReports.Merge takes reports with a text summary and a present annotation list. With real gosec output, JavaScript would string-concatenate the severity-breakdown object as `[object Object]` and `concat` an unset annotation list as one `undefined` element; these coercions are not modelled.
- The summary strings expected by test/merge.reports.test.js are not what merge_reports.js produces; the model follows the code.
- config.js as given exports the configuration object itself, while gosec_report.js and merge_reports.js destructure `{ config }` from it. The model assumes the sentinel strings reach both modules.
- The configuration knob `cleanupAfterRun` is read only by index.js (index.js:78), which decides whether to clear the cache. `checkRunName`, `compareAgainstBaseline` and `fileExtensions` are read by none of the files considered here; whatever reads them is not part of this model.
- Cache.NatToString: ids are assumed to be safe integers (below 2^53), where `Number.prototype.toString` gives the decimal spelling. From 10^21 up JavaScript writes exponent notation (`1e+21`), and above 2^53 ids are not exact; neither is modelled.
- Cache: file-system errors (permissions, a full disk, a file where a directory is needed), `path.join` normalisation of `.` and `..`, and concurrent saves are not modelled. File paths are given already split into clean segments, and a branch tag is one segment.
- BanditReport.Report: a results object without a `results` list makes the source throw; the model's input always has the list.
- GosecReport.Report: results whose `Issues` field is null make the source throw; the model's input always has the list.
