/**
 * The Bandit report builder (bandit/bandit_report.js): one annotation per
 * issue, the level tally, and the deduplicated "more info" link block.
 */
module BanditReport {
  import opened Wrappers
  import opened AnnotationLevels

  /** One entry of Bandit's `results` list; `moreInfo` is absent when Bandit gives no link. */
  datatype BanditIssue = BanditIssue(
    testId: string,
    testName: string,
    moreInfo: Option<string>,
    filename: string,
    lineNumber: int,
    issueSeverity: string,
    issueConfidence: string,
    issueText: string)

  /** Bandit's JSON output: only its `results` list is read here. */
  datatype BanditResults = BanditResults(results: seq<BanditIssue>)

  /** What the builder returns. */
  datatype BanditOutput = BanditOutput(annotations: seq<Annotation>, issueCount: LevelCount, moreInfo: string)

  /** The issue carries a link: JavaScript truthiness, so an empty string is no link. */
  predicate HasLink(x: BanditIssue) {
    x.moreInfo.Some? && x.moreInfo.value != ""
  }

  function LinkOf(x: BanditIssue): string {
    if x.moreInfo.Some? then x.moreInfo.value else ""
  }

  /** The markdown line `[<test_id>: <test_name>](<more_info>)` and a newline. */
  function Line(x: BanditIssue): (r: string)
    ensures |r| > 0
  {
    "[" + x.testId + ": " + x.testName + "](" + LinkOf(x) + ")\n"
  }

  /** The lines of a sequence of issues, concatenated in order. */
  function Block(xs: seq<BanditIssue>): string {
    if xs == [] then "" else Block(xs[..|xs| - 1]) + Line(xs[|xs| - 1])
  }

  /**
   * Issue `i` is the first issue carrying a link for its `test_id`: earlier issues
   * with that id, if any, have no link.
   */
  predicate IsFirstLinked(s: seq<BanditIssue>, i: int)
    requires 0 <= i < |s|
  {
    HasLink(s[i]) && forall j :: 0 <= j < i && HasLink(s[j]) ==> s[j].testId != s[i].testId
  }

  /** The issues among the first `n` that are first-linked, in their original order. */
  function FirstLinked(s: seq<BanditIssue>, n: nat): seq<BanditIssue>
    requires n <= |s|
  {
    if n == 0 then []
    else FirstLinked(s, n - 1) + (if IsFirstLinked(s, n - 1) then [s[n - 1]] else [])
  }

  /** The ids of the issues among the first `n` that carry a link. */
  function LinkedIds(s: seq<BanditIssue>, n: nat): set<string>
    requires n <= |s|
  {
    set j | 0 <= j < n && HasLink(s[j]) :: s[j].testId
  }

  function Ids(xs: seq<BanditIssue>): set<string> {
    set x | x in xs :: x.testId
  }

  /** Specification of the "more info" block: one line per first-linked issue. */
  function MoreInfoLinks(s: seq<BanditIssue>): string {
    Block(FirstLinked(s, |s|))
  }

  lemma BlockSnoc(xs: seq<BanditIssue>, x: BanditIssue)
    ensures Block(xs + [x]) == Block(xs) + Line(x)
  {
    assert (xs + [x])[..|xs|] == xs;
  }

  /** One more issue adds its line to the block exactly when it is first-linked. */
  lemma BlockStep(s: seq<BanditIssue>, i: nat)
    requires i < |s|
    ensures Block(FirstLinked(s, i + 1))
            == Block(FirstLinked(s, i)) + (if IsFirstLinked(s, i) then Line(s[i]) else "")
  {
    if IsFirstLinked(s, i) {
      BlockSnoc(FirstLinked(s, i), s[i]);
    } else {
      assert FirstLinked(s, i + 1) == FirstLinked(s, i);
    }
  }

  /** Issue `i` is first-linked exactly when it has a link and no earlier linked issue shares its id. */
  lemma FirstLinkedStep(s: seq<BanditIssue>, i: nat)
    requires i < |s|
    ensures IsFirstLinked(s, i) <==> HasLink(s[i]) && s[i].testId !in LinkedIds(s, i)
    ensures LinkedIds(s, i + 1) == LinkedIds(s, i) + (if HasLink(s[i]) then {s[i].testId} else {})
  {
    if HasLink(s[i]) && s[i].testId in LinkedIds(s, i) {
      var j :| 0 <= j < i && HasLink(s[j]) && s[j].testId == s[i].testId;
    }
  }

  /**
   * createMoreInfoLinks: walks the issues once, remembering the ids already
   * linked in `seen` and appending a line for each new linked id.
   */
  method CreateMoreInfoLinks(issues: seq<BanditIssue>) returns (moreInfo: string)
    ensures moreInfo == MoreInfoLinks(issues)
  {
    var seen: set<string> := {};
    moreInfo := "";
    for i := 0 to |issues|
      invariant seen == LinkedIds(issues, i)
      invariant moreInfo == Block(FirstLinked(issues, i))
      invariant seen == {} ==> moreInfo == ""
    {
      FirstLinkedStep(issues, i);
      BlockStep(issues, i);
      var issue := issues[i];
      if issue.testId !in seen && HasLink(issue) {
        seen := seen + {issue.testId};
        moreInfo := moreInfo + Line(issue);
      }
    }
    if |seen| <= 0 {
      moreInfo := "";
    }
  }

  /** Every line of the block comes from a linked issue among the first `n`, and every such id has a line. */
  lemma {:induction false} FirstLinkedIds(s: seq<BanditIssue>, n: nat)
    requires n <= |s|
    ensures forall x :: x in FirstLinked(s, n) ==> HasLink(x)
    ensures Ids(FirstLinked(s, n)) == LinkedIds(s, n)
  {
    if n > 0 {
      FirstLinkedIds(s, n - 1);
      FirstLinkedStep(s, n - 1);
      var prev := FirstLinked(s, n - 1);
      if IsFirstLinked(s, n - 1) {
        assert Ids(prev + [s[n - 1]]) == Ids(prev) + {s[n - 1].testId};
      } else {
        assert FirstLinked(s, n) == prev;
      }
    }
  }

  /** The block has at most one line per `test_id`: the ids of its lines are pairwise distinct. */
  lemma {:induction false} FirstLinkedDistinct(s: seq<BanditIssue>, n: nat)
    requires n <= |s|
    ensures forall a, b :: 0 <= a < b < |FirstLinked(s, n)| ==>
              FirstLinked(s, n)[a].testId != FirstLinked(s, n)[b].testId
  {
    if n > 0 {
      FirstLinkedDistinct(s, n - 1);
      var prev := FirstLinked(s, n - 1);
      if IsFirstLinked(s, n - 1) {
        FirstLinkedIds(s, n - 1);
        FirstLinkedStep(s, n - 1);
        forall a | 0 <= a < |prev|
          ensures prev[a].testId != s[n - 1].testId
        {
          assert prev[a].testId in Ids(prev);
        }
      }
    }
  }

  /** Exactly one line per distinct linked `test_id`. */
  lemma MoreInfoOneLinePerId(s: seq<BanditIssue>)
    ensures Ids(FirstLinked(s, |s|)) == LinkedIds(s, |s|)
    ensures forall a, b :: 0 <= a < b < |FirstLinked(s, |s|)| ==>
              FirstLinked(s, |s|)[a].testId != FirstLinked(s, |s|)[b].testId
  {
    FirstLinkedIds(s, |s|);
    FirstLinkedDistinct(s, |s|);
  }

  /** A first-linked issue, even one after linkless issues of the same id, contributes its line. */
  lemma {:induction false} FirstLinkedIncludes(s: seq<BanditIssue>, n: nat, i: nat)
    requires i < n <= |s|
    requires IsFirstLinked(s, i)
    ensures s[i] in FirstLinked(s, n)
  {
    if i < n - 1 {
      FirstLinkedIncludes(s, n - 1, i);
    }
  }

  lemma {:induction false} BlockEmpty(xs: seq<BanditIssue>)
    ensures Block(xs) == "" <==> xs == []
  {
    if xs != [] {
      assert |Block(xs)| >= |Line(xs[|xs| - 1])| > 0;
    }
  }

  lemma IdsEmpty(xs: seq<BanditIssue>)
    ensures Ids(xs) == {} <==> xs == []
  {
    if xs != [] {
      assert xs[0].testId in Ids(xs);
    }
  }

  /** The block is the empty string exactly when no issue carries a link. */
  lemma MoreInfoEmptyIff(s: seq<BanditIssue>)
    ensures MoreInfoLinks(s) == "" <==> forall i :: 0 <= i < |s| ==> !HasLink(s[i])
  {
    var f := FirstLinked(s, |s|);
    FirstLinkedIds(s, |s|);
    BlockEmpty(f);
    if exists i :: 0 <= i < |s| && HasLink(s[i]) {
      var i :| 0 <= i < |s| && HasLink(s[i]);
      assert s[i].testId in Ids(f);
      assert f != [];
    } else {
      assert LinkedIds(s, |s|) == {};
      IdsEmpty(f);
    }
  }

  /** The annotations, one per issue and in the same order. */
  function Annotations(results: seq<BanditIssue>, getAnnotation: BanditIssue -> Annotation): (r: seq<Annotation>)
    ensures |r| == |results|
    ensures forall i :: 0 <= i < |results| ==> r[i] == getAnnotation(results[i])
  {
    seq(|results|, i requires 0 <= i < |results| => getAnnotation(results[i]))
  }

  /**
   * The exported report function: the annotations, their level tally, and the
   * "more info" block, which is empty when there are no annotations.
   */
  function Report(results: BanditResults, getAnnotation: BanditIssue -> Annotation): (r: BanditOutput)
    ensures |r.annotations| == |results.results|
    ensures forall i :: 0 <= i < |results.results| ==> r.annotations[i] == getAnnotation(results.results[i])
    ensures r.issueCount == Count(r.annotations)
    ensures r.issueCount.errors + r.issueCount.warnings + r.issueCount.notices == |results.results|
    ensures r.moreInfo == "" <==> forall i :: 0 <= i < |results.results| ==> !HasLink(results.results[i])
    ensures r.moreInfo != "" ==> r.moreInfo == MoreInfoLinks(results.results)
  {
    var annotations := Annotations(results.results, getAnnotation);
    CountTotal(annotations);
    MoreInfoEmptyIff(results.results);
    BanditOutput(annotations, Count(annotations),
                 if |annotations| > 0 then MoreInfoLinks(results.results) else "")
  }
}
