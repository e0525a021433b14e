/**
 * Annotation levels: the 3x3 severity/confidence mapper and the level counter
 * (annotations_levels.js).
 */
module AnnotationLevels {
  import opened Wrappers

  /** The three levels a check-run annotation may carry. */
  const Failure: string := "failure"
  const Warning: string := "warning"
  const Notice: string := "notice"

  /** The level chosen when the severity or the confidence is not recognised. */
  const DefaultLevel: string := Warning

  /**
   * A check-run annotation. The level is kept as a string: the counter must treat
   * every level other than "failure" and "warning", even an unknown one, as a notice.
   */
  datatype Annotation = Annotation(
    path: string,
    startLine: int,
    endLine: int,
    level: string,
    title: string,
    message: string)

  /** The `{errors, warnings, notices}` tally of a sequence of annotations. */
  datatype LevelCount = LevelCount(errors: nat, warnings: nat, notices: nat)

  function Add(a: LevelCount, b: LevelCount): LevelCount {
    LevelCount(a.errors + b.errors, a.warnings + b.warnings, a.notices + b.notices)
  }

  /** What one annotation adds to the tally: failure, then warning, everything else a notice. */
  function Tally(a: Annotation): LevelCount {
    if a.level == "failure" then LevelCount(1, 0, 0)
    else if a.level == "warning" then LevelCount(0, 1, 0)
    else LevelCount(0, 0, 1)
  }

  /** Specification of the counter: the tallies of the annotations, added up. */
  function Count(s: seq<Annotation>): LevelCount {
    if s == [] then LevelCount(0, 0, 0) else Add(Tally(s[0]), Count(s[1..]))
  }

  /** The levels of a sequence of annotations, in order. */
  function Levels(s: seq<Annotation>): seq<string> {
    seq(|s|, i requires 0 <= i < |s| => s[i].level)
  }

  /** Counting a concatenation adds up the counts of its parts. */
  lemma {:induction false} CountAppend(a: seq<Annotation>, b: seq<Annotation>)
    ensures Count(a + b) == Add(Count(a), Count(b))
  {
    if a == [] {
      assert a + b == b;
    } else {
      var ab := a + b;
      assert ab[0] == a[0];
      assert ab[1..] == a[1..] + b;
      CountAppend(a[1..], b);
      assert Count(ab) == Add(Tally(a[0]), Count(a[1..] + b));
    }
  }

  /** Every annotation is counted exactly once. */
  lemma {:induction false} CountTotal(s: seq<Annotation>)
    ensures Count(s).errors + Count(s).warnings + Count(s).notices == |s|
  {
    if s != [] {
      CountTotal(s[1..]);
    }
  }

  /**
   * `errors` is the number of "failure" annotations, `warnings` the number of
   * "warning" annotations, and every other annotation is a notice.
   */
  lemma {:induction false} CountMeaning(s: seq<Annotation>)
    ensures Count(s).errors == multiset(Levels(s))[Failure]
    ensures Count(s).warnings == multiset(Levels(s))[Warning]
    ensures Count(s).notices == |s| - multiset(Levels(s))[Failure] - multiset(Levels(s))[Warning]
  {
    if s != [] {
      CountMeaning(s[1..]);
      assert Levels(s) == [s[0].level] + Levels(s[1..]);
    }
  }

  lemma CountSingleton(a: Annotation)
    ensures Count([a]) == Tally(a)
  {
    assert [a][1..] == [];
  }

  /** An annotation whose level is neither "failure" nor "warning" is a notice, whatever its level says. */
  lemma UnknownLevelIsNotice(s: seq<Annotation>, a: Annotation)
    requires a.level != Failure && a.level != Warning
    ensures Count(s + [a]) == LevelCount(Count(s).errors, Count(s).warnings, Count(s).notices + 1)
  {
    CountAppend(s, [a]);
    CountSingleton(a);
    assert Tally(a) == LevelCount(0, 0, 1);
  }

  /**
   * countAnnotationLevels: one pass over the annotations with three counters.
   */
  method CountIssueLevels(annotations: seq<Annotation>) returns (c: LevelCount)
    ensures c == Count(annotations)
    ensures c.errors + c.warnings + c.notices == |annotations|
  {
    var errors, warnings, notices := 0, 0, 0;
    for i := 0 to |annotations|
      invariant LevelCount(errors, warnings, notices) == Count(annotations[..i])
    {
      CountAppend(annotations[..i], [annotations[i]]);
      CountSingleton(annotations[i]);
      assert annotations[..i + 1] == annotations[..i] + [annotations[i]];
      if annotations[i].level == "failure" {
        errors := errors + 1;
      } else if annotations[i].level == "warning" {
        warnings := warnings + 1;
      } else {
        notices := notices + 1;
      }
    }
    assert annotations[..|annotations|] == annotations;
    c := LevelCount(errors, warnings, notices);
    CountTotal(annotations);
  }

  /** The three-valued severity and confidence scales of the linters. */
  datatype Level3 = High | Medium | Low

  /** The spelling of a scale value in the linters' output. */
  function Level3Name(l: Level3): string {
    match l
    case High => "HIGH"
    case Medium => "MEDIUM"
    case Low => "LOW"
  }

  /** Reads a scale value; anything but the three exact spellings is unrecognised. */
  function ParseLevel3(s: string): (r: Option<Level3>)
    ensures r.Some? <==> s in {"HIGH", "MEDIUM", "LOW"}
    ensures r.Some? ==> Level3Name(r.value) == s
  {
    if s == "HIGH" then Some(High)
    else if s == "MEDIUM" then Some(Medium)
    else if s == "LOW" then Some(Low)
    else None
  }

  /**
   * The deployment's severity x confidence -> level matrix (`annotationsLevels`),
   * one entry per pair.
   */
  datatype LevelMatrix = LevelMatrix(
    severityHighConfidenceHigh: string,
    severityHighConfidenceMedium: string,
    severityHighConfidenceLow: string,
    severityMediumConfidenceHigh: string,
    severityMediumConfidenceMedium: string,
    severityMediumConfidenceLow: string,
    severityLowConfidenceHigh: string,
    severityLowConfidenceMedium: string,
    severityLowConfidenceLow: string)
  {
    /** The entry for a pair. */
    function At(severity: Level3, confidence: Level3): string {
      match (severity, confidence)
      case (High, High) => severityHighConfidenceHigh
      case (High, Medium) => severityHighConfidenceMedium
      case (High, Low) => severityHighConfidenceLow
      case (Medium, High) => severityMediumConfidenceHigh
      case (Medium, Medium) => severityMediumConfidenceMedium
      case (Medium, Low) => severityMediumConfidenceLow
      case (Low, High) => severityLowConfidenceHigh
      case (Low, Medium) => severityLowConfidenceMedium
      case (Low, Low) => severityLowConfidenceLow
    }

    /** Every entry is one of the three annotation levels. */
    predicate WellFormed() {
      forall s: Level3, c: Level3 :: At(s, c) in {Failure, Warning, Notice}
    }
  }

  /**
   * getAnnotationLevel: the matrix entry of a recognised pair, and the default
   * level "warning" when the severity, or the confidence under a recognised
   * severity, is not one of HIGH, MEDIUM, LOW.
   */
  function AnnotationLevel(m: LevelMatrix, severity: string, confidence: string): (r: string)
    ensures ParseLevel3(severity).Some? && ParseLevel3(confidence).Some? ==>
              r == m.At(ParseLevel3(severity).value, ParseLevel3(confidence).value)
    ensures ParseLevel3(severity).None? || ParseLevel3(confidence).None? ==> r == DefaultLevel
  {
    if severity == "HIGH" then
      if confidence == "HIGH" then m.severityHighConfidenceHigh
      else if confidence == "MEDIUM" then m.severityHighConfidenceMedium
      else if confidence == "LOW" then m.severityHighConfidenceLow
      else DefaultLevel
    else if severity == "MEDIUM" then
      if confidence == "HIGH" then m.severityMediumConfidenceHigh
      else if confidence == "MEDIUM" then m.severityMediumConfidenceMedium
      else if confidence == "LOW" then m.severityMediumConfidenceLow
      else DefaultLevel
    else if severity == "LOW" then
      if confidence == "HIGH" then m.severityLowConfidenceHigh
      else if confidence == "MEDIUM" then m.severityLowConfidenceMedium
      else if confidence == "LOW" then m.severityLowConfidenceLow
      else DefaultLevel
    else DefaultLevel
  }

  /** Each of the nine spelled-out pairs selects its own matrix entry. */
  lemma AnnotationLevelTable(m: LevelMatrix, s: Level3, c: Level3)
    ensures AnnotationLevel(m, Level3Name(s), Level3Name(c)) == m.At(s, c)
  {
    assert ParseLevel3(Level3Name(s)) == Some(s);
    assert ParseLevel3(Level3Name(c)) == Some(c);
  }

  /** With a well-formed matrix the mapper only ever yields one of the three levels. */
  lemma AnnotationLevelInTaxonomy(m: LevelMatrix, severity: string, confidence: string)
    requires m.WellFormed()
    ensures AnnotationLevel(m, severity, confidence) in {Failure, Warning, Notice}
  {
    var ps, pc := ParseLevel3(severity), ParseLevel3(confidence);
    if ps.Some? && pc.Some? {
      assert m.At(ps.value, pc.value) in {Failure, Warning, Notice};
    }
  }
}
