/** The per-file quality score of `calculateFileScore` and the rounded project
    mean of `updateSummaryInformation`/`analyzeWithRules`. */
module Scoring {
  import opened JsValue

  /** The three severity vocabularies the scorer recognises; anything else is
      ignored by the score and by the summary counts. */
  datatype SeverityClass = Critical | Major | Minor | Unclassified

  function ClassOfSeverity(severity: Value): SeverityClass {
    if severity == Str("critical") || severity == Str("high") || severity == Str("error") then Critical
    else if severity == Str("major") || severity == Str("medium") || severity == Str("warning") then Major
    else if severity == Str("minor") || severity == Str("low") || severity == Str("info") then Minor
    else Unclassified
  }

  /** The class of `issue.severity` (strict equality with the listed strings). */
  function ClassOf(issue: Value): SeverityClass {
    ClassOfSeverity(Get(issue, "severity"))
  }

  /** `issues.filter(i => <severity in class c>).length` */
  function CountClass(issues: seq<Value>, c: SeverityClass): nat {
    if issues == [] then 0
    else CountClass(issues[..|issues| - 1], c) + (if ClassOf(issues[|issues| - 1]) == c then 1 else 0)
  }

  /** The deduction before clamping: 15 per critical, 5 per major, 1 per minor issue. */
  function Penalty(issues: seq<Value>): nat {
    15 * CountClass(issues, Critical) + 5 * CountClass(issues, Major) + CountClass(issues, Minor)
  }

  function Clamp(x: int, lo: int, hi: int): int
    requires lo <= hi
  {
    if x < lo then lo else if x > hi then hi else x
  }

  /** `calculateFileScore` on an array of issues. */
  function FileScore(issues: seq<Value>): (score: int)
    ensures 0 <= score <= 100
  {
    if |issues| == 0 then 100 else Clamp(100 - Penalty(issues), 0, 100)
  }

  /** `calculateFileScore(issues)` on any value: a non-array (including a falsy
      one) scores 100. */
  function CalculateFileScore(issues: Value): (score: int)
    ensures 0 <= score <= 100
    ensures !issues.Arr? ==> score == 100
  {
    if issues.Arr? then FileScore(issues.items) else 100
  }

  /** The empty-list shortcut agrees with the formula: an empty list has no penalty. */
  lemma EmptyScoresFull()
    ensures FileScore([]) == 100 && Penalty([]) == 0
  {
  }

  /** Counting is additive over concatenation. */
  lemma {:induction false} CountClassAppend(a: seq<Value>, b: seq<Value>, c: SeverityClass)
    ensures CountClass(a + b, c) == CountClass(a, c) + CountClass(b, c)
    decreases |b|
  {
    if b != [] {
      var b' := b[..|b| - 1];
      assert (a + b)[..|a + b| - 1] == a + b';
      CountClassAppend(a, b', c);
    } else {
      assert a + b == a;
    }
  }

  /** The score is the clamped formula whatever the list, and it depends only on
      which issues there are, not on their order. */
  lemma {:induction false} FileScoreOrderIndependent(a: seq<Value>, b: seq<Value>)
    ensures FileScore(a + b) == FileScore(b + a)
    ensures FileScore(a + b) == Clamp(100 - Penalty(a) - Penalty(b), 0, 100)
  {
    CountClassAppend(a, b, Critical); CountClassAppend(a, b, Major); CountClassAppend(a, b, Minor);
    CountClassAppend(b, a, Critical); CountClassAppend(b, a, Major); CountClassAppend(b, a, Minor);
    if a + b == [] {
      assert a == [] && b == [];
    }
  }

  /** Appending one issue never raises the score; an issue of a recognised
      severity strictly lowers a positive score; one of any other severity leaves
      the score as it was. */
  lemma {:induction false} FileScoreAppend(issues: seq<Value>, x: Value)
    ensures FileScore(issues + [x]) <= FileScore(issues)
    ensures ClassOf(x) != Unclassified && FileScore(issues) > 0 ==> FileScore(issues + [x]) < FileScore(issues)
    ensures ClassOf(x) == Unclassified ==> FileScore(issues + [x]) == FileScore(issues)
  {
    var s := issues + [x];
    assert s[..|s| - 1] == issues;
    assert Penalty(s) == Penalty(issues) + (match ClassOf(x)
      case Critical => 15 case Major => 5 case Minor => 1 case Unclassified => 0);
  }

  /** `Math.round(sum / n)` for n > 0: halves round up, towards +infinity. */
  function RoundMean(sum: int, n: nat): int
    requires n > 0
  {
    (2 * sum + n) / (2 * n)
  }

  /** The rounded mean is the integer nearest to sum/n, ties going up. */
  lemma RoundMeanNearest(sum: int, n: nat)
    requires n > 0
    ensures 2 * n * RoundMean(sum, n) <= 2 * sum + n < 2 * n * RoundMean(sum, n) + 2 * n
  {
  }

  /** The rounded mean of n values in [lo, hi] lies in [lo, hi]. */
  lemma RoundMeanBounds(sum: int, n: nat, lo: int, hi: int)
    requires n > 0 && n * lo <= sum <= n * hi
    ensures lo <= RoundMean(sum, n) <= hi
  {
    RoundMeanNearest(sum, n);
    var r := RoundMean(sum, n);
    var k := 2 * n;
    assert k * lo < k * (r + 1);
    assert k * r < k * (hi + 1);
    MulStrictCancel(k, lo, r + 1);
    MulStrictCancel(k, r, hi + 1);
  }

  lemma MulStrictCancel(k: int, a: int, b: int)
    requires k > 0 && k * a < k * b
    ensures a < b
  {
    if a >= b {
      MulMono(k, b, a);
    }
  }

  lemma MulMono(k: nat, a: int, b: int)
    requires a <= b
    ensures k * a <= k * b
  {
  }
}
