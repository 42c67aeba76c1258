/** The aggregation half of `analyzeWithRules`: the issues the rule table
    finds in each file are an input here, and the model builds the per-file
    records and the summary from them. */
module RulesAnalysis {
  import opened Scoring

  /** One issue the rule table raised; `severity` is the rule's own. */
  datatype RuleIssue = RuleIssue(ruleId: string, severity: string, message: string, lineNumber: nat)

  /** A file handed in, with the issues the rules found in it. A missing
      `language` is the empty string. */
  datatype SourceFile = SourceFile(name: string, language: string, issues: seq<RuleIssue>)

  /** What a count ranges over: all issues, or those of one severity (`===`). */
  datatype Tally = AllIssues | OfSeverity(severity: string)

  datatype FileSummary = FileSummary(totalIssues: nat, criticalIssues: nat, majorIssues: nat, minorIssues: nat)

  datatype FileReport = FileReport(fileName: string, language: string, issues: seq<RuleIssue>, score: int, summary: FileSummary)

  datatype RulesSummary = RulesSummary(
    totalFiles: nat, totalIssues: nat, criticalIssues: nat, majorIssues: nat, minorIssues: nat, codeQualityScore: int)

  datatype RulesResult = RulesResult(summary: RulesSummary, fileResults: seq<FileReport>)

  const CriticalSeverity := OfSeverity("critical")
  const MajorSeverity := OfSeverity("major")
  const MinorSeverity := OfSeverity("minor")

  /** `!language || language === 'Unknown'`: the file is not analysed. */
  predicate Skipped(f: SourceFile) {
    f.language == "" || f.language == "Unknown"
  }

  /** `issues.length`, or `issues.filter(i => i.severity === s).length`. */
  function CountOf(issues: seq<RuleIssue>, t: Tally): (n: nat)
    ensures n <= |issues|
  {
    match t
    case AllIssues => |issues|
    case OfSeverity(s) =>
      if issues == [] then 0
      else CountOf(issues[..|issues| - 1], t) + (if issues[|issues| - 1].severity == s then 1 else 0)
  }

  /** `Math.max(0, 100 - issues.length * 5)` */
  function RuleFileScore(issueCount: nat): (score: int)
    ensures 0 <= score <= 100
    ensures 5 * issueCount <= 100 ==> score + 5 * issueCount == 100
    ensures 5 * issueCount >= 100 ==> score == 0
  {
    if 100 - 5 * issueCount > 0 then 100 - 5 * issueCount else 0
  }

  /** The record pushed for an analysed file. */
  function Report(f: SourceFile): FileReport {
    FileReport(f.name, f.language, f.issues, RuleFileScore(|f.issues|),
      FileSummary(CountOf(f.issues, AllIssues), CountOf(f.issues, CriticalSeverity), CountOf(f.issues, MajorSeverity), CountOf(f.issues, MinorSeverity)))
  }

  /** The records for the files that are not skipped, in input order. */
  function Reports(files: seq<SourceFile>): seq<FileReport> {
    if files == [] then []
    else
      var last := files[|files| - 1];
      Reports(files[..|files| - 1]) + (if Skipped(last) then [] else [Report(last)])
  }

  /** A count summed over the analysed files. */
  function Total(reports: seq<FileReport>, t: Tally): nat {
    if reports == [] then 0
    else Total(reports[..|reports| - 1], t) + CountOf(reports[|reports| - 1].issues, t)
  }

  function ScoreTotal(reports: seq<FileReport>): int {
    if reports == [] then 0 else ScoreTotal(reports[..|reports| - 1]) + reports[|reports| - 1].score
  }

  /** The summary `analyzeWithRules` returns. `totalFiles` is the number of
      files handed in, skipped ones included. */
  function RulesSummaryOf(files: seq<SourceFile>): RulesSummary {
    var reports := Reports(files);
    RulesSummary(|files|, Total(reports, AllIssues), Total(reports, CriticalSeverity), Total(reports, MajorSeverity), Total(reports, MinorSeverity),
      if |reports| > 0 then RoundMean(ScoreTotal(reports), |reports|) else 0)
  }

  /** The per-file loop with its running totals, then the mean score. */
  method AnalyzeWithRules(files: seq<SourceFile>) returns (result: RulesResult)
    ensures result.fileResults == Reports(files)
    ensures result.summary == RulesSummaryOf(files)
  {
    var summary := RulesSummary(|files|, 0, 0, 0, 0, 0);
    var fileResults: seq<FileReport> := [];
    var i := 0;
    while i < |files|
      invariant 0 <= i <= |files|
      invariant fileResults == Reports(files[..i])
      invariant summary == RulesSummary(|files|, Total(fileResults, AllIssues), Total(fileResults, CriticalSeverity),
        Total(fileResults, MajorSeverity), Total(fileResults, MinorSeverity), 0)
    {
      assert files[..i + 1][..i] == files[..i];
      var f := files[i];
      if !Skipped(f) {
        var issues := f.issues;
        var fileScore := RuleFileScore(|issues|);
        var report := FileReport(f.name, f.language, issues, fileScore,
          FileSummary(|issues|, CountOf(issues, CriticalSeverity), CountOf(issues, MajorSeverity), CountOf(issues, MinorSeverity)));
        fileResults := fileResults + [report];
        summary := summary.(
          totalIssues := summary.totalIssues + |issues|,
          criticalIssues := summary.criticalIssues + CountOf(issues, CriticalSeverity),
          majorIssues := summary.majorIssues + CountOf(issues, MajorSeverity),
          minorIssues := summary.minorIssues + CountOf(issues, MinorSeverity));
      }
      i := i + 1;
    }
    assert files[..i] == files;
    if |fileResults| > 0 {
      summary := summary.(codeQualityScore := RoundMean(ScoreTotal(fileResults), |fileResults|));
    }
    result := RulesResult(summary, fileResults);
  }

  // ---------------------------------------------------------------------------

  /** A file gets a record exactly when it is not skipped, and every record
      is that of one such file. */
  lemma {:induction false} ReportsOfKeptFiles(files: seq<SourceFile>)
    ensures forall f | f in files && !Skipped(f) :: Report(f) in Reports(files)
    ensures forall r | r in Reports(files) :: exists f :: f in files && !Skipped(f) && r == Report(f)
    ensures |Reports(files)| <= |files|
  {
    if files != [] {
      var init := files[..|files| - 1];
      ReportsOfKeptFiles(init);
      assert files == init + [files[|files| - 1]];
    }
  }

  /** No record is for a file without a language or of the `'Unknown'`
      language. */
  lemma {:induction false} ReportsHaveLanguage(files: seq<SourceFile>)
    ensures forall r | r in Reports(files) :: r.language != "" && r.language != "Unknown"
  {
    if files != [] {
      ReportsHaveLanguage(files[..|files| - 1]);
    }
  }

  lemma {:induction false} SeverityCountsBounded(issues: seq<RuleIssue>)
    ensures CountOf(issues, CriticalSeverity) + CountOf(issues, MajorSeverity) + CountOf(issues, MinorSeverity) <= |issues|
  {
    if issues != [] {
      SeverityCountsBounded(issues[..|issues| - 1]);
    }
  }

  lemma {:induction false} TotalsBounded(reports: seq<FileReport>)
    ensures Total(reports, CriticalSeverity) + Total(reports, MajorSeverity) + Total(reports, MinorSeverity) <= Total(reports, AllIssues)
  {
    if reports != [] {
      TotalsBounded(reports[..|reports| - 1]);
      SeverityCountsBounded(reports[|reports| - 1].issues);
    }
  }

  lemma {:induction false} ReportScores(files: seq<SourceFile>)
    ensures forall r | r in Reports(files) :: 0 <= r.score <= 100
  {
    if files != [] {
      ReportScores(files[..|files| - 1]);
    }
  }

  lemma {:induction false} ScoreTotalBounds(reports: seq<FileReport>)
    requires forall r | r in reports :: 0 <= r.score <= 100
    ensures 0 <= ScoreTotal(reports) <= 100 * |reports|
  {
    if reports != [] {
      assert reports[|reports| - 1] in reports;
      ScoreTotalBounds(reports[..|reports| - 1]);
    }
  }

  /** The severity totals never exceed the issue total, the quality score is
      between 0 and 100, and there are never more records than files. */
  lemma RulesSummaryBounds(files: seq<SourceFile>)
    ensures var s := RulesSummaryOf(files);
      && s.criticalIssues + s.majorIssues + s.minorIssues <= s.totalIssues
      && 0 <= s.codeQualityScore <= 100
      && |Reports(files)| <= s.totalFiles
  {
    var reports := Reports(files);
    TotalsBounded(reports);
    ReportsOfKeptFiles(files);
    if |reports| > 0 {
      ReportScores(files);
      ScoreTotalBounds(reports);
      RoundMeanBounds(ScoreTotal(reports), |reports|, 0, 100);
    }
  }

  /** Adding one more issue to a file never raises its score. */
  lemma RuleFileScoreMonotone(n: nat, m: nat)
    requires n <= m
    ensures RuleFileScore(m) <= RuleFileScore(n)
  {
  }
}
