/** `updateSummaryInformation`: every summary field the backend filled with a
    truthy value is kept, every other one is recomputed from the file records.
    The method that performs the updates in place is
    `Normalizer.Standardized.UpdateSummaryInformation`; this module holds the
    function it is proved against and the facts about it. */
module Summary {
  import opened JsValue
  import opened Scoring

  /** The `summary` `standardizeResults` starts from. */
  const DefaultSummary: seq<(string, Value)> := [
    ("totalFiles", Num(0)), ("totalIssues", Num(0)), ("criticalIssues", Num(0)),
    ("majorIssues", Num(0)), ("minorIssues", Num(0)), ("codeQualityScore", Num(0))]

  /** `file.issues` when it is an array; files with anything else there are
      skipped by the totals. */
  function FileIssues(file: Value): seq<Value> {
    var issues := Get(file, "issues");
    if issues.Arr? then issues.items else []
  }

  function TotalIssues(files: seq<Value>): nat {
    if files == [] then 0
    else TotalIssues(files[..|files| - 1]) + |FileIssues(files[|files| - 1])|
  }

  function ClassTotal(files: seq<Value>, c: SeverityClass): nat {
    if files == [] then 0
    else ClassTotal(files[..|files| - 1], c) + CountClass(FileIssues(files[|files| - 1]), c)
  }

  /** `file.score || 0` as a term of the numeric sum: a falsy score adds 0
      and `true` adds 1. Other truthy scores that are not numbers are not
      ingested (`Payload.NumericScore`). */
  function ScoreOf(file: Value): int {
    var score := Get(file, "score");
    if Truthy(score) && score.Num? then score.n else if score == Bool(true) then 1 else 0
  }

  function ScoreSum(files: seq<Value>): int {
    if files == [] then 0 else ScoreSum(files[..|files| - 1]) + ScoreOf(files[|files| - 1])
  }

  /** `Math.round(mean of the scores)`, or 0 without files. */
  function MeanScore(files: seq<Value>): int {
    if |files| > 0 then RoundMean(ScoreSum(files), |files|) else 0
  }

  /** The six recomputed fields, in the order the source writes them. */
  function Recomputed(files: seq<Value>): seq<(string, Value)> {
    [("totalFiles", Num(|files|)), ("totalIssues", Num(TotalIssues(files))),
     ("criticalIssues", Num(ClassTotal(files, Critical))), ("majorIssues", Num(ClassTotal(files, Major))),
     ("minorIssues", Num(ClassTotal(files, Minor))), ("codeQualityScore", Num(MeanScore(files)))]
  }

  /** `if (!summary.key || summary.key === 0) summary.key = value` */
  function FillField(summary: seq<(string, Value)>, key: string, value: Value): seq<(string, Value)> {
    if Truthy(Lookup(summary, key)) then summary else Put(summary, key, value)
  }

  function FillAll(summary: seq<(string, Value)>, fields: seq<(string, Value)>): seq<(string, Value)>
    decreases |fields|
  {
    if fields == [] then summary else FillAll(FillField(summary, fields[0].0, fields[0].1), fields[1..])
  }

  /** The summary after `updateSummaryInformation` over `files`. */
  function UpdatedSummary(summary: seq<(string, Value)>, files: seq<Value>): seq<(string, Value)> {
    FillAll(summary, Recomputed(files))
  }

  // ---------------------------------------------------------------------------

  lemma DistinctTail(fields: seq<(string, Value)>)
    requires DistinctKeys(fields) && fields != []
    ensures DistinctKeys(fields[1..])
    ensures forall m :: 0 <= m < |fields[1..]| ==> fields[1..][m].0 != fields[0].0
  {
    forall m | 0 <= m < |fields[1..]| ensures fields[1..][m].0 != fields[0].0 {
      assert fields[1..][m] == fields[m + 1];
    }
  }

  /** What each filled field reads afterwards: a truthy old value stays, a
      falsy one is replaced; names that are not filled read as before. */
  lemma {:induction false} FillAllLookup(summary: seq<(string, Value)>, fields: seq<(string, Value)>, key: string)
    requires DistinctKeys(fields)
    ensures forall j :: 0 <= j < |fields| && fields[j].0 == key ==>
      Lookup(FillAll(summary, fields), key) == if Truthy(Lookup(summary, key)) then Lookup(summary, key) else fields[j].1
    ensures (forall j :: 0 <= j < |fields| ==> fields[j].0 != key) ==>
      Lookup(FillAll(summary, fields), key) == Lookup(summary, key)
    decreases |fields|
  {
    if fields != [] {
      var next := FillField(summary, fields[0].0, fields[0].1);
      DistinctTail(fields);
      FillAllLookup(next, fields[1..], key);
      LookupPut(summary, fields[0].0, fields[0].1, key);
      forall j | 0 <= j < |fields| && fields[j].0 == key
        ensures Lookup(FillAll(summary, fields), key) == if Truthy(Lookup(summary, key)) then Lookup(summary, key) else fields[j].1
      {
        if j > 0 {
          assert fields[1..][j - 1] == fields[j];
        }
      }
      if forall j :: 0 <= j < |fields| ==> fields[j].0 != key {
        assert forall j :: 0 <= j < |fields[1..]| ==> fields[1..][j].0 != key by {
          forall j | 0 <= j < |fields[1..]| ensures fields[1..][j].0 != key {
            assert fields[1..][j] == fields[j + 1];
          }
        }
      }
    }
  }

  /** Filling fields that are all present keeps every name in its place. */
  lemma {:induction false} FillAllShape(summary: seq<(string, Value)>, fields: seq<(string, Value)>)
    requires forall j :: 0 <= j < |fields| ==> HasKey(summary, fields[j].0)
    ensures |FillAll(summary, fields)| == |summary|
    ensures forall m :: 0 <= m < |summary| ==> FillAll(summary, fields)[m].0 == summary[m].0
    decreases |fields|
  {
    if fields != [] {
      var next := FillField(summary, fields[0].0, fields[0].1);
      PutShape(summary, fields[0].0, fields[0].1);
      forall j | 0 <= j < |fields[1..]| ensures HasKey(next, fields[1..][j].0) {
        var k := fields[1..][j].0;
        assert k == fields[j + 1].0;
        var m :| 0 <= m < |summary| && summary[m].0 == k;
        assert next[m].0 == k;
      }
      FillAllShape(next, fields[1..]);
    }
  }

  /** A summary whose filled fields are present and either truthy or already
      equal to the recomputed value is left as it is. */
  lemma {:induction false} FillAllFixed(summary: seq<(string, Value)>, fields: seq<(string, Value)>)
    requires forall j :: 0 <= j < |fields| ==>
      HasKey(summary, fields[j].0) && (Truthy(Lookup(summary, fields[j].0)) || Lookup(summary, fields[j].0) == fields[j].1)
    ensures FillAll(summary, fields) == summary
    decreases |fields|
  {
    if fields != [] {
      if !Truthy(Lookup(summary, fields[0].0)) {
        PutLookup(summary, fields[0].0);
      }
      assert FillField(summary, fields[0].0, fields[0].1) == summary;
      FillAllFixed(summary, fields[1..]);
    }
  }

  /** Back-filling twice with the same files is back-filling once. */
  lemma FillAllIdempotent(summary: seq<(string, Value)>, fields: seq<(string, Value)>)
    requires DistinctKeys(fields)
    requires forall j :: 0 <= j < |fields| ==> HasKey(summary, fields[j].0)
    ensures FillAll(FillAll(summary, fields), fields) == FillAll(summary, fields)
  {
    var once := FillAll(summary, fields);
    FillAllShape(summary, fields);
    forall j | 0 <= j < |fields|
      ensures HasKey(once, fields[j].0) && (Truthy(Lookup(once, fields[j].0)) || Lookup(once, fields[j].0) == fields[j].1)
    {
      var m :| 0 <= m < |summary| && summary[m].0 == fields[j].0;
      assert once[m].0 == fields[j].0;
      FillAllLookup(summary, fields, fields[j].0);
    }
    FillAllFixed(once, fields);
  }

  lemma RecomputedDistinct(files: seq<Value>)
    ensures DistinctKeys(Recomputed(files))
  {
  }

  /** `updateSummaryInformation` keeps each truthy field, recomputes each other
      one of the six fields from the files, touches no other field, and
      running it again over the same files changes nothing. */
  lemma UpdatedSummaryProps(summary: seq<(string, Value)>, files: seq<Value>, key: string)
    ensures forall j :: 0 <= j < 6 && Recomputed(files)[j].0 == key ==>
      Lookup(UpdatedSummary(summary, files), key)
        == if Truthy(Lookup(summary, key)) then Lookup(summary, key) else Recomputed(files)[j].1
    ensures key !in {"totalFiles", "totalIssues", "criticalIssues", "majorIssues", "minorIssues", "codeQualityScore"} ==>
      Lookup(UpdatedSummary(summary, files), key) == Lookup(summary, key)
    ensures (forall j :: 0 <= j < 6 ==> HasKey(summary, Recomputed(files)[j].0)) ==>
      UpdatedSummary(UpdatedSummary(summary, files), files) == UpdatedSummary(summary, files)
  {
    RecomputedDistinct(files);
    FillAllLookup(summary, Recomputed(files), key);
    if forall j :: 0 <= j < 6 ==> HasKey(summary, Recomputed(files)[j].0) {
      FillAllIdempotent(summary, Recomputed(files));
    }
  }

  // ---------------------------------------------------------------------------
  // Bounds of the recomputed numbers.

  lemma {:induction false} ScoreSumBounds(files: seq<Value>)
    requires forall i :: 0 <= i < |files| ==> 0 <= ScoreOf(files[i]) <= 100
    ensures 0 <= ScoreSum(files) <= 100 * |files|
    decreases |files|
  {
    if files != [] {
      ScoreSumBounds(files[..|files| - 1]);
    }
  }

  /** With every file score between 0 and 100 the recomputed quality score is
      between 0 and 100 as well. */
  lemma MeanScoreBounds(files: seq<Value>)
    requires forall i :: 0 <= i < |files| ==> 0 <= ScoreOf(files[i]) <= 100
    ensures 0 <= MeanScore(files) <= 100
  {
    if |files| > 0 {
      ScoreSumBounds(files);
      RoundMeanBounds(ScoreSum(files), |files|, 0, 100);
    }
  }

  lemma {:induction false} ClassCountsBounded(issues: seq<Value>)
    ensures CountClass(issues, Critical) + CountClass(issues, Major) + CountClass(issues, Minor) <= |issues|
    decreases |issues|
  {
    if issues != [] {
      ClassCountsBounded(issues[..|issues| - 1]);
    }
  }

  /** The three severity totals never add up to more than the issue total
      (issues of other severities count only in the latter). */
  lemma {:induction false} ClassTotalsBounded(files: seq<Value>)
    ensures ClassTotal(files, Critical) + ClassTotal(files, Major) + ClassTotal(files, Minor) <= TotalIssues(files)
    decreases |files|
  {
    if files != [] {
      ClassTotalsBounded(files[..|files| - 1]);
      ClassCountsBounded(FileIssues(files[|files| - 1]));
    }
  }
}
