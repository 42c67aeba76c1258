/** `standardizeResults`: whatever shape the backend answered with is turned
    into one `{results, fileResults, summary}` object. The functions below
    state what each stage produces; the class `Standardized` is the object the
    source builds and updates in place, and `StandardizeResults` is the method
    that builds it, proved to agree with `Standardize`. */
module Normalizer {
  import opened JsValue
  import opened Payload
  import opened Scoring
  import opened Languages
  import opened IssueExtraction
  import opened Grouping
  import opened Summary

  const NoDetailMessage: string := "服务器返回了结果，但没有详细数据"
  const SyntheticFile: string := "合成结果"
  const NotFoundFile: string := "未找到文件结果"
  const UnnamedFile: string := "未命名文件"

  /** The first element of array `data` is an object (or `null`) with a truthy
      `k1` or `k2`. */
  predicate HeadHas(data: Value, k1: string, k2: string) {
    data.Arr? && |data.items| > 0 && IsObjectLike(data.items[0])
    && (Truthy(Get(data.items[0], k1)) || Truthy(Get(data.items[0], k2)))
  }

  /** A payload that already wraps its `results`. */
  predicate IsWrapped(data: Value) {
    Truthy(Get(data, "results"))
  }

  /** An API envelope: a defined `code` with a truthy `data` or `message`. */
  predicate IsEnvelope(data: Value) {
    Get(data, "code") != Undefined && (Truthy(Get(data, "data")) || Truthy(Get(data, "message")))
  }

  /** A bare result: one of the three analysis sections is truthy. */
  predicate IsDirect(data: Value) {
    Truthy(Get(data, "codeQuality")) || Truthy(Get(data, "security")) || Truthy(Get(data, "performance"))
  }

  /** Only file records: `fileResults` is a truthy array. */
  predicate HasFileList(data: Value) {
    Truthy(Get(data, "fileResults")) && Get(data, "fileResults").Arr?
  }

  /** `[...v]` for an iterable `v` (an array or a string). */
  function Spread(v: Value): seq<Value> {
    if v.Arr? || v.Str? then IterItems(v) else []
  }

  /** `if (v) fileResults = [...v]` */
  function CopyFiles(v: Value): seq<Value> {
    if Truthy(v) then Spread(v) else []
  }

  /** `if (v) summary = {...summary, ...v}` on the default summary. */
  function MergeSummary(v: Value): seq<(string, Value)> {
    if Truthy(v) then Assign(DefaultSummary, OwnEntries(v)) else DefaultSummary
  }

  /** The three fields of `standardized` between two stages. */
  datatype Stage = Stage(results: Value, fileResults: seq<Value>, summary: seq<(string, Value)>)

  /** The reads of the classifier succeed: the `fileResults` a branch
      spreads is iterable, and an array's first element, when its `typeof`
      is "object", is not `null` (`data[0].fileName`, line 881). */
  predicate Classifiable(data: Value) {
    if IsWrapped(data) then Spreadable(Get(data, "fileResults"))
    else if IsEnvelope(data) then EnvelopeReadable(data)
    else if IsDirect(data) then Spreadable(Get(data, "fileResults"))
    else if HasFileList(data) then true
    else if data.Arr? then ArrayReadable(data)
    else true
  }

  /** `[...data.data.fileResults]` (line 839) spreads an iterable. */
  predicate EnvelopeReadable(data: Value) {
    var d := Get(data, "data");
    Truthy(d) && IsObjectLike(d) ==> Spreadable(Get(d, "fileResults"))
  }

  /** The head of a bare array can be read, and an issue list holds no
      `null`/`undefined` (its issues are grouped, line 894). */
  predicate ArrayReadable(data: Value) {
    && data.Arr?
    && (|data.items| > 0 && IsObjectLike(data.items[0]) ==> data.items[0] != Null)
    && (!HeadHas(data, "fileName", "issues") && HeadHas(data, "message", "severity") ==> Groupable(data.items))
  }

  /** The classifier stage: the first shape test that holds decides what
      the object is filled with. */
  function Branch(data: Value): Stage
    requires Classifiable(data)
  {
    if IsWrapped(data) then CopiedStage(Get(data, "results"), data)
    else if IsEnvelope(data) then EnvelopeStage(data)
    else if IsDirect(data) then CopiedStage(data, data)
    else if HasFileList(data) then FilesOnlyStage(data)
    else if data.Arr? then ArrayStage(data)
    else UnknownStage(data)
  }

  /** `results` as chosen, with the file records and the summary of `v`. */
  function CopiedStage(results: Value, v: Value): Stage {
    Stage(results, CopyFiles(Get(v, "fileResults")), MergeSummary(Get(v, "summary")))
  }

  /** The `{code, data, message}` envelope: `data.results`, else
      `data.analysis`, else `data` itself; an envelope without an object
      `data` keeps only its message. */
  function EnvelopeStage(data: Value): Stage {
    var d := Get(data, "data");
    if Truthy(d) && IsObjectLike(d) then
      var r := if Truthy(Get(d, "results")) || Truthy(Get(d, "analysis")) then Or(Get(d, "results"), Get(d, "analysis")) else d;
      CopiedStage(r, d)
    else
      Stage(Obj([("message", Or(Get(data, "message"), Str(NoDetailMessage)))]), [], DefaultSummary)
  }

  /** An object with only a `fileResults` array: the records are kept under
      a marker. */
  function FilesOnlyStage(data: Value): Stage {
    Stage(Obj([("onlyFileResults", Bool(true))]), CopyFiles(Get(data, "fileResults")), DefaultSummary)
  }

  /** A bare array: file records are kept, issues are grouped by file, any
      other array is kept whole as `rawArray`. */
  function ArrayStage(data: Value): Stage
    requires ArrayReadable(data)
  {
    if HeadHas(data, "fileName", "issues") then
      Stage(Obj([("arrayOfFiles", Bool(true))]), data.items, DefaultSummary)
    else if HeadHas(data, "message", "severity") then
      Stage(Obj([("codeQuality", Obj([("issues", Arr(data.items))]))]), GroupIssues(data.items), DefaultSummary)
    else
      Stage(Obj([("rawArray", data)]), [], DefaultSummary)
  }

  /** Any other value: its own properties, marked `unknownFormat`. */
  function UnknownStage(data: Value): Stage {
    Stage(Obj(Put(Assign([], OwnEntries(data)), "unknownFormat", Bool(true))), [], DefaultSummary)
  }

  /** `results.codeQuality.issues` when no file records came with the payload. */
  predicate NeedsCodeQualityGroups(st: Stage) {
    |st.fileResults| == 0 && Truthy(st.results) && Truthy(Get(st.results, "codeQuality"))
    && Truthy(Get(Get(st.results, "codeQuality"), "issues"))
  }

  /** `results.codeQuality.issues` */
  function QualityIssues(results: Value): Value {
    Get(Get(results, "codeQuality"), "issues")
  }

  /** The issues the second stage groups are an array (`issues.forEach`,
      line 967) of values whose `fileName` can be read. */
  predicate QualityReadable(st: Stage) {
    NeedsCodeQualityGroups(st) ==> QualityIssues(st.results).Arr? && Groupable(QualityIssues(st.results).items)
  }

  /** Second stage: group `results.codeQuality.issues` by file. */
  function CodeQualityStage(st: Stage): Stage
    requires QualityReadable(st)
  {
    if NeedsCodeQualityGroups(st) then st.(fileResults := GroupIssues(QualityIssues(st.results).items))
    else st
  }

  function SyntheticRecord(issues: seq<Value>): Value {
    Obj([("fileName", Str(SyntheticFile)), ("issues", Arr(issues)),
         ("score", Num(FileScore(issues))), ("language", Str(UnknownLanguage))])
  }

  const NotFoundRecord: Value :=
    Obj([("fileName", Str(NotFoundFile)), ("issues", Arr([])), ("score", Num(0)), ("language", Str(UnknownLanguage))])

  /** Third stage: still no file records, so one is made up from whatever
      issues can be found in `results`, or a placeholder with score 0. */
  function PlaceholderStage(st: Stage): Stage
    requires |st.fileResults| == 0 ==> ExtractSafe(st.results)
  {
    if |st.fileResults| == 0 then
      var synthetic := ExtractIssues(st.results);
      st.(fileResults := if |synthetic| > 0 then [SyntheticRecord(synthetic)] else [NotFoundRecord])
    else st
  }

  /** The name the language is guessed from: `file.fileName || ''`. */
  function NameText(name: Value): string {
    if Truthy(name) && name.Str? then name.s else ""
  }

  /** The record every file is mapped to in the fourth stage. */
  function Complete(file: Value): Value {
    var name := Get(file, "fileName");
    var issues := Get(file, "issues");
    var score := Get(file, "score");
    Obj([("fileName", Or(name, Str(UnnamedFile))),
         ("issues", if issues.Arr? then issues else Arr([])),
         ("score", if score != Undefined then score else Num(CalculateFileScore(Or(issues, Arr([]))))),
         ("language", Or(Get(file, "language"), Str(GuessLanguageFromFileName(NameText(name)))))])
  }

  function Completed(files: seq<Value>): seq<Value> {
    seq(|files|, i requires 0 <= i < |files| => Complete(files[i]))
  }

  /** `UpdatedSummary` written out as the six fills in their order. */
  lemma UpdatedSummarySteps(summary: seq<(string, Value)>, files: seq<Value>)
    ensures UpdatedSummary(summary, files) ==
      var s1 := FillField(summary, "totalFiles", Num(|files|));
      var s2 := FillField(s1, "totalIssues", Num(TotalIssues(files)));
      var s3 := FillField(s2, "criticalIssues", Num(ClassTotal(files, Critical)));
      var s4 := FillField(s3, "majorIssues", Num(ClassTotal(files, Major)));
      var s5 := FillField(s4, "minorIssues", Num(ClassTotal(files, Minor)));
      FillField(s5, "codeQualityScore", Num(MeanScore(files)))
  {
    var f := Recomputed(files);
    FillAllSix(summary, f);
  }

  lemma FillAllSix(summary: seq<(string, Value)>, f: seq<(string, Value)>)
    requires |f| == 6
    ensures FillAll(summary, f) ==
      var s1 := FillField(summary, f[0].0, f[0].1);
      var s2 := FillField(s1, f[1].0, f[1].1);
      var s3 := FillField(s2, f[2].0, f[2].1);
      var s4 := FillField(s3, f[3].0, f[3].1);
      var s5 := FillField(s4, f[4].0, f[4].1);
      FillField(s5, f[5].0, f[5].1)
  {
    var s1 := FillField(summary, f[0].0, f[0].1);
    var s2 := FillField(s1, f[1].0, f[1].1);
    var s3 := FillField(s2, f[2].0, f[2].1);
    var s4 := FillField(s3, f[3].0, f[3].1);
    var s5 := FillField(s4, f[4].0, f[4].1);
    assert f[0..] == f;
    FillStep(summary, f, 0);
    FillStep(s1, f, 1);
    FillStep(s2, f, 2);
    FillStep(s3, f, 3);
    FillStep(s4, f, 4);
    FillStep(s5, f, 5);
    assert f[6..] == [];
  }

  /** Back-filling from the `k`-th field on is filling that field, then
      the rest. */
  lemma FillStep(summary: seq<(string, Value)>, fields: seq<(string, Value)>, k: nat)
    requires k < |fields|
    ensures FillAll(summary, fields[k..]) == FillAll(FillField(summary, fields[k].0, fields[k].1), fields[k + 1..])
  {
    assert fields[k..][1..] == fields[k + 1..];
  }

  /** The reads of the later stages succeed: the issues grouped in the
      second stage, the search of the third, and the file records that are
      completed and summed up. */
  predicate StagesOk(st: Stage) {
    && QualityReadable(st)
    && var st2 := CodeQualityStage(st);
       && (|st2.fileResults| == 0 ==> ExtractSafe(st2.results))
       && FilesOk(PlaceholderStage(st2).fileResults)
  }

  /** The payloads `standardizeResults` standardizes without throwing (and
      whose scores add up as numbers). */
  predicate Ingestible(data: Value) {
    !Nullish(data) && Classifiable(data) && StagesOk(Branch(data))
  }

  /** The value `standardizeResults(data)` returns. */
  function Standardize(data: Value): Value
    requires Ingestible(data)
  {
    var st1 := Branch(data);
    var st2 := CodeQualityStage(st1);
    var st3 := PlaceholderStage(st2);
    var files := Completed(st3.fileResults);
    Obj([("results", st3.results), ("fileResults", Arr(files)), ("summary", Obj(UpdatedSummary(st3.summary, files)))])
  }

  /** One more issue: its file is added to the key order if it is new, and
      the issue is appended to its file's group only. */
  lemma GroupStep(issues: seq<Value>, i: nat)
    requires Groupable(issues) && i < |issues|
    ensures Groupable(issues[..i]) && Groupable(issues[..i + 1])
    ensures var key := FileKey(issues[i]);
      var prev := FirstOccurrence(issues[..i]);
      FirstOccurrence(issues[..i + 1]) == if key in prev then prev else prev + [key]
    ensures forall k ::
      Members(issues[..i + 1], k) == (if FileKey(issues[i]) == k then Members(issues[..i], k) + [issues[i]] else Members(issues[..i], k))
  {
    assert Groupable(issues[..i + 1]) by {
      forall x | x in issues[..i + 1] ensures x in issues { }
    }
    assert Groupable(issues[..i]) by {
      forall x | x in issues[..i] ensures x in issues { }
    }
    assert issues[..i + 1][..i] == issues[..i];
  }

  /** The `forEach` of `groupIssuesByFile`: each issue is appended to the
      list of its file, a list being created when the file is first seen.
      The map's key order is kept by `FirstOccurrence`. */
  method CollectByFile(issues: seq<Value>) returns (byFile: map<string, seq<Value>>)
    requires Groupable(issues)
    ensures forall k :: k in byFile <==> k in FirstOccurrence(issues)
    ensures forall k :: k in byFile ==> byFile[k] == Members(issues, k)
  {
    byFile := map[];
    var i := 0;
    while i < |issues|
      invariant 0 <= i <= |issues|
      invariant Collected(issues[..i], byFile)
    {
      var issue := issues[i];
      var name := FileKey(issue);
      CollectStep(issues, i, byFile);
      var group := if name in byFile then byFile[name] else [];
      byFile := byFile[name := group + [issue]];
      i := i + 1;
    }
    assert issues[..i] == issues;
  }

  /** `byFile` holds exactly the groups of `issues`, under the keys of
      `FirstOccurrence`. */
  ghost predicate Collected(issues: seq<Value>, byFile: map<string, seq<Value>>) {
    && Groupable(issues)
    && (forall k :: k in byFile <==> k in FirstOccurrence(issues))
    && (forall k :: k in byFile ==> byFile[k] == Members(issues, k))
  }

  /** The map after one issue is appended to its file's list. */
  function AddIssue(byFile: map<string, seq<Value>>, issue: Value): map<string, seq<Value>>
    requires !Nullish(issue)
  {
    var name := FileKey(issue);
    byFile[name := (if name in byFile then byFile[name] else []) + [issue]]
  }

  /** One issue of the `forEach` of `groupIssuesByFile`. */
  lemma CollectStep(issues: seq<Value>, i: nat, byFile: map<string, seq<Value>>)
    requires Groupable(issues) && i < |issues| && Collected(issues[..i], byFile)
    ensures !Nullish(issues[i]) && Collected(issues[..i + 1], AddIssue(byFile, issues[i]))
  {
    GroupStep(issues, i);
    var name := FileKey(issues[i]);
    var next := AddIssue(byFile, issues[i]);
    CollectDomain(issues, i, byFile);
    forall k | k in next
      ensures next[k] == Members(issues[..i + 1], k)
    {
      if k == name && name !in byFile {
        NewGroupEmpty(issues[..i], byFile, name);
      }
    }
  }

  lemma CollectDomain(issues: seq<Value>, i: nat, byFile: map<string, seq<Value>>)
    requires Groupable(issues) && i < |issues| && Collected(issues[..i], byFile)
    ensures !Nullish(issues[i]) && Groupable(issues[..i + 1])
    ensures forall k :: k in AddIssue(byFile, issues[i]) <==> k in FirstOccurrence(issues[..i + 1])
  {
    GroupStep(issues, i);
  }

  /** A file not yet in the map has no issues so far. */
  lemma NewGroupEmpty(issues: seq<Value>, byFile: map<string, seq<Value>>, name: string)
    requires Collected(issues, byFile) && name !in byFile
    ensures Members(issues, name) == []
  {
    FirstOccurrenceKeys(issues);
    MembersProps(issues, name);
  }

  /** `Object.entries(issuesByFile).map(...)`: one record per key, in `keys` order. */
  function RecordsOf(keys: seq<string>, byFile: map<string, seq<Value>>): seq<Value>
    requires forall k :: k in keys ==> k in byFile
  {
    seq(|keys|, j requires 0 <= j < |keys| => FileRecord(keys[j], byFile[keys[j]]))
  }

  /** A map holding exactly the groups of `issues` yields the records of
      `GroupIssues`. */
  lemma GroupedRecords(issues: seq<Value>, byFile: map<string, seq<Value>>)
    requires Groupable(issues)
    requires forall k :: k in byFile <==> k in FirstOccurrence(issues)
    requires forall k :: k in byFile ==> byFile[k] == Members(issues, k)
    ensures forall k :: k in ObjectKeyOrder(FirstOccurrence(issues)) ==> k in byFile
    ensures RecordsOf(ObjectKeyOrder(FirstOccurrence(issues)), byFile) == GroupIssues(issues)
  {
    FirstOccurrenceKeys(issues);
    ObjectKeyOrderProps(FirstOccurrence(issues));
  }

  // ---------------------------------------------------------------------------
  // The object `standardizeResults` builds and updates in place.

  class Standardized {
    var results: Value
    var fileResults: seq<Value>
    var summary: seq<(string, Value)>

    constructor ()
      ensures results == Obj([]) && fileResults == [] && summary == DefaultSummary
    {
      results := Obj([]);
      fileResults := [];
      summary := DefaultSummary;
    }

    function ToValue(): Value
      reads this
    {
      Obj([("results", results), ("fileResults", Arr(fileResults)), ("summary", Obj(summary))])
    }

    /** `groupIssuesByFile(issues, this)`: fills `issuesByFile` in one pass and
        stores one record per file. */
    method GroupIssuesByFile(issues: seq<Value>)
      requires Groupable(issues)
      modifies this
      ensures fileResults == GroupIssues(issues)
      ensures results == old(results) && summary == old(summary)
    {
      var byFile := CollectByFile(issues);
      GroupedRecords(issues, byFile);
      fileResults := RecordsOf(ObjectKeyOrder(FirstOccurrence(issues)), byFile);
    }

    function Current(): Stage
      reads this
    {
      Stage(results, fileResults, summary)
    }

    /** The classifier of `standardizeResults`: the first test that holds
        decides what the object is filled with. */
    method Ingest(data: Value)
      requires Classifiable(data) && results == Obj([]) && fileResults == [] && summary == DefaultSummary
      modifies this
      ensures Current() == Branch(data)
    {
      if IsWrapped(data) {
        results := Get(data, "results");
        CopyFrom(data);
      } else if IsEnvelope(data) {
        IngestEnvelope(data);
      } else if IsDirect(data) {
        results := data;
        CopyFrom(data);
      } else if HasFileList(data) {
        fileResults := Spread(Get(data, "fileResults"));
        results := Obj([("onlyFileResults", Bool(true))]);
      } else if data.Arr? {
        IngestArray(data);
      } else {
        results := Obj(Put(Assign([], OwnEntries(data)), "unknownFormat", Bool(true)));
      }
    }

    /** An API envelope `{code, data, message}`. */
    method IngestEnvelope(data: Value)
      requires EnvelopeReadable(data)
      requires results == Obj([]) && fileResults == [] && summary == DefaultSummary
      modifies this
      ensures Current() == EnvelopeStage(data)
    {
      var d := Get(data, "data");
      if Truthy(d) && IsObjectLike(d) {
        if Truthy(Get(d, "results")) || Truthy(Get(d, "analysis")) {
          results := Or(Get(d, "results"), Get(d, "analysis"));
        } else {
          results := d;
        }
        CopyFrom(d);
      } else {
        results := Obj([("message", Or(Get(data, "message"), Str(NoDetailMessage)))]);
      }
    }

    /** A bare array: file records, issues, or anything else. */
    method IngestArray(data: Value)
      requires ArrayReadable(data)
      requires results == Obj([]) && fileResults == [] && summary == DefaultSummary
      modifies this
      ensures Current() == ArrayStage(data)
    {
      if HeadHas(data, "fileName", "issues") {
        fileResults := data.items;
        results := Obj([("arrayOfFiles", Bool(true))]);
      } else if HeadHas(data, "message", "severity") {
        results := Obj([("codeQuality", Obj([("issues", Arr(data.items))]))]);
        GroupIssuesByFile(data.items);
      } else {
        results := Obj([("rawArray", data)]);
      }
    }

    /** `if (v.fileResults) ... = [...v.fileResults]` and
        `if (v.summary) ... = {...summary, ...v.summary}`. */
    method CopyFrom(v: Value)
      requires Spreadable(Get(v, "fileResults"))
      requires summary == DefaultSummary && fileResults == []
      modifies this
      ensures results == old(results)
      ensures fileResults == CopyFiles(Get(v, "fileResults")) && summary == MergeSummary(Get(v, "summary"))
    {
      if Truthy(Get(v, "fileResults")) {
        fileResults := Spread(Get(v, "fileResults"));
      }
      if Truthy(Get(v, "summary")) {
        summary := Assign(summary, OwnEntries(Get(v, "summary")));
      }
    }

    /** Groups `results.codeQuality.issues` when no file records came with
        the payload. */
    method GroupCodeQualityIssues()
      requires QualityReadable(Current())
      modifies this
      ensures Current() == CodeQualityStage(old(Current()))
    {
      if |fileResults| == 0 && Truthy(results) && Truthy(Get(results, "codeQuality"))
        && Truthy(Get(Get(results, "codeQuality"), "issues"))
      {
        GroupIssuesByFile(QualityIssues(results).items);
      }
    }

    /** Makes up a file record when there still is none. */
    method AddPlaceholder()
      requires |fileResults| == 0 ==> ExtractSafe(results)
      modifies this
      ensures Current() == PlaceholderStage(old(Current()))
    {
      if |fileResults| == 0 {
        var syntheticIssues := ExtractIssues(results);
        if |syntheticIssues| > 0 {
          fileResults := [SyntheticRecord(syntheticIssues)];
        } else {
          fileResults := [NotFoundRecord];
        }
      }
    }

    /** `fileResults.map(...)`: fills the missing fields of every record. */
    method CompleteFiles()
      modifies this
      ensures fileResults == Completed(old(fileResults))
      ensures results == old(results) && summary == old(summary)
    {
      fileResults := Completed(fileResults);
    }

    /** `updateSummaryInformation(this)`: overwrites the falsy summary
        fields with the values recomputed from `fileResults`. */
    method UpdateSummaryInformation()
      modifies this
      ensures summary == UpdatedSummary(old(summary), fileResults)
      ensures results == old(results) && fileResults == old(fileResults)
    {
      summary := BackfillSummary(summary, fileResults);
    }
  }

  /** The body of `updateSummaryInformation`: the file count is settled
      first, the totals are accumulated over the files, then each falsy field
      is overwritten, in the order of `Recomputed`. */
  method BackfillSummary(summary: seq<(string, Value)>, files: seq<Value>) returns (s: seq<(string, Value)>)
    ensures s == UpdatedSummary(summary, files)
  {
    UpdatedSummarySteps(summary, files);
    s := summary;
    if !Truthy(Lookup(s, "totalFiles")) {
      s := Put(s, "totalFiles", Num(|files|));
    }
    var totalIssues, criticalIssues, majorIssues, minorIssues := CountIssues(files);
    if !Truthy(Lookup(s, "totalIssues")) {
      s := Put(s, "totalIssues", Num(totalIssues));
    }
    if !Truthy(Lookup(s, "criticalIssues")) {
      s := Put(s, "criticalIssues", Num(criticalIssues));
    }
    if !Truthy(Lookup(s, "majorIssues")) {
      s := Put(s, "majorIssues", Num(majorIssues));
    }
    if !Truthy(Lookup(s, "minorIssues")) {
      s := Put(s, "minorIssues", Num(minorIssues));
    }
    if !Truthy(Lookup(s, "codeQualityScore")) {
      var score := AverageScore(files);
      s := Put(s, "codeQualityScore", Num(score));
    }
  }

  /** The `forEach` over the files that adds up the issue counts: all issues,
      and those of each severity class. */
  method CountIssues(files: seq<Value>) returns (total: nat, critical: nat, major: nat, minor: nat)
    ensures total == TotalIssues(files)
    ensures critical == ClassTotal(files, Critical) && major == ClassTotal(files, Major)
    ensures minor == ClassTotal(files, Minor)
  {
    total, critical, major, minor := 0, 0, 0, 0;
    var i := 0;
    while i < |files|
      invariant 0 <= i <= |files|
      invariant total == TotalIssues(files[..i])
      invariant critical == ClassTotal(files[..i], Critical)
      invariant major == ClassTotal(files[..i], Major)
      invariant minor == ClassTotal(files[..i], Minor)
    {
      assert files[..i + 1][..i] == files[..i];
      var issues := Get(files[i], "issues");
      if issues.Arr? {
        total := total + |issues.items|;
        critical := critical + CountClass(issues.items, Critical);
        major := major + CountClass(issues.items, Major);
        minor := minor + CountClass(issues.items, Minor);
      }
      i := i + 1;
    }
    assert files[..i] == files;
  }

  /** `Math.round(sum of scores / number of files)`, or 0 without files. */
  method AverageScore(files: seq<Value>) returns (score: int)
    ensures score == MeanScore(files)
  {
    if |files| == 0 {
      return 0;
    }
    var sum := 0;
    var j := 0;
    while j < |files|
      invariant 0 <= j <= |files|
      invariant sum == ScoreSum(files[..j])
    {
      assert files[..j + 1][..j] == files[..j];
      sum := sum + ScoreOf(files[j]);
      j := j + 1;
    }
    assert files[..j] == files;
    score := RoundMean(sum, |files|);
  }

  // ---------------------------------------------------------------------------
  // `standardizeResults` as a method over the object it builds.

  /** `standardizeResults(data)`: classify, group `codeQuality.issues` if
      there are no file records yet, fall back to a synthetic or placeholder
      record, complete every record, back-fill the summary. */
  method StandardizeResults(data: Value) returns (out: Value)
    requires Ingestible(data)
    ensures out == Standardize(data)
  {
    var standardized := new Standardized();
    standardized.Ingest(data);
    standardized.GroupCodeQualityIssues();
    standardized.AddPlaceholder();
    standardized.CompleteFiles();
    standardized.UpdateSummaryInformation();
    out := standardized.ToValue();
    StandardizeStages(data);
  }

  // ---------------------------------------------------------------------------
  // What every stage guarantees.

  /** A summary whose first six names are those of the default summary, with no
      name twice. */
  predicate SummaryShaped(summary: seq<(string, Value)>) {
    DistinctKeys(summary) && |summary| >= 6
    && forall m :: 0 <= m < 6 ==> summary[m].0 == DefaultSummary[m].0
  }

  /** The default summary: six counters under distinct names. */
  lemma DefaultSummaryOk()
    ensures SummaryShaped(DefaultSummary)
  {
    RecomputedDistinct([]);
    assert forall m :: 0 <= m < 6 ==> Recomputed([])[m].0 == DefaultSummary[m].0;
  }

  /** Spreading any value over the default summary keeps its six fields
      first and its names distinct. */
  lemma MergeSummaryProps(v: Value)
    ensures SummaryShaped(MergeSummary(v))
  {
    DefaultSummaryOk();
    if Truthy(v) {
      AssignShape(DefaultSummary, OwnEntries(v));
    }
  }

  /** The record built for one file can be read and has a numeric score. */
  lemma FileRecordOk(name: string, issues: seq<Value>)
    requires Groupable(issues)
    ensures FileOk(FileRecord(name, issues))
  {
    FileRecordFields(name, issues);
  }

  /** Every record `groupIssuesByFile` builds can be read and has a numeric
      score. */
  lemma GroupIssuesOk(issues: seq<Value>)
    requires Groupable(issues)
    ensures FilesOk(GroupIssues(issues))
  {
    var keys := ObjectKeyOrder(FirstOccurrence(issues));
    forall i | 0 <= i < |keys| ensures FileOk(GroupIssues(issues)[i]) {
      MembersProps(issues, keys[i]);
      FileRecordOk(keys[i], Members(issues, keys[i]));
    }
  }

  /** What the classifier hands on: a truthy `results` and a summary that
      starts with the six default fields. */
  predicate StageOk(st: Stage) {
    Truthy(st.results) && SummaryShaped(st.summary)
  }

  lemma BranchProps(data: Value)
    requires Classifiable(data)
    ensures StageOk(Branch(data))
  {
    if IsWrapped(data) {
      MergeSummaryProps(Get(data, "summary"));
    } else if IsEnvelope(data) {
      EnvelopeStageOk(data);
    } else if IsDirect(data) {
      MergeSummaryProps(Get(data, "summary"));
    } else {
      DefaultSummaryOk();
    }
  }

  lemma EnvelopeStageOk(data: Value)
    ensures StageOk(EnvelopeStage(data))
  {
    var d := Get(data, "data");
    if Truthy(d) && IsObjectLike(d) {
      MergeSummaryProps(Get(d, "summary"));
    } else {
      DefaultSummaryOk();
    }
  }

  /** A file record with every field filled: a truthy name, an array of
      issues, a score that is not `undefined`, a truthy language. */
  predicate CompleteRecord(file: Value) {
    && file.Obj? && |file.entries| == 4
    && file.entries[0].0 == "fileName" && Truthy(file.entries[0].1)
    && file.entries[1].0 == "issues" && file.entries[1].1.Arr?
    && file.entries[2].0 == "score" && file.entries[2].1 != Undefined
    && file.entries[3].0 == "language" && Truthy(file.entries[3].1)
  }

  /** The completion map fills every field, and keeps a readable record with
      a numeric score readable with a numeric score. */
  lemma CompleteProps(file: Value)
    ensures CompleteRecord(Complete(file))
    ensures FileOk(file) ==> FileOk(Complete(file))
  {
    CompleteFilled(file);
    if FileOk(file) {
      CompleteOk(file);
    }
  }

  lemma CompleteFilled(file: Value)
    ensures CompleteRecord(Complete(file))
  {
  }

  lemma CompleteOk(file: Value)
    requires FileOk(file)
    ensures FileOk(Complete(file))
  {
    var name := Get(file, "fileName");
    var issues := Get(file, "issues");
    var score := Get(file, "score");
    var n, i, s, l := Or(name, Str(UnnamedFile)), if issues.Arr? then issues else Arr([]),
      if score != Undefined then score else Num(CalculateFileScore(Or(issues, Arr([])))),
      Or(Get(file, "language"), Str(GuessLanguageFromFileName(NameText(name))));
    RecordFields(n, i, s, l);
    assert Complete(file) == Obj([("fileName", n), ("issues", i), ("score", s), ("language", l)]);
  }

  /** A record with every field filled passes the completion map unchanged. */
  lemma CompleteFixed(file: Value)
    requires CompleteRecord(file)
    ensures Complete(file) == file
  {
    var e := file.entries;
    LookupAt(e, 0);
    LookupAt(e, 1);
    LookupAt(e, 2);
    LookupAt(e, 3);
    assert e == [e[0], e[1], e[2], e[3]];
  }

  /** The shape of a value `standardizeResults` returns: a truthy `results`,
      a non-empty `fileResults` whose records are all filled in, readable and
      numerically scored, and a summary that starts with the six fields, each
      truthy or equal to its value recomputed from `fileResults`. */
  predicate StandardShape(out: Value) {
    && out.Obj? && |out.entries| == 3
    && out.entries[0].0 == "results"
    && out.entries[1].0 == "fileResults" && out.entries[1].1.Arr?
    && out.entries[2].0 == "summary" && out.entries[2].1.Obj?
    && StandardParts(out.entries[0].1, out.entries[1].1.items, out.entries[2].1.entries)
  }

  /** The three parts of a value of the standard shape. */
  predicate StandardParts(results: Value, files: seq<Value>, summary: seq<(string, Value)>) {
    && Truthy(results)
    && |files| > 0 && (forall f | f in files :: CompleteRecord(f) && FileOk(f))
    && SummaryShaped(summary)
    && forall j :: 0 <= j < 6 ==>
         Truthy(Lookup(summary, Recomputed(files)[j].0)) || Lookup(summary, Recomputed(files)[j].0) == Recomputed(files)[j].1
  }

  lemma UpdatedSummaryShaped(summary: seq<(string, Value)>, files: seq<Value>)
    requires SummaryShaped(summary)
    ensures SummaryShaped(UpdatedSummary(summary, files))
    ensures forall j :: 0 <= j < 6 ==>
      var s := UpdatedSummary(summary, files);
      Truthy(Lookup(s, Recomputed(files)[j].0)) || Lookup(s, Recomputed(files)[j].0) == Recomputed(files)[j].1
  {
    UpdatedSummaryKeys(summary, files);
    UpdatedSummarySettled(summary, files);
  }

  lemma RecomputedPresent(summary: seq<(string, Value)>, files: seq<Value>)
    requires SummaryShaped(summary)
    ensures forall j :: 0 <= j < 6 ==> HasKey(summary, Recomputed(files)[j].0)
  {
    forall j | 0 <= j < 6 ensures HasKey(summary, Recomputed(files)[j].0) {
      assert summary[j].0 == Recomputed(files)[j].0;
    }
  }

  lemma UpdatedSummaryKeys(summary: seq<(string, Value)>, files: seq<Value>)
    requires SummaryShaped(summary)
    ensures SummaryShaped(UpdatedSummary(summary, files))
  {
    RecomputedPresent(summary, files);
    FillAllShape(summary, Recomputed(files));
  }

  lemma UpdatedSummarySettled(summary: seq<(string, Value)>, files: seq<Value>)
    requires SummaryShaped(summary)
    ensures forall j :: 0 <= j < 6 ==>
      var s := UpdatedSummary(summary, files);
      Truthy(Lookup(s, Recomputed(files)[j].0)) || Lookup(s, Recomputed(files)[j].0) == Recomputed(files)[j].1
  {
    var fields := Recomputed(files);
    RecomputedDistinct(files);
    forall j | 0 <= j < 6
      ensures var s := UpdatedSummary(summary, files);
        Truthy(Lookup(s, fields[j].0)) || Lookup(s, fields[j].0) == fields[j].1
    {
      FillAllLookup(summary, fields, fields[j].0);
    }
  }

  /** `Standardize` as the three stages followed by completion and
      back-filling. */
  lemma StandardizeStages(data: Value)
    requires Ingestible(data)
    ensures StageOk(Branch(data))
    ensures var st3 := PlaceholderStage(CodeQualityStage(Branch(data)));
      var files := Completed(st3.fileResults);
      Standardize(data) == Obj([("results", st3.results), ("fileResults", Arr(files)), ("summary", Obj(UpdatedSummary(st3.summary, files)))])
  {
    BranchProps(data);
  }

  /** What `standardizeResults` returns has the standard shape. */
  lemma StandardizeShape(data: Value)
    requires Ingestible(data)
    ensures StandardShape(Standardize(data))
  {
    StandardizeStages(data);
    var st1 := Branch(data);
    var st2 := CodeQualityStage(st1);
    var st3 := PlaceholderStage(st2);
    var files := Completed(st3.fileResults);
    CompletedOk(st3.fileResults);
    UpdatedSummaryShaped(st3.summary, files);
  }

  /** Completion turns readable records into filled, readable ones. */
  lemma CompletedOk(files: seq<Value>)
    requires FilesOk(files)
    ensures forall f | f in Completed(files) :: CompleteRecord(f) && FileOk(f)
  {
    forall i | 0 <= i < |files| ensures CompleteRecord(Completed(files)[i]) && FileOk(Completed(files)[i]) {
      assert files[i] in files;
      CompleteProps(files[i]);
    }
  }

  /** A value of the standard shape is standardized without a throw, and
      passes `standardizeResults` unchanged. */
  lemma StandardizeFixed(out: Value)
    requires StandardShape(out)
    ensures Ingestible(out) && Standardize(out) == out
  {
    ShapeParts(out);
    FixedParts(out.entries[0].1, out.entries[1].1.items, out.entries[2].1.entries);
  }

  /** A value of the standard shape is the object of its three parts. */
  lemma ShapeParts(out: Value)
    requires StandardShape(out)
    ensures out == Obj([("results", out.entries[0].1), ("fileResults", Arr(out.entries[1].1.items)),
                        ("summary", Obj(out.entries[2].1.entries))])
  {
    var e := out.entries;
    assert e == [("results", e[0].1), ("fileResults", Arr(e[1].1.items)), ("summary", Obj(e[2].1.entries))];
  }

  lemma FixedParts(results: Value, files: seq<Value>, summary: seq<(string, Value)>)
    requires StandardParts(results, files, summary)
    ensures var out := Obj([("results", results), ("fileResults", Arr(files)), ("summary", Obj(summary))]);
      Ingestible(out) && Standardize(out) == out
  {
    var out := Obj([("results", results), ("fileResults", Arr(files)), ("summary", Obj(summary))]);
    FixedBranch(results, files, summary);
    assert StagesOk(Branch(out));
    StandardizeStages(out);
    CompletedFixed(files);
    RecomputedPresent(summary, files);
    FillAllFixed(summary, Recomputed(files));
  }

  lemma CompletedFixed(files: seq<Value>)
    requires forall f | f in files :: CompleteRecord(f)
    ensures Completed(files) == files
  {
    forall i | 0 <= i < |files| ensures Complete(files[i]) == files[i] {
      assert files[i] in files;
      CompleteFixed(files[i]);
    }
  }

  /** The three properties of an output object read back as stored. */
  lemma OutputFields(results: Value, files: seq<Value>, summary: seq<(string, Value)>)
    ensures var out := Obj([("results", results), ("fileResults", Arr(files)), ("summary", Obj(summary))]);
      Get(out, "results") == results && Get(out, "fileResults") == Arr(files) && Get(out, "summary") == Obj(summary)
  {
    var e := [("results", results), ("fileResults", Arr(files)), ("summary", Obj(summary))];
    assert "results" != "fileResults" && "results" != "summary" && "fileResults" != "summary";
    LookupAt(e, 0);
    LookupAt(e, 1);
    LookupAt(e, 2);
  }

  /** Spreading a summary of the default shape over the default summary
      gives it back. */
  lemma MergeShaped(summary: seq<(string, Value)>)
    requires SummaryShaped(summary)
    ensures MergeSummary(Obj(summary)) == summary
  {
    AssignOwnPrefix(DefaultSummary, summary);
  }

  /** On an output object the classifier takes the wrapped branch and hands
      on its three parts unchanged. */
  lemma FixedBranch(results: Value, files: seq<Value>, summary: seq<(string, Value)>)
    requires Truthy(results) && SummaryShaped(summary)
    ensures var out := Obj([("results", results), ("fileResults", Arr(files)), ("summary", Obj(summary))]);
      Classifiable(out) && Branch(out) == Stage(results, files, summary)
  {
    var out := Obj([("results", results), ("fileResults", Arr(files)), ("summary", Obj(summary))]);
    OutputFields(results, files, summary);
    WrappedParts(out, results, Arr(files), Obj(summary));
    MergeShaped(summary);
  }

  lemma WrappedParts(data: Value, results: Value, files: Value, summary: Value)
    requires Truthy(results) && files.Arr?
    requires Get(data, "results") == results && Get(data, "fileResults") == files && Get(data, "summary") == summary
    ensures IsWrapped(data) && Classifiable(data)
    ensures Branch(data) == Stage(results, files.items, MergeSummary(summary))
  {
  }

  /** Running `standardizeResults` on its own output gives the same output. */
  lemma StandardizeIdempotent(data: Value)
    requires Ingestible(data)
    ensures Ingestible(Standardize(data))
    ensures Standardize(Standardize(data)) == Standardize(data)
  {
    StandardizeShape(data);
    StandardizeFixed(Standardize(data));
  }

  /** An array whose first element is not an object is not searched, even
      when a `null` follows: `{results: {tags: [1, null]}}` gets the
      placeholder record. */
  lemma SkippedArrayPayload(data: Value)
    requires data == Obj([("results", Obj([("tags", Arr([Num(1), Null]))]))])
    ensures Ingestible(data)
    ensures Get(Standardize(data), "fileResults") == Arr([NotFoundRecord])
  {
    var results := Obj([("tags", Arr([Num(1), Null]))]);
    SkippedArrayStages(data, results);
    NotFoundComplete();
    var files := [NotFoundRecord];
    OutputFields(results, files, UpdatedSummary(DefaultSummary, files));
  }

  lemma SkippedArrayStages(data: Value, results: Value)
    requires results == Obj([("tags", Arr([Num(1), Null]))]) && data == Obj([("results", results)])
    ensures Ingestible(data)
    ensures PlaceholderStage(CodeQualityStage(Branch(data))) == Stage(results, [NotFoundRecord], DefaultSummary)
  {
    assert "results" != "fileResults" && "results" != "summary";
    assert Branch(data) == Stage(results, [], DefaultSummary);
    assert "tags" != "codeQuality";
    assert Get(results, "codeQuality") == Undefined;
    SkippedArrayNoIssues(results);
    NotFoundOk();
  }

  lemma SkippedArrayNoIssues(results: Value)
    requires results == Obj([("tags", Arr([Num(1), Null]))])
    ensures ExtractSafe(results) && ExtractIssues(results) == []
  {
    assert "tags" != "message";
    assert !IssueLike(results.entries);
    assert ExtractIssues(Arr([Num(1), Null])) == [];
    var parts := seq(|results.entries|, i requires 0 <= i < |results.entries| => ExtractIssues(results.entries[i].1));
    assert parts == [[]];
    assert Flatten(parts) == [];
  }

  /** A stage that has file records once the codeQuality grouping is done
      passes the placeholder step unchanged, so its later reads are those
      of its records. */
  lemma RecordsStagesOk(st: Stage)
    requires QualityReadable(st)
    requires |CodeQualityStage(st).fileResults| > 0 && FilesOk(CodeQualityStage(st).fileResults)
    ensures StagesOk(st)
  {
  }

  /** A record whose name is not a string is kept when it brings its
      language: the language is then not guessed, so the name is never
      split. */
  lemma NumberNamedRecord(data: Value)
    requires data == Obj([("fileResults", Arr([Obj([("fileName", Num(7)), ("language", Str("Go"))])]))])
    ensures Ingestible(data)
  {
    var file := Obj([("fileName", Num(7)), ("language", Str("Go"))]);
    var st := Stage(Obj([("onlyFileResults", Bool(true))]), [file], DefaultSummary);
    NumberNamedBranch(data, file);
    NumberNamedFile(file);
    assert !NeedsCodeQualityGroups(st);
    RecordsStagesOk(st);
  }

  lemma NumberNamedBranch(data: Value, file: Value)
    requires file == Obj([("fileName", Num(7)), ("language", Str("Go"))])
    requires data == Obj([("fileResults", Arr([file]))])
    ensures Classifiable(data)
    ensures Branch(data) == Stage(Obj([("onlyFileResults", Bool(true))]), [file], DefaultSummary)
  {
    assert "fileResults" != "results" && "fileResults" != "code" && "fileResults" != "codeQuality";
    assert "fileResults" != "security" && "fileResults" != "performance";
    assert !IsWrapped(data) && !IsEnvelope(data) && !IsDirect(data);
    assert Get(data, "fileResults") == Arr([file]);
    assert HasFileList(data);
    assert CopyFiles(Arr([file])) == [file];
  }

  lemma NumberNamedFile(file: Value)
    requires file == Obj([("fileName", Num(7)), ("language", Str("Go"))])
    ensures FileOk(file)
  {
    assert "fileName" != "issues" && "fileName" != "score" && "fileName" != "language";
    assert "language" != "issues" && "language" != "score";
  }

  /** An issue named by a number is grouped under the number's text. */
  lemma NumberNamedIssue(data: Value, issue: Value)
    requires issue == Obj([("fileName", Num(5)), ("message", Str("m")), ("severity", Str("high"))])
    requires data == Obj([("codeQuality", Obj([("issues", Arr([issue]))]))])
    ensures Ingestible(data) && FileKey(issue) == "5"
  {
    var st := NumberNamedIssueBranch(data, issue);
    NumberNamedGroups(issue);
    assert NeedsCodeQualityGroups(st);
    assert CodeQualityStage(st).fileResults == GroupIssues([issue]);
    RecordsStagesOk(st);
  }

  lemma NumberNamedIssueBranch(data: Value, issue: Value) returns (st: Stage)
    requires issue == Obj([("fileName", Num(5)), ("message", Str("m")), ("severity", Str("high"))])
    requires data == Obj([("codeQuality", Obj([("issues", Arr([issue]))]))])
    ensures Classifiable(data) && Branch(data) == st
    ensures st.results == data && st.fileResults == [] && QualityIssues(data) == Arr([issue])
  {
    assert "codeQuality" != "results" && "codeQuality" != "code" && "codeQuality" != "fileResults";
    assert "codeQuality" != "summary";
    st := Branch(data);
  }

  lemma NumberNamedGroups(issue: Value)
    requires issue == Obj([("fileName", Num(5)), ("message", Str("m")), ("severity", Str("high"))])
    ensures FileKey(issue) == "5" && Groupable([issue])
    ensures FilesOk(GroupIssues([issue])) && |GroupIssues([issue])| > 0
  {
    assert "fileName" != "message";
    assert NatToString(5) == "5";
    GroupIssuesOk([issue]);
    GroupIssuesNonEmpty([issue]);
  }

  /** An empty array yields the single placeholder file with score 0, under
      `{rawArray: []}`, and a summary of one file and no issues. */
  lemma StandardizeEmptyArray(data: Value)
    requires data == Arr([])
    ensures Ingestible(data)
    ensures Standardize(data) == Obj([
      ("results", Obj([("rawArray", data)])),
      ("fileResults", Arr([NotFoundRecord])),
      ("summary", Obj([("totalFiles", Num(1)), ("totalIssues", Num(0)), ("criticalIssues", Num(0)),
                       ("majorIssues", Num(0)), ("minorIssues", Num(0)), ("codeQualityScore", Num(0))]))])
  {
    NotFoundComplete();
    PlaceholderSummary([NotFoundRecord]);
    EmptyArrayStages(data);
    StandardizeStages(data);
  }

  lemma NotFoundComplete()
    ensures Completed([NotFoundRecord]) == [NotFoundRecord]
  {
    CompleteFixed(NotFoundRecord);
  }

  lemma EmptyArrayStages(data: Value)
    requires data == Arr([])
    ensures Ingestible(data)
    ensures PlaceholderStage(CodeQualityStage(Branch(data)))
      == Stage(Obj([("rawArray", data)]), [NotFoundRecord], DefaultSummary)
  {
    var results := Obj([("rawArray", data)]);
    assert Branch(data) == Stage(results, [], DefaultSummary);
    assert "rawArray" != "codeQuality";
    assert Get(results, "codeQuality") == Undefined;
    RawArrayNoIssues(data);
    NotFoundOk();
  }

  lemma NotFoundOk()
    ensures FilesOk([NotFoundRecord])
  {
    RecordFields(Str(NotFoundFile), Arr([]), Num(0), Str(UnknownLanguage));
  }

  lemma RawArrayNoIssues(data: Value)
    requires data == Arr([])
    ensures ExtractSafe(Obj([("rawArray", data)]))
    ensures ExtractIssues(Obj([("rawArray", data)])) == []
  {
    var entries := [("rawArray", data)];
    assert "rawArray" != "message";
    assert !IssueLike(entries);
    var parts := seq(|entries|, i requires 0 <= i < |entries| => ExtractIssues(entries[i].1));
    assert parts == [[]];
    assert Flatten(parts) == [];
  }

  /** The summary of the placeholder record alone. */
  lemma PlaceholderSummary(files: seq<Value>)
    requires files == [NotFoundRecord]
    ensures UpdatedSummary(DefaultSummary, files)
      == [("totalFiles", Num(1)), ("totalIssues", Num(0)), ("criticalIssues", Num(0)),
          ("majorIssues", Num(0)), ("minorIssues", Num(0)), ("codeQualityScore", Num(0))]
  {
    NotFoundTotals(files);
    var fields := Recomputed(files);
    RecomputedDistinct(files);
    assert fields[0..] == fields;
    FalsyFilled(DefaultSummary, fields, 0);
  }

  lemma NotFoundTotals(files: seq<Value>)
    requires files == [NotFoundRecord]
    ensures Recomputed(files)
      == [("totalFiles", Num(1)), ("totalIssues", Num(0)), ("criticalIssues", Num(0)),
          ("majorIssues", Num(0)), ("minorIssues", Num(0)), ("codeQualityScore", Num(0))]
  {
    var file := NotFoundRecord;
    RecordFields(Str(NotFoundFile), Arr([]), Num(0), Str(UnknownLanguage));
    assert FileIssues(file) == [] && ScoreOf(file) == 0;
    SingleFile(files);
  }

  /** The totals over a single file are that file's counts. */
  lemma SingleFile(files: seq<Value>)
    requires |files| == 1
    ensures TotalIssues(files) == |FileIssues(files[0])| && ScoreSum(files) == ScoreOf(files[0])
    ensures forall c :: ClassTotal(files, c) == CountClass(FileIssues(files[0]), c)
  {
    assert files[..0] == [];
  }

  /** Filling a summary whose fields are all falsy, under the same names in
      the same order as `fields`, gives `fields`. */
  lemma {:induction false} FalsyFilled(current: seq<(string, Value)>, fields: seq<(string, Value)>, k: nat)
    requires |current| == |fields| && DistinctKeys(fields) && k <= |fields|
    requires forall m :: 0 <= m < k ==> current[m] == fields[m]
    requires forall m :: k <= m < |fields| ==> current[m].0 == fields[m].0 && !Truthy(current[m].1)
    ensures FillAll(current, fields[k..]) == fields
    decreases |fields| - k
  {
    if k == |fields| {
      assert current == fields;
    } else {
      assert fields[k..][1..] == fields[k + 1..];
      forall m | 0 <= m < k ensures current[m].0 != current[k].0 {
        assert current[m].0 == fields[m].0;
      }
      LookupAt(current, k);
      PutAt(current, k, fields[k].1);
      var next := current[..k] + [(current[k].0, fields[k].1)] + current[k + 1..];
      assert FillField(current, fields[k].0, fields[k].1) == next;
      FalsyFilled(next, fields, k + 1);
    }
  }
}
