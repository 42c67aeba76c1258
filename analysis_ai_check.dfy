/** `checkForAiResults(data)`: where in a result the first AI annotation
    sits. The places are searched in a fixed order and the first hit is
    reported as a path string. */
module AiCheck {
  import opened JsValue

  datatype AiCheckResult = AiCheckResult(has: bool, location: Option<string>)

  /** `v.a || v.b` is truthy. */
  predicate Marked(v: Value, a: string, b: string) {
    Truthy(Get(v, a)) || Truthy(Get(v, b))
  }

  /** `v.a ? 'a' : 'b'` */
  function Pick(v: Value, a: string, b: string): string {
    if Truthy(Get(v, a)) then a else b
  }

  /** The reads `checkForAiResults` makes do not throw: the value is not
      `null`/`undefined`, a truthy `fileResults` is an array of non-null
      files, and a file's truthy `issues` is an array of non-null issues. */
  predicate Scannable(data: Value) {
    && !Nullish(data)
    && (Truthy(Get(data, "fileResults")) ==> FilesScannable(Get(data, "fileResults")))
  }

  predicate FilesScannable(files: Value) {
    files.Arr? && forall f | f in files.items :: !Nullish(f) && IssuesScannable(Get(f, "issues"))
  }

  predicate IssuesScannable(issues: Value) {
    Truthy(issues) ==> issues.Arr? && forall x | x in issues.items :: !Nullish(x)
  }

  /** The markers on the value itself and under `results`. */
  function TopLocation(data: Value): Option<string> {
    if Marked(data, "aiResults", "aiAnalysis") then Some(Pick(data, "aiResults", "aiAnalysis"))
    else if Truthy(Get(data, "results")) then
      var r := Get(data, "results");
      if Marked(r, "aiResults", "aiAnalysis") then Some("results." + Pick(r, "aiResults", "aiAnalysis"))
      else if Truthy(Get(r, "codeQuality")) && Truthy(Get(Get(r, "codeQuality"), "aiComments"))
      then Some("results.codeQuality.aiComments")
      else None
    else None
  }

  function FilePath(i: nat): string {
    "fileResults[" + NatToString(i) + "]"
  }

  /** The first marked issue among `issues` of file `i`. */
  function FirstIssueMark(i: nat, issues: seq<Value>): Option<string> {
    if issues == [] then None
    else
      var prev := FirstIssueMark(i, issues[..|issues| - 1]);
      var j := |issues| - 1;
      if prev.Some? then prev
      else if Marked(issues[j], "aiSuggestion", "aiComment") then
        Some(FilePath(i) + ".issues[" + NatToString(j) + "]." + Pick(issues[j], "aiSuggestion", "aiComment"))
      else None
  }

  /** The marker of file `i`: the file's own marker, else its first marked
      issue. */
  function FileLocation(file: Value, i: nat): Option<string> {
    if Marked(file, "aiComments", "aiAnalysis") then Some(FilePath(i) + "." + Pick(file, "aiComments", "aiAnalysis"))
    else if Truthy(Get(file, "issues")) && Get(file, "issues").Arr? then FirstIssueMark(i, Get(file, "issues").items)
    else None
  }

  /** The marker of the first file that has one. */
  function FirstFileMark(files: seq<Value>): Option<string> {
    if files == [] then None
    else
      var prev := FirstFileMark(files[..|files| - 1]);
      if prev.Some? then prev else FileLocation(files[|files| - 1], |files| - 1)
  }

  /** Where `checkForAiResults` reports the first AI annotation. */
  function AiLocation(data: Value): Option<string> {
    var top := TopLocation(data);
    if top.Some? then top
    else
      var files := Get(data, "fileResults");
      if Truthy(files) && files.Arr? then FirstFileMark(files.items) else None
  }

  /** The search itself, with its early returns: the value, then `results`,
      then the files in order. */
  method CheckForAiResults(data: Value) returns (result: AiCheckResult)
    requires Scannable(data)
    ensures result.location == AiLocation(data)
    ensures result.has <==> result.location.Some?
  {
    if Marked(data, "aiResults", "aiAnalysis") {
      return AiCheckResult(true, Some(Pick(data, "aiResults", "aiAnalysis")));
    }
    var r := Get(data, "results");
    if Truthy(r) {
      if Marked(r, "aiResults", "aiAnalysis") {
        return AiCheckResult(true, Some("results." + Pick(r, "aiResults", "aiAnalysis")));
      }
      if Truthy(Get(r, "codeQuality")) && Truthy(Get(Get(r, "codeQuality"), "aiComments")) {
        return AiCheckResult(true, Some("results.codeQuality.aiComments"));
      }
    }
    assert TopLocation(data).None?;
    var fileResults := Get(data, "fileResults");
    if Truthy(fileResults) {
      var location := ScanFiles(fileResults.items);
      return AiCheckResult(location.Some?, location);
    }
    return AiCheckResult(false, None);
  }

  /** The loop over `data.fileResults`. */
  method ScanFiles(files: seq<Value>) returns (location: Option<string>)
    requires forall f | f in files :: IssuesScannable(Get(f, "issues"))
    ensures location == FirstFileMark(files)
  {
    var i := 0;
    while i < |files|
      invariant 0 <= i <= |files|
      invariant FirstFileMark(files[..i]).None?
    {
      assert files[..i + 1][..i] == files[..i];
      var file := files[i];
      if Marked(file, "aiComments", "aiAnalysis") {
        FileMarkFound(files, i);
        return Some(FilePath(i) + "." + Pick(file, "aiComments", "aiAnalysis"));
      }
      var issues := Get(file, "issues");
      if Truthy(issues) {
        assert file in files;
        var found := ScanIssues(i, issues.items);
        if found.Some? {
          FileMarkFound(files, i);
          return found;
        }
      }
      i := i + 1;
    }
    assert files[..i] == files;
    return None;
  }

  /** The loop over one file's `issues`. */
  method ScanIssues(i: nat, issues: seq<Value>) returns (location: Option<string>)
    ensures location == FirstIssueMark(i, issues)
  {
    var j := 0;
    while j < |issues|
      invariant 0 <= j <= |issues|
      invariant FirstIssueMark(i, issues[..j]).None?
    {
      assert issues[..j + 1][..j] == issues[..j];
      var issue := issues[j];
      if Marked(issue, "aiSuggestion", "aiComment") {
        IssueMarkFound(i, issues, j);
        return Some(FilePath(i) + ".issues[" + NatToString(j) + "]." + Pick(issue, "aiSuggestion", "aiComment"));
      }
      j := j + 1;
    }
    assert issues[..j] == issues;
    return None;
  }

  /** A marker found in a prefix is the marker of the whole list. */
  lemma {:induction false} FileMarkStable(files: seq<Value>, n: nat)
    requires n <= |files| && FirstFileMark(files[..n]).Some?
    ensures FirstFileMark(files) == FirstFileMark(files[..n])
    decreases |files| - n
  {
    if n < |files| {
      assert files[..n + 1][..n] == files[..n];
      FileMarkStable(files, n + 1);
    } else {
      assert files[..n] == files;
    }
  }

  lemma FileMarkFound(files: seq<Value>, i: nat)
    requires i < |files| && FirstFileMark(files[..i]).None? && FileLocation(files[i], i).Some?
    ensures FirstFileMark(files) == FileLocation(files[i], i)
  {
    assert files[..i + 1][..i] == files[..i];
    FileMarkStable(files, i + 1);
  }

  lemma {:induction false} IssueMarkStable(i: nat, issues: seq<Value>, n: nat)
    requires n <= |issues| && FirstIssueMark(i, issues[..n]).Some?
    ensures FirstIssueMark(i, issues) == FirstIssueMark(i, issues[..n])
    decreases |issues| - n
  {
    if n < |issues| {
      assert issues[..n + 1][..n] == issues[..n];
      IssueMarkStable(i, issues, n + 1);
    } else {
      assert issues[..n] == issues;
    }
  }

  lemma IssueMarkFound(i: nat, issues: seq<Value>, j: nat)
    requires j < |issues| && FirstIssueMark(i, issues[..j]).None? && Marked(issues[j], "aiSuggestion", "aiComment")
    ensures FirstIssueMark(i, issues) == Some(FilePath(i) + ".issues[" + NatToString(j) + "]." + Pick(issues[j], "aiSuggestion", "aiComment"))
  {
    assert issues[..j + 1][..j] == issues[..j];
    IssueMarkStable(i, issues, j + 1);
  }

  // ---------------------------------------------------------------------------

  /** Some file `i` of `files` carries a marker, on itself or on an issue. */
  predicate SomeFileMarked(files: seq<Value>) {
    exists i :: 0 <= i < |files| && FileLocation(files[i], i).Some?
  }

  /** Files are searched in index order: the reported marker is that of the
      first file that has one, and there is none exactly when no file has one. */
  lemma {:induction false} FirstFileMarkIsFirst(files: seq<Value>)
    ensures FirstFileMark(files).None? <==> !SomeFileMarked(files)
    ensures FirstFileMark(files).Some? ==> exists i :: (0 <= i < |files|
      && FirstFileMark(files) == FileLocation(files[i], i)
      && forall k :: 0 <= k < i ==> FileLocation(files[k], k).None?)
  {
    if files != [] {
      var init := files[..|files| - 1];
      FirstFileMarkIsFirst(init);
      assert forall k :: 0 <= k < |init| ==> init[k] == files[k];
      if FirstFileMark(init).Some? {
        var i :| 0 <= i < |init| && FirstFileMark(init) == FileLocation(init[i], i)
          && forall k :: 0 <= k < i ==> FileLocation(init[k], k).None?;
        assert FileLocation(files[i], i).Some?;
      } else {
        assert forall k :: 0 <= k < |init| ==> FileLocation(files[k], k).None?;
      }
    }
  }

  /** Issues are searched in index order in the same way. */
  lemma {:induction false} FirstIssueMarkIsFirst(i: nat, issues: seq<Value>)
    ensures FirstIssueMark(i, issues).None? <==> forall j :: 0 <= j < |issues| ==> !Marked(issues[j], "aiSuggestion", "aiComment")
    ensures FirstIssueMark(i, issues).Some? ==> exists j :: (0 <= j < |issues|
      && Marked(issues[j], "aiSuggestion", "aiComment")
      && FirstIssueMark(i, issues) == Some(FilePath(i) + ".issues[" + NatToString(j) + "]." + Pick(issues[j], "aiSuggestion", "aiComment"))
      && forall k :: 0 <= k < j ==> !Marked(issues[k], "aiSuggestion", "aiComment"))
  {
    if issues != [] {
      var init := issues[..|issues| - 1];
      FirstIssueMarkIsFirst(i, init);
      assert forall k :: 0 <= k < |init| ==> init[k] == issues[k];
    }
  }
}
