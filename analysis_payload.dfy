/** The places where `standardizeResults` reads a value it has only looked at
    loosely. Spreading a value that is not iterable, or reading a property of
    `null`/`undefined`, throws; the predicates below state, place by place,
    what the value found there must be for the read to succeed. The one
    condition that is not a throw is `NumericScore`: the model averages
    scores as integers. */
module Payload {
  import opened JsValue

  /** `[...v]` behind `if (v)` (lines 816, 839, 860): a truthy `v` is an
      array or a string. */
  predicate Spreadable(v: Value) {
    !Truthy(v) || v.Arr? || v.Str?
  }

  /** Every element is read as an object: none is `null` or `undefined`. */
  predicate NoNullish(items: seq<Value>) {
    forall x | x in items :: !Nullish(x)
  }

  /** A file record the completion map (lines 950-955) and
      `updateSummaryInformation` (lines 1098-1114) read without throwing:
      - the record itself is not `null`/`undefined` (`file.fileName`);
      - an array of issues holds no `null`/`undefined` (`i.severity`);
      - a truthy name is a string when the language is falsy, since the
        language is then guessed with `fileName.split('.')` (line 1057). */
  predicate Readable(file: Value) {
    && !Nullish(file)
    && (Get(file, "issues").Arr? ==> NoNullish(Get(file, "issues").items))
    && (Truthy(Get(file, "fileName")) && !Truthy(Get(file, "language")) ==> Get(file, "fileName").Str?)
  }

  /** A truthy `score` is a number or `true`, so that `file.score || 0` adds
      up as a number (line 1137). */
  predicate NumericScore(file: Value) {
    var score := Get(file, "score");
    Truthy(score) ==> score.Num? || score.Bool?
  }

  predicate FileOk(file: Value) {
    Readable(file) && NumericScore(file)
  }

  predicate FilesOk(files: seq<Value>) {
    forall f | f in files :: FileOk(f)
  }
}
