/** `extractIssuesFromResults`: the recursive search for anything that looks
    like an issue inside an arbitrary result value. The `path` argument of the
    source only feeds log lines and is left out. */
module IssueExtraction {
  import opened JsValue

  function Flatten(parts: seq<seq<Value>>): seq<Value> {
    if parts == [] then [] else parts[0] + Flatten(parts[1..])
  }

  /** The head test of an array: `results[0].message || results[0].severity || results[0].rule`. */
  predicate IssueArrayHead(x: Value) {
    Truthy(Get(x, "message")) || Truthy(Get(x, "severity")) || Truthy(Get(x, "rule"))
  }

  /** The object test: `results.message && (results.severity || results.level)`. */
  predicate IssueLike(entries: seq<(string, Value)>) {
    Truthy(Lookup(entries, "message")) && (Truthy(Lookup(entries, "severity")) || Truthy(Lookup(entries, "level")))
  }

  /** The search reads `results[0].message` of every array it enters whose
      first element has `typeof` "object"; that read throws when the element
      is `null`. The search enters the elements of an array that is not an
      issue list and the properties of an object that is not an issue. */
  predicate ExtractSafe(v: Value)
    decreases v
  {
    match v
    case Arr(items) =>
      |items| > 0 && IsObjectLike(items[0]) ==>
        && items[0] != Null
        && (!IssueArrayHead(items[0]) ==> forall i :: 0 <= i < |items| ==> ExtractSafe(items[i]))
    case Obj(entries) =>
      !IssueLike(entries) ==> forall i :: 0 <= i < |entries| ==> ExtractSafe(entries[i].1)
    case _ => true
  }

  /** The issues found in `v`. A non-empty result starts with an object that
      passes the array head test, so that a found list is recognised as an
      issue list when it is searched again. */
  function ExtractIssues(v: Value): (issues: seq<Value>)
    requires ExtractSafe(v)
    ensures issues != [] ==> issues[0].Obj? && IssueArrayHead(issues[0])
    decreases v
  {
    match v
    case Arr(items) =>
      if |items| > 0 && IsObjectLike(items[0]) then
        if IssueArrayHead(items[0]) then items
        else
          var parts := seq(|items|, i requires 0 <= i < |items| => ExtractIssues(items[i]));
          FlattenHead(parts);
          Flatten(parts)
      else []
    case Obj(entries) =>
      if IssueLike(entries) then [v]
      else
        var parts := seq(|entries|, i requires 0 <= i < |entries| => ExtractIssues(entries[i].1));
        FlattenHead(parts);
        Flatten(parts)
    case _ => []
  }

  /** The first issue of a concatenation of found lists is the first issue
      of the first non-empty one. */
  lemma {:induction false} FlattenHead(parts: seq<seq<Value>>)
    requires forall i :: 0 <= i < |parts| && parts[i] != [] ==> parts[i][0].Obj? && IssueArrayHead(parts[i][0])
    ensures Flatten(parts) != [] ==> Flatten(parts)[0].Obj? && IssueArrayHead(Flatten(parts)[0])
  {
    if parts != [] && parts[0] == [] {
      FlattenHead(parts[1..]);
      assert Flatten(parts) == Flatten(parts[1..]);
    }
  }

  lemma {:induction false} FlattenMember(parts: seq<seq<Value>>, x: Value)
    requires x in Flatten(parts)
    ensures exists i :: 0 <= i < |parts| && x in parts[i]
  {
    if x !in parts[0] {
      FlattenMember(parts[1..], x);
      var i :| 0 <= i < |parts[1..]| && x in parts[1..][i];
      assert x in parts[i + 1];
    }
  }

  /** `x` is `v` itself or lies somewhere inside it. */
  predicate Occurs(x: Value, v: Value)
    decreases v
  {
    x == v
    || (v.Arr? && exists i :: 0 <= i < |v.items| && Occurs(x, v.items[i]))
    || (v.Obj? && exists i :: 0 <= i < |v.entries| && Occurs(x, v.entries[i].1))
  }

  /** Nothing is invented: every issue found lies inside the searched value. */
  lemma {:induction false} ExtractedOccur(v: Value, x: Value)
    requires ExtractSafe(v) && x in ExtractIssues(v)
    ensures Occurs(x, v)
    decreases v
  {
    match v
    case Arr(items) =>
      if !IssueArrayHead(items[0]) {
        var parts := seq(|items|, i requires 0 <= i < |items| => ExtractIssues(items[i]));
        FlattenMember(parts, x);
        var i :| 0 <= i < |parts| && x in parts[i];
        ExtractedOccur(items[i], x);
      } else {
        var k :| 0 <= k < |items| && items[k] == x;
        assert Occurs(x, items[k]);
      }
    case Obj(entries) =>
      if !IssueLike(entries) {
        var parts := seq(|entries|, i requires 0 <= i < |entries| => ExtractIssues(entries[i].1));
        FlattenMember(parts, x);
        var i :| 0 <= i < |parts| && x in parts[i];
        ExtractedOccur(entries[i].1, x);
      }
  }

  /** A found list can be searched again without throwing, and the search
      returns it unchanged. */
  lemma ExtractIdempotent(v: Value)
    requires ExtractSafe(v)
    ensures ExtractSafe(Arr(ExtractIssues(v)))
    ensures ExtractIssues(Arr(ExtractIssues(v))) == ExtractIssues(v)
  {
  }

  /** An array of numbers with a `null` after them is skipped without a
      read: its first element is not an object. */
  lemma SkipsPrimitiveArray()
    ensures ExtractSafe(Arr([Num(1), Null])) && ExtractIssues(Arr([Num(1), Null])) == []
  {
  }
}
