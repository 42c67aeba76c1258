/** `groupIssuesByFile`: issues are collected per file name in a dictionary
    and the file records are read back with `Object.entries`. The dictionary
    loop itself is `Normalizer.Standardized.GroupIssuesByFile`; this module
    holds the function it is proved against and the facts about it. */
module Grouping {
  import opened JsValue
  import opened Scoring
  import opened Languages

  const UnknownFile: string := "未知文件"

  /** What `issues.forEach(issue => issue.fileName ...)` needs: no `null` or
      `undefined` issue (line 969 reads a property of each). */
  predicate Groupable(issues: seq<Value>) {
    forall x | x in issues :: !Nullish(x)
  }

  /** `issue.fileName || '未知文件'`, as the property key it is used as: a
      truthy name that is not a string is turned into its text, so that the
      number 5 files its issue under "5". */
  function FileKey(issue: Value): (key: string)
    requires !Nullish(issue)
    ensures Get(issue, "fileName").Str? && Truthy(Get(issue, "fileName")) ==> key == Get(issue, "fileName").s
    ensures !Truthy(Get(issue, "fileName")) ==> key == UnknownFile
    ensures !Get(issue, "fileName").Arr? ==> key != ""
  {
    var f := Get(issue, "fileName");
    if Truthy(f) then ToText(f) else UnknownFile
  }

  /** Some issue of `issues` belongs to file `key`. */
  predicate HasFile(issues: seq<Value>, key: string)
    requires Groupable(issues)
  {
    exists p :: 0 <= p < |issues| && FileKey(issues[p]) == key
  }

  /** The keys of `issuesByFile` in the order they were first created. */
  function FirstOccurrence(issues: seq<Value>): seq<string>
    requires Groupable(issues)
  {
    if issues == [] then []
    else
      var prev := FirstOccurrence(issues[..|issues| - 1]);
      var key := FileKey(issues[|issues| - 1]);
      if key in prev then prev else prev + [key]
  }

  /** `issuesByFile[key]`: the issues of file `key`, in input order. */
  function Members(issues: seq<Value>, key: string): seq<Value>
    requires Groupable(issues)
  {
    if issues == [] then []
    else
      var prev := Members(issues[..|issues| - 1], key);
      if FileKey(issues[|issues| - 1]) == key then prev + [issues[|issues| - 1]] else prev
  }

  /** The position of the first issue of file `key`. */
  function FirstIndex(issues: seq<Value>, key: string): (p: nat)
    requires Groupable(issues) && HasFile(issues, key)
    ensures p < |issues| && FileKey(issues[p]) == key
    ensures forall q :: 0 <= q < p ==> FileKey(issues[q]) != key
  {
    var init := issues[..|issues| - 1];
    if HasFile(init, key) then
      var p := FirstIndex(init, key);
      assert issues[p] == init[p];
      assert forall q :: 0 <= q < p ==> issues[q] == init[q];
      p
    else
      assert forall q :: 0 <= q < |init| ==> issues[q] == init[q];
      |issues| - 1
  }

  // ---------------------------------------------------------------------------
  // `Object.entries` order: keys that are array indices ("0", "1", ...,
  // below 2^32 - 1, no leading zero) come first in ascending numeric order,
  // the other keys follow in creation order.

  predicate IsDigit(c: char) {
    '0' <= c <= '9'
  }

  function DigitsValue(s: string): nat {
    if s == [] then 0
    else
      var c := s[|s| - 1];
      DigitsValue(s[..|s| - 1]) * 10 + (if IsDigit(c) then c as int - '0' as int else 0)
  }

  predicate IsIndexKey(s: string) {
    && |s| >= 1
    && (forall i :: 0 <= i < |s| ==> IsDigit(s[i]))
    && (s[0] != '0' || |s| == 1)
    && DigitsValue(s) < 0xFFFF_FFFF
  }

  /** The keys of `keys` that are (`want`) or are not (`!want`) array indices. */
  function KeysWhere(keys: seq<string>, want: bool): (r: seq<string>)
    ensures forall k :: k in r <==> k in keys && IsIndexKey(k) == want
  {
    if keys == [] then []
    else (if IsIndexKey(keys[0]) == want then [keys[0]] else []) + KeysWhere(keys[1..], want)
  }

  function InsertByValue(key: string, sorted: seq<string>): (r: seq<string>)
    ensures forall k :: k in r <==> k == key || k in sorted
  {
    if sorted == [] then [key]
    else if DigitsValue(key) <= DigitsValue(sorted[0]) then [key] + sorted
    else [sorted[0]] + InsertByValue(key, sorted[1..])
  }

  function SortByValue(keys: seq<string>): (r: seq<string>)
    ensures forall k :: k in r <==> k in keys
  {
    if keys == [] then [] else InsertByValue(keys[0], SortByValue(keys[1..]))
  }

  /** The order in which `Object.entries` lists an object whose keys were
      created in the order `keys`. */
  function ObjectKeyOrder(keys: seq<string>): seq<string> {
    SortByValue(KeysWhere(keys, true)) + KeysWhere(keys, false)
  }

  predicate Distinct(keys: seq<string>) {
    forall i, j :: 0 <= i < j < |keys| ==> keys[i] != keys[j]
  }

  predicate AllAtLeast(v: nat, keys: seq<string>) {
    forall k | k in keys :: v <= DigitsValue(k)
  }

  /** Every key's value is at most that of every later key. */
  predicate Ascending(keys: seq<string>) {
    keys == [] || (AllAtLeast(DigitsValue(keys[0]), keys[1..]) && Ascending(keys[1..]))
  }

  lemma NotInTail(keys: seq<string>)
    requires Distinct(keys) && keys != []
    ensures keys[0] !in keys[1..] && Distinct(keys[1..])
  {
    forall m | 0 <= m < |keys[1..]| ensures keys[1..][m] != keys[0] {
      assert keys[1..][m] == keys[m + 1];
    }
  }

  lemma {:induction false} InsertByValueAscending(key: string, sorted: seq<string>)
    requires Ascending(sorted)
    ensures Ascending(InsertByValue(key, sorted))
    decreases |sorted|
  {
    if sorted != [] && DigitsValue(key) > DigitsValue(sorted[0]) {
      InsertByValueAscending(key, sorted[1..]);
    }
  }

  lemma {:induction false} InsertByValueDistinct(key: string, sorted: seq<string>)
    requires Distinct(sorted) && key !in sorted
    ensures Distinct(InsertByValue(key, sorted))
    decreases |sorted|
  {
    if sorted != [] {
      NotInTail(sorted);
      if DigitsValue(key) > DigitsValue(sorted[0]) {
        InsertByValueDistinct(key, sorted[1..]);
        var t := InsertByValue(key, sorted[1..]);
        assert sorted[0] !in t;
        var r := [sorted[0]] + t;
        forall i, j | 0 <= i < j < |r| ensures r[i] != r[j] {
          if i > 0 {
            assert r[i] == t[i - 1] && r[j] == t[j - 1];
          } else {
            assert r[j] in t;
          }
        }
      } else {
        var r := [key] + sorted;
        forall i, j | 0 <= i < j < |r| ensures r[i] != r[j] {
          if i > 0 {
            assert r[i] == sorted[i - 1] && r[j] == sorted[j - 1];
          } else {
            assert r[j] in sorted;
          }
        }
      }
    }
  }

  lemma {:induction false} SortByValueProps(keys: seq<string>)
    ensures Ascending(SortByValue(keys))
    ensures Distinct(keys) ==> Distinct(SortByValue(keys))
    decreases |keys|
  {
    if keys != [] {
      SortByValueProps(keys[1..]);
      InsertByValueAscending(keys[0], SortByValue(keys[1..]));
      if Distinct(keys) {
        NotInTail(keys);
        InsertByValueDistinct(keys[0], SortByValue(keys[1..]));
      }
    }
  }

  lemma {:induction false} KeysWhereDistinct(keys: seq<string>, want: bool)
    requires Distinct(keys)
    ensures Distinct(KeysWhere(keys, want))
    decreases |keys|
  {
    if keys != [] {
      NotInTail(keys);
      KeysWhereDistinct(keys[1..], want);
      var t := KeysWhere(keys[1..], want);
      if IsIndexKey(keys[0]) == want {
        var r := [keys[0]] + t;
        assert KeysWhere(keys, want) == r;
        forall i, j | 0 <= i < j < |r| ensures r[i] != r[j] {
          if i > 0 {
            assert r[i] == t[i - 1] && r[j] == t[j - 1];
          } else {
            assert r[j] in t;
          }
        }
      }
    }
  }

  lemma {:induction false} KeysWhereAll(keys: seq<string>)
    requires forall k :: k in keys ==> !IsIndexKey(k)
    ensures KeysWhere(keys, false) == keys && KeysWhere(keys, true) == []
    decreases |keys|
  {
    if keys != [] {
      KeysWhereAll(keys[1..]);
    }
  }

  /** `Object.entries` lists the same keys, without repetition, index keys first
      in ascending numeric order and the rest in creation order; with no index
      key at all it is plain creation order. */
  lemma ObjectKeyOrderProps(keys: seq<string>)
    requires Distinct(keys)
    ensures forall k :: k in ObjectKeyOrder(keys) <==> k in keys
    ensures Distinct(ObjectKeyOrder(keys))
    ensures Ascending(SortByValue(KeysWhere(keys, true)))
    ensures (forall k :: k in keys ==> !IsIndexKey(k)) ==> ObjectKeyOrder(keys) == keys
  {
    var a := SortByValue(KeysWhere(keys, true));
    var b := KeysWhere(keys, false);
    KeysWhereDistinct(keys, true);
    KeysWhereDistinct(keys, false);
    SortByValueProps(KeysWhere(keys, true));
    assert forall i, j :: 0 <= i < |a| && 0 <= j < |b| ==> a[i] != b[j] by {
      forall i, j | 0 <= i < |a| && 0 <= j < |b| ensures a[i] != b[j] {
        assert a[i] in a && b[j] in b;
      }
    }
    if forall k :: k in keys ==> !IsIndexKey(k) {
      KeysWhereAll(keys);
    }
  }

  // ---------------------------------------------------------------------------

  /** The record built for one file. */
  function FileRecord(name: string, issues: seq<Value>): Value {
    Obj([("fileName", Str(name)), ("issues", Arr(issues)),
         ("score", Num(FileScore(issues))), ("language", Str(GuessLanguageFromFileName(name)))])
  }

  /** The `fileResults` that `groupIssuesByFile(issues, ...)` stores. */
  function GroupIssues(issues: seq<Value>): (files: seq<Value>)
    requires Groupable(issues)
    ensures |files| == |ObjectKeyOrder(FirstOccurrence(issues))|
  {
    var keys := ObjectKeyOrder(FirstOccurrence(issues));
    seq(|keys|, i requires 0 <= i < |keys| => FileRecord(keys[i], Members(issues, keys[i])))
  }

  // ---------------------------------------------------------------------------
  // Facts about the grouping.

  /** The file keys: each appears once, each belongs to some issue, and every
      issue's key is among them. */
  lemma {:induction false} FirstOccurrenceKeys(issues: seq<Value>)
    requires Groupable(issues)
    ensures Distinct(FirstOccurrence(issues))
    ensures forall k :: k in FirstOccurrence(issues) <==> HasFile(issues, k)
    decreases |issues|
  {
    if issues != [] {
      var init := issues[..|issues| - 1];
      var x := issues[|issues| - 1];
      FirstOccurrenceKeys(init);
      forall k ensures HasFile(issues, k) <==> HasFile(init, k) || FileKey(x) == k {
        if HasFile(init, k) {
          var p :| 0 <= p < |init| && FileKey(init[p]) == k;
          assert issues[p] == init[p];
        }
        if HasFile(issues, k) && k != FileKey(x) {
          var p :| 0 <= p < |issues| && FileKey(issues[p]) == k;
          assert init[p] == issues[p];
        }
      }
    }
  }

  /** The keys come in the order of their first issue. */
  lemma {:induction false} FirstOccurrenceOrdered(issues: seq<Value>)
    requires Groupable(issues)
    ensures forall k :: k in FirstOccurrence(issues) ==> HasFile(issues, k)
    ensures forall i, j :: 0 <= i < j < |FirstOccurrence(issues)| ==>
      FirstIndex(issues, FirstOccurrence(issues)[i]) < FirstIndex(issues, FirstOccurrence(issues)[j])
    decreases |issues|
  {
    FirstOccurrenceKeys(issues);
    if issues != [] {
      var init := issues[..|issues| - 1];
      var x := issues[|issues| - 1];
      FirstOccurrenceOrdered(init);
      FirstOccurrenceKeys(init);
      var keys := FirstOccurrence(issues);
      var prev := FirstOccurrence(init);
      forall k | k in prev ensures FirstIndex(issues, k) == FirstIndex(init, k) {
        assert HasFile(init, k);
      }
      forall i, j | 0 <= i < j < |keys| ensures FirstIndex(issues, keys[i]) < FirstIndex(issues, keys[j]) {
        assert keys[i] in prev;
        if j < |prev| {
          assert keys[j] in prev;
        } else {
          assert !HasFile(init, keys[j]);
        }
      }
    }
  }

  /** Every member of group `key` is an issue of file `key`, taken from the
      input; the groups of a longer list extend those of its prefix. */
  lemma {:induction false} MembersProps(issues: seq<Value>, key: string)
    requires Groupable(issues)
    ensures forall x :: x in Members(issues, key) ==> x in issues && FileKey(x) == key
    ensures !HasFile(issues, key) ==> Members(issues, key) == []
    decreases |issues|
  {
    if issues != [] {
      var init := issues[..|issues| - 1];
      MembersProps(init, key);
      if !HasFile(issues, key) {
        assert !HasFile(init, key) by {
          forall p | 0 <= p < |init| ensures FileKey(init[p]) != key {
            assert init[p] == issues[p];
          }
        }
      }
    }
  }

  lemma GroupableParts(a: seq<Value>, b: seq<Value>)
    requires Groupable(a) && Groupable(b) && b != []
    ensures Groupable(b[..|b| - 1]) && Groupable(a + b)
  {
    forall y | y in b[..|b| - 1] ensures y in b {
    }
    forall y | y in a + b ensures y in a || y in b {
    }
  }

  /** Input order is kept within a group: splitting the input splits each group
      the same way. */
  lemma {:induction false} MembersAppend(a: seq<Value>, b: seq<Value>, key: string)
    requires Groupable(a) && Groupable(b)
    ensures Groupable(a + b)
    ensures Members(a + b, key) == Members(a, key) + Members(b, key)
    decreases |b|
  {
    if b == [] {
      assert a + b == a;
    } else {
      var b' := b[..|b| - 1];
      var x := b[|b| - 1];
      GroupableParts(a, b);
      assert (a + b)[..|a + b| - 1] == a + b';
      assert (a + b)[|a + b| - 1] == x;
      var tail := if FileKey(x) == key then [x] else [];
      calc {
        Members(a + b, key);
        == { MembersLast(a + b, key); }
        Members(a + b', key) + tail;
        == { MembersAppend(a, b', key); }
        (Members(a, key) + Members(b', key)) + tail;
        == { MembersLast(b, key); }
        Members(a, key) + Members(b, key);
      }
    }
  }

  /** The group of `key` gains the last issue exactly when it is of file `key`. */
  lemma MembersLast(issues: seq<Value>, key: string)
    requires Groupable(issues) && issues != []
    ensures Groupable(issues[..|issues| - 1])
    ensures var x := issues[|issues| - 1];
      Members(issues, key) == Members(issues[..|issues| - 1], key) + if FileKey(x) == key then [x] else []
  {
    forall y | y in issues[..|issues| - 1] ensures y in issues {
    }
  }

  /** Total size of the groups listed in `keys`. */
  function GroupSizes(issues: seq<Value>, keys: seq<string>): nat
    requires Groupable(issues)
  {
    if keys == [] then 0 else |Members(issues, keys[0])| + GroupSizes(issues, keys[1..])
  }

  lemma {:induction false} GroupSizesConcat(issues: seq<Value>, a: seq<string>, b: seq<string>)
    requires Groupable(issues)
    ensures GroupSizes(issues, a + b) == GroupSizes(issues, a) + GroupSizes(issues, b)
    decreases |a|
  {
    if a == [] {
      assert a + b == b;
    } else {
      assert (a + b)[1..] == a[1..] + b;
      GroupSizesConcat(issues, a[1..], b);
    }
  }

  lemma {:induction false} GroupSizesInsert(issues: seq<Value>, key: string, sorted: seq<string>)
    requires Groupable(issues)
    ensures GroupSizes(issues, InsertByValue(key, sorted)) == |Members(issues, key)| + GroupSizes(issues, sorted)
    decreases |sorted|
  {
    if sorted != [] && DigitsValue(key) > DigitsValue(sorted[0]) {
      GroupSizesInsert(issues, key, sorted[1..]);
    }
  }

  lemma {:induction false} GroupSizesSort(issues: seq<Value>, keys: seq<string>)
    requires Groupable(issues)
    ensures GroupSizes(issues, SortByValue(keys)) == GroupSizes(issues, keys)
    decreases |keys|
  {
    if keys != [] {
      GroupSizesSort(issues, keys[1..]);
      GroupSizesInsert(issues, keys[0], SortByValue(keys[1..]));
    }
  }

  lemma {:induction false} GroupSizesSplit(issues: seq<Value>, keys: seq<string>)
    requires Groupable(issues)
    ensures GroupSizes(issues, KeysWhere(keys, true)) + GroupSizes(issues, KeysWhere(keys, false)) == GroupSizes(issues, keys)
    decreases |keys|
  {
    if keys != [] {
      GroupSizesSplit(issues, keys[1..]);
      var k := keys[0];
      if IsIndexKey(k) {
        GroupSizesConcat(issues, [k], KeysWhere(keys[1..], true));
        assert KeysWhere(keys, false) == KeysWhere(keys[1..], false);
      } else {
        GroupSizesConcat(issues, [k], KeysWhere(keys[1..], false));
        assert KeysWhere(keys, true) == KeysWhere(keys[1..], true);
      }
    }
  }

  /** One more issue adds one to the group of its own file and to no other. */
  lemma {:induction false} GroupSizesSnoc(issues: seq<Value>, x: Value, keys: seq<string>)
    requires Groupable(issues + [x]) && Distinct(keys)
    ensures Groupable(issues)
    ensures GroupSizes(issues + [x], keys) == GroupSizes(issues, keys) + (if FileKey(x) in keys then 1 else 0)
    decreases |keys|
  {
    assert forall y :: y in issues ==> y in issues + [x];
    var s := issues + [x];
    assert s[..|s| - 1] == issues;
    if keys != [] {
      assert Distinct(keys[1..]) by {
        forall i, j | 0 <= i < j < |keys[1..]| ensures keys[1..][i] != keys[1..][j] {
          assert keys[1..][i] == keys[i + 1] && keys[1..][j] == keys[j + 1];
        }
      }
      GroupSizesSnoc(issues, x, keys[1..]);
      if FileKey(x) == keys[0] {
        assert FileKey(x) !in keys[1..] by {
          forall m | 0 <= m < |keys[1..]| ensures keys[1..][m] != keys[0] {
            assert keys[1..][m] == keys[m + 1];
          }
        }
      } else {
        assert FileKey(x) in keys <==> FileKey(x) in keys[1..];
      }
    }
  }

  lemma {:induction false} GroupSizesTotal(issues: seq<Value>)
    requires Groupable(issues)
    ensures GroupSizes(issues, FirstOccurrence(issues)) == |issues|
    decreases |issues|
  {
    if issues != [] {
      var init := issues[..|issues| - 1];
      var x := issues[|issues| - 1];
      assert issues == init + [x];
      GroupSizesTotal(init);
      FirstOccurrenceKeys(init);
      var prev := FirstOccurrence(init);
      GroupSizesSnoc(init, x, prev);
      if FileKey(x) !in prev {
        GroupSizesConcat(issues, prev, [FileKey(x)]);
        MembersProps(init, FileKey(x));
      }
    }
  }

  /** `groupIssuesByFile` puts every issue in exactly one file record: the
      records have distinct names, the name of every issue's file is among
      them, every record holds only issues of its own file, taken from the
      input, and the record sizes add up to the number of issues. The records
      follow the `Object.entries` order of the names, which is first-occurrence
      order when no name is an array index. */
  lemma GroupIssuesPartition(issues: seq<Value>)
    requires Groupable(issues)
    ensures var keys := ObjectKeyOrder(FirstOccurrence(issues));
      && Distinct(keys)
      && (forall p :: 0 <= p < |issues| ==> FileKey(issues[p]) in keys)
      && (forall k :: k in keys ==> HasFile(issues, k))
      && (forall k, x :: k in keys && x in Members(issues, k) ==> x in issues && FileKey(x) == k)
      && GroupSizes(issues, keys) == |issues|
    ensures (forall p :: 0 <= p < |issues| ==> !IsIndexKey(FileKey(issues[p]))) ==>
      ObjectKeyOrder(FirstOccurrence(issues)) == FirstOccurrence(issues)
  {
    var order := FirstOccurrence(issues);
    FirstOccurrenceKeys(issues);
    ObjectKeyOrderProps(order);
    forall p | 0 <= p < |issues| ensures FileKey(issues[p]) in order {
      assert HasFile(issues, FileKey(issues[p]));
    }
    forall k | k in order ensures forall x :: x in Members(issues, k) ==> x in issues && FileKey(x) == k {
      MembersProps(issues, k);
    }
    GroupSizesTotal(issues);
    GroupSizesSplit(issues, order);
    GroupSizesSort(issues, KeysWhere(order, true));
    GroupSizesConcat(issues, SortByValue(KeysWhere(order, true)), KeysWhere(order, false));
    if forall p :: 0 <= p < |issues| ==> !IsIndexKey(FileKey(issues[p])) {
      forall k | k in order ensures !IsIndexKey(k) {
        var p :| 0 <= p < |issues| && FileKey(issues[p]) == k;
      }
    }
  }

  lemma FileRecordFields(name: string, issues: seq<Value>)
    ensures Get(FileRecord(name, issues), "fileName") == Str(name)
    ensures Get(FileRecord(name, issues), "issues") == Arr(issues)
    ensures Get(FileRecord(name, issues), "score") == Num(FileScore(issues))
    ensures Get(FileRecord(name, issues), "language") == Str(GuessLanguageFromFileName(name))
  {
    RecordFields(Str(name), Arr(issues), Num(FileScore(issues)), Str(GuessLanguageFromFileName(name)));
  }

  /** The four properties of a `{fileName, issues, score, language}` record
      read back as stored. */
  lemma RecordFields(name: Value, issues: Value, score: Value, language: Value)
    ensures var r := Obj([("fileName", name), ("issues", issues), ("score", score), ("language", language)]);
      Get(r, "fileName") == name && Get(r, "issues") == issues && Get(r, "score") == score && Get(r, "language") == language
  {
    var e := [("fileName", name), ("issues", issues), ("score", score), ("language", language)];
    assert "fileName" != "issues" && "fileName" != "score" && "issues" != "score";
    assert "fileName" != "language" && "issues" != "language" && "score" != "language";
    LookupAt(e, 1);
    LookupAt(e, 2);
    LookupAt(e, 3);
  }

  /** Each record is named after its file and holds that file's issues, the
      score `calculateFileScore` gives them and the language guessed from the
      name. */
  lemma GroupRecords(issues: seq<Value>, i: nat)
    requires Groupable(issues) && i < |GroupIssues(issues)|
    ensures var key := ObjectKeyOrder(FirstOccurrence(issues))[i];
      && Get(GroupIssues(issues)[i], "fileName") == Str(key)
      && Get(GroupIssues(issues)[i], "issues") == Arr(Members(issues, key))
      && Get(GroupIssues(issues)[i], "score") == Num(FileScore(Members(issues, key)))
      && Get(GroupIssues(issues)[i], "language") == Str(GuessLanguageFromFileName(key))
  {
    var key := ObjectKeyOrder(FirstOccurrence(issues))[i];
    FileRecordFields(key, Members(issues, key));
  }

  /** With at least one issue there is at least one record. */
  lemma GroupIssuesNonEmpty(issues: seq<Value>)
    requires Groupable(issues) && |issues| > 0
    ensures |GroupIssues(issues)| > 0
  {
    FirstOccurrenceKeys(issues);
    var order := FirstOccurrence(issues);
    assert HasFile(issues, FileKey(issues[0]));
    ObjectKeyOrderProps(order);
    assert FileKey(issues[0]) in ObjectKeyOrder(order);
  }
}
