/** JavaScript values as the result-ingestion code sees them: the JSON a backend
    returns, plus `undefined` for a property that is not there. Objects keep
    their entries in insertion order, as `Object.keys`/`Object.entries` list
    them for keys that are not array indices. */
module JsValue {

  datatype Option<T> = None | Some(value: T)

  datatype Value =
    | Undefined
    | Null
    | Bool(b: bool)
    | Num(n: int)
    | Str(s: string)
    | Arr(items: seq<Value>)
    | Obj(entries: seq<(string, Value)>)

  /** JavaScript truthiness: `false`, `0`, `''`, `null` and `undefined` are falsy. */
  predicate Truthy(v: Value) {
    match v
    case Undefined => false
    case Null => false
    case Bool(b) => b
    case Num(n) => n != 0
    case Str(s) => s != []
    case Arr(_) => true
    case Obj(_) => true
  }

  predicate Nullish(v: Value) {
    v.Undefined? || v.Null?
  }

  /** `typeof v === 'object'` (true for `null`, arrays and objects). */
  predicate IsObjectLike(v: Value) {
    v.Null? || v.Arr? || v.Obj?
  }

  /** `a || b` */
  function Or(a: Value, b: Value): Value {
    if Truthy(a) then a else b
  }

  /** Whether some entry is named `key`. */
  predicate HasKey(entries: seq<(string, Value)>, key: string) {
    exists m :: 0 <= m < |entries| && entries[m].0 == key
  }

  /** No two entries share a name, as in any JavaScript object. */
  predicate DistinctKeys(entries: seq<(string, Value)>) {
    forall i, j :: 0 <= i < j < |entries| ==> entries[i].0 != entries[j].0
  }

  /** Value of the first entry named `key`, or `undefined`. */
  function Lookup(entries: seq<(string, Value)>, key: string): (r: Value)
    ensures r != Undefined ==> (key, r) in entries
    ensures !HasKey(entries, key) ==> r == Undefined
  {
    if entries == [] then Undefined
    else if entries[0].0 == key then entries[0].1
    else
      assert !HasKey(entries, key) ==> !HasKey(entries[1..], key) by {
        if HasKey(entries[1..], key) {
          var m :| 0 <= m < |entries[1..]| && entries[1..][m].0 == key;
          assert entries[m + 1].0 == key;
        }
      }
      Lookup(entries[1..], key)
  }

  /** `v.key` on a value that is not null or undefined (the caller checks that). */
  function Get(v: Value, key: string): Value {
    if v.Obj? then Lookup(v.entries, key) else Undefined
  }

  /** `obj[key] = value`: an existing key keeps its position, a new one is appended. */
  function Put(entries: seq<(string, Value)>, key: string, value: Value): seq<(string, Value)>
  {
    if entries == [] then [(key, value)]
    else if entries[0].0 == key then [(key, value)] + entries[1..]
    else [entries[0]] + Put(entries[1..], key, value)
  }

  /** `{...target, ...source}` for the own entries `source` of the spread value. */
  function Assign(target: seq<(string, Value)>, source: seq<(string, Value)>): seq<(string, Value)>
    decreases |source|
  {
    if source == [] then target
    else Assign(Put(target, source[0].0, source[0].1), source[1..])
  }

  /** The entry at `j` is what a read of its name finds when no earlier entry
      has that name. */
  lemma {:induction false} LookupAt(entries: seq<(string, Value)>, j: nat)
    requires j < |entries|
    requires forall m :: 0 <= m < j ==> entries[m].0 != entries[j].0
    ensures Lookup(entries, entries[j].0) == entries[j].1
    decreases j
  {
    if j > 0 {
      LookupAt(entries[1..], j - 1);
    }
  }

  lemma HasKeyTail(entries: seq<(string, Value)>, key: string)
    requires entries != [] && entries[0].0 != key
    ensures HasKey(entries, key) == HasKey(entries[1..], key)
  {
    if HasKey(entries, key) {
      var m :| 0 <= m < |entries| && entries[m].0 == key;
      assert entries[1..][m - 1].0 == key;
    }
    if HasKey(entries[1..], key) {
      var m :| 0 <= m < |entries[1..]| && entries[1..][m].0 == key;
      assert entries[m + 1].0 == key;
    }
  }

  /** `Put` keeps every entry's name and place, and adds `key` at the end
      exactly when it was missing. */
  lemma PutShape(entries: seq<(string, Value)>, key: string, value: Value)
    ensures |Put(entries, key, value)| == (if HasKey(entries, key) then |entries| else |entries| + 1)
    ensures forall m :: 0 <= m < |entries| ==> Put(entries, key, value)[m].0 == entries[m].0
    ensures !HasKey(entries, key) ==> Put(entries, key, value) == entries + [(key, value)]
    ensures HasKey(Put(entries, key, value), key)
  {
    PutNames(entries, key, value);
    if !HasKey(entries, key) {
      PutMissing(entries, key, value);
    }
    PutHasKey(entries, key, value);
  }

  lemma {:induction false} PutNames(entries: seq<(string, Value)>, key: string, value: Value)
    ensures |Put(entries, key, value)| == (if HasKey(entries, key) then |entries| else |entries| + 1)
    ensures forall m :: 0 <= m < |entries| ==> Put(entries, key, value)[m].0 == entries[m].0
    decreases |entries|
  {
    if entries != [] {
      if entries[0].0 == key {
        assert HasKey(entries, key) by { assert entries[0].0 == key; }
      } else {
        HasKeyTail(entries, key);
        PutNames(entries[1..], key, value);
        var q := Put(entries[1..], key, value);
        assert Put(entries, key, value) == [entries[0]] + q;
        forall m | 0 < m < |entries|
          ensures Put(entries, key, value)[m].0 == entries[m].0
        {
          assert entries[m] == entries[1..][m - 1];
        }
      }
    }
  }

  lemma {:induction false} PutMissing(entries: seq<(string, Value)>, key: string, value: Value)
    requires !HasKey(entries, key)
    ensures Put(entries, key, value) == entries + [(key, value)]
    decreases |entries|
  {
    if entries != [] {
      assert entries[0].0 != key;
      HasKeyTail(entries, key);
      PutMissing(entries[1..], key, value);
      assert entries == [entries[0]] + entries[1..];
    }
  }

  lemma {:induction false} PutHasKey(entries: seq<(string, Value)>, key: string, value: Value)
    ensures HasKey(Put(entries, key, value), key)
    decreases |entries|
  {
    var p := Put(entries, key, value);
    if entries == [] || entries[0].0 == key {
      assert p[0].0 == key;
    } else {
      PutHasKey(entries[1..], key, value);
      var q := Put(entries[1..], key, value);
      var m :| 0 <= m < |q| && q[m].0 == key;
      assert p[m + 1] == q[m];
    }
  }

  /** Every entry after `Put` is an old entry or the new one. */
  lemma {:induction false} PutEntries(entries: seq<(string, Value)>, key: string, value: Value)
    ensures forall e :: e in Put(entries, key, value) ==> e in entries || e == (key, value)
    decreases |entries|
  {
    if entries != [] && entries[0].0 != key {
      PutEntries(entries[1..], key, value);
    }
  }

  /** Reading back after `Put`: the written key yields the new value, any other
      key what it held before. */
  lemma {:induction false} LookupPut(entries: seq<(string, Value)>, key: string, value: Value, other: string)
    ensures Lookup(Put(entries, key, value), other) == if other == key then value else Lookup(entries, other)
    decreases |entries|
  {
    if entries != [] && entries[0].0 != key {
      LookupPut(entries[1..], key, value, other);
    }
  }

  /** Writing back the value a present key already holds changes nothing. */
  lemma {:induction false} PutLookup(entries: seq<(string, Value)>, key: string)
    requires HasKey(entries, key)
    ensures Put(entries, key, Lookup(entries, key)) == entries
    decreases |entries|
  {
    if entries[0].0 != key {
      HasKeyTail(entries, key);
      PutLookup(entries[1..], key);
    }
  }

  lemma PutDistinct(entries: seq<(string, Value)>, key: string, value: Value)
    requires DistinctKeys(entries)
    ensures DistinctKeys(Put(entries, key, value))
  {
    PutShape(entries, key, value);
  }

  /** `Put` on a key whose first occurrence is at `j` replaces entry `j`. */
  lemma {:induction false} PutAt(entries: seq<(string, Value)>, j: nat, value: Value)
    requires j < |entries|
    requires forall m :: 0 <= m < j ==> entries[m].0 != entries[j].0
    ensures Put(entries, entries[j].0, value) == entries[..j] + [(entries[j].0, value)] + entries[j + 1..]
    decreases j
  {
    if j > 0 {
      PutAt(entries[1..], j - 1, value);
      assert entries[1..][..j - 1] == entries[1..j];
      assert entries[1..][j..] == entries[j + 1..];
      assert entries[..j] == [entries[0]] + entries[1..j];
    }
  }

  /** Every entry after `Assign` comes from the target or the source. */
  lemma {:induction false} AssignEntries(target: seq<(string, Value)>, source: seq<(string, Value)>)
    ensures forall e :: e in Assign(target, source) ==> e in target || e in source
    decreases |source|
  {
    if source != [] {
      PutEntries(target, source[0].0, source[0].1);
      AssignEntries(Put(target, source[0].0, source[0].1), source[1..]);
    }
  }

  /** `Assign` keeps the target's entries in their places (by name) and keeps
      names distinct. */
  lemma {:induction false} AssignShape(target: seq<(string, Value)>, source: seq<(string, Value)>)
    ensures |Assign(target, source)| >= |target|
    ensures forall m :: 0 <= m < |target| ==> Assign(target, source)[m].0 == target[m].0
    ensures DistinctKeys(target) ==> DistinctKeys(Assign(target, source))
    decreases |source|
  {
    if source != [] {
      var t := Put(target, source[0].0, source[0].1);
      PutShape(target, source[0].0, source[0].1);
      if DistinctKeys(target) {
        PutDistinct(target, source[0].0, source[0].1);
      }
      AssignShape(t, source[1..]);
    }
  }

  /** Spreading an object with distinct names over a target that lists its
      first names in the same order reproduces the object. */
  lemma AssignOwnPrefix(target: seq<(string, Value)>, source: seq<(string, Value)>)
    requires DistinctKeys(source) && |target| <= |source|
    requires forall m :: 0 <= m < |target| ==> target[m].0 == source[m].0
    ensures Assign(target, source) == source
  {
    AssignFrom(source, target, 0);
    assert source[..0] + target[0..] == target;
    assert source[0..] == source;
  }

  lemma {:induction false} AssignFrom(source: seq<(string, Value)>, target: seq<(string, Value)>, i: nat)
    requires DistinctKeys(source) && |target| <= |source| && i <= |source|
    requires forall m :: 0 <= m < |target| ==> target[m].0 == source[m].0
    ensures Assign(if i <= |target| then source[..i] + target[i..] else source[..i], source[i..]) == source
    decreases |source| - i
  {
    var a := if i <= |target| then source[..i] + target[i..] else source[..i];
    if i == |source| {
      assert a == source;
    } else {
      var k := source[i].0;
      assert source[i..][0] == source[i] && source[i..][1..] == source[i + 1..];
      var a' := if i + 1 <= |target| then source[..i + 1] + target[i + 1..] else source[..i + 1];
      if i < |target| {
        assert a[i].0 == k;
        assert forall m :: 0 <= m < i ==> a[m].0 != a[i].0;
        PutAt(a, i, source[i].1);
        assert a[..i] == source[..i];
        assert a[i + 1..] == target[i + 1..];
        assert source[..i + 1] == source[..i] + [source[i]];
      } else {
        assert forall m :: 0 <= m < |a| ==> a[m].0 != k by {
          forall m | 0 <= m < |a| ensures a[m].0 != k {
            assert a[m] == source[m];
          }
        }
        PutShape(a, k, source[i].1);
        assert source[..i + 1] == source[..i] + [source[i]];
      }
      assert Put(a, k, source[i].1) == a';
      AssignFrom(source, target, i + 1);
    }
  }

  function DigitChar(d: nat): char
    requires d < 10
  {
    "0123456789"[d]
  }

  /** `String(n)` for a natural number. */
  function NatToString(n: nat): (r: string)
    ensures |r| >= 1
    ensures forall c :: c in r ==> '0' <= c <= '9'
  {
    if n < 10 then [DigitChar(n)] else NatToString(n / 10) + [DigitChar(n % 10)]
  }

  /** `String(n)` for an integer. */
  function IntToString(n: int): (r: string)
    ensures |r| >= 1
  {
    if n < 0 then "-" + NatToString(-n) else NatToString(n)
  }

  /** `String(v)`, the name a value becomes when it is used as a property
      key: an array is the comma-joined text of its elements (`null` and
      `undefined` elements print as nothing), any object is `[object Object]`. */
  function ToText(v: Value): string
    decreases v
  {
    match v
    case Undefined => "undefined"
    case Null => "null"
    case Bool(b) => if b then "true" else "false"
    case Num(n) => IntToString(n)
    case Str(s) => s
    case Arr(items) => Join(seq(|items|, i requires 0 <= i < |items| => if Nullish(items[i]) then "" else ToText(items[i])))
    case Obj(_) => "[object Object]"
  }

  /** `parts.join(',')` */
  function Join(parts: seq<string>): string {
    if parts == [] then "" else if |parts| == 1 then parts[0] else parts[0] + "," + Join(parts[1..])
  }

  /** The entries an object spread `{...v}` copies: an object's own entries, the
      characters of a string or the elements of an array under their indices,
      and nothing for other values. */
  function OwnEntries(v: Value): (r: seq<(string, Value)>)
    ensures forall e :: e in r && e.0 !in IndexKeys(v) ==> v.Obj? && e in v.entries
  {
    match v
    case Obj(entries) => entries
    case Str(s) =>
      var r := seq(|s|, i requires 0 <= i < |s| => (NatToString(i), Str([s[i]])));
      assert forall e :: e in r ==> e.0 in IndexKeys(v) by {
        forall e | e in r ensures e.0 in IndexKeys(v) {
          var i :| 0 <= i < |s| && r[i] == e;
        }
      }
      r
    case Arr(items) =>
      var r := seq(|items|, i requires 0 <= i < |items| => (NatToString(i), items[i]));
      assert forall e :: e in r ==> e.0 in IndexKeys(v) by {
        forall e | e in r ensures e.0 in IndexKeys(v) {
          var i :| 0 <= i < |items| && r[i] == e;
        }
      }
      r
    case _ => []
  }

  /** The index keys "0", "1", ... of a string or an array. */
  ghost function IndexKeys(v: Value): set<string> {
    match v
    case Str(s) => set i | 0 <= i < |s| :: NatToString(i)
    case Arr(items) => set i | 0 <= i < |items| :: NatToString(i)
    case _ => {}
  }

  /** The elements an array spread `[...v]` yields, for an array or a string. */
  function IterItems(v: Value): seq<Value>
    requires v.Arr? || v.Str?
  {
    if v.Arr? then v.items else seq(|v.s|, i requires 0 <= i < |v.s| => Str([v.s[i]]))
  }

  // ---------------------------------------------------------------------------
  // Text helpers: String.prototype.startsWith / endsWith / includes / split.

  predicate StartsWith(s: string, prefix: string) {
    |prefix| <= |s| && s[..|prefix|] == prefix
  }

  predicate EndsWith(s: string, suffix: string) {
    |suffix| <= |s| && s[|s| - |suffix|..] == suffix
  }

  /** `s.includes(t)` */
  predicate Contains(s: string, t: string)
    decreases |s|
  {
    StartsWith(s, t) || (|s| > 0 && Contains(s[1..], t))
  }

  lemma {:induction false} ContainsAt(s: string, t: string, i: nat)
    requires i + |t| <= |s| && s[i..i + |t|] == t
    ensures Contains(s, t)
    decreases i
  {
    if i == 0 {
      assert s[..|t|] == t;
    } else {
      assert s[1..][i - 1..i - 1 + |t|] == s[i..i + |t|];
      ContainsAt(s[1..], t, i - 1);
    }
  }

  lemma {:induction false} PrefixContains(s: string, t: string)
    requires StartsWith(s, t)
    ensures Contains(s, t)
  {
  }

  /** A string that holds the first character of `t` nowhere does not contain `t`. */
  lemma {:induction false} NotContainsByFirstChar(s: string, t: string)
    requires |t| > 0 && t[0] !in s
    ensures !Contains(s, t)
    decreases |s|
  {
    if |s| > 0 {
      assert s[0] != t[0];
      assert s[1..] <= s[1..] && forall c :: c in s[1..] ==> c in s;
      NotContainsByFirstChar(s[1..], t);
    }
  }

  /** Where `s.includes(t)` finds `t`. */
  lemma {:induction false} ContainsIndex(s: string, t: string) returns (i: nat)
    requires Contains(s, t)
    ensures i + |t| <= |s| && s[i..i + |t|] == t
    decreases |s|
  {
    if StartsWith(s, t) {
      i := 0;
    } else {
      var k := ContainsIndex(s[1..], t);
      assert s[1..][k..k + |t|] == s[k + 1..k + 1 + |t|];
      i := k + 1;
    }
  }

  /** `includes` is transitive: a string containing `u` contains every
      substring of `u`. */
  lemma ContainsTrans(s: string, u: string, t: string)
    requires Contains(s, u) && Contains(u, t)
    ensures Contains(s, t)
  {
    var i := ContainsIndex(s, u);
    var j := ContainsIndex(u, t);
    forall k | 0 <= k < |t|
      ensures s[i + j + k] == t[k]
    {
      assert s[i..i + |u|][j + k] == s[i + j + k];
      assert u[j..j + |t|][k] == u[j + k];
    }
    assert s[i + j..i + j + |t|] == t;
    ContainsAt(s, t, i + j);
  }

  /** A string that contains `t` is at least as long as `t`. */
  lemma {:induction false} ContainsLength(s: string, t: string)
    requires Contains(s, t)
    ensures |t| <= |s|
    decreases |s|
  {
    if !StartsWith(s, t) {
      ContainsLength(s[1..], t);
    }
  }

  /** The empty string contains no non-empty word. */
  lemma EmptyContainsNothing(w: string)
    requires w != ""
    ensures !Contains("", w)
  {
  }

  /** The characters `String.prototype.trim` removes: the white space
      characters (tab, vertical tab, form feed, the byte-order mark and the
      space separators of Unicode category Zs) and the line terminators. */
  predicate IsSpace(c: char) {
    || c == '\t' || c == '\U{0B}' || c == '\U{0C}' || c == '\U{FEFF}'
    || c == ' ' || c == '\U{A0}' || c == '\U{1680}' || '\U{2000}' <= c <= '\U{200A}'
    || c == '\U{202F}' || c == '\U{205F}' || c == '\U{3000}'
    || c == '\n' || c == '\r' || c == '\U{2028}' || c == '\U{2029}'
  }

  /** `s.trim() === ''` */
  predicate Blank(s: string) {
    forall i :: 0 <= i < |s| ==> IsSpace(s[i])
  }

  function LowerChar(c: char): char {
    if 'A' <= c <= 'Z' then (c as int + 32) as char else c
  }

  /** `s.toLowerCase()` on ASCII letters. */
  function ToLower(s: string): (r: string)
    ensures |r| == |s|
    ensures forall i :: 0 <= i < |s| ==> r[i] == LowerChar(s[i])
  {
    seq(|s|, i requires 0 <= i < |s| => LowerChar(s[i]))
  }

  /** `s.split(sep)` for a one-character separator. */
  function Split(s: string, sep: char): (r: seq<string>)
    ensures |r| >= 1
    decreases |s|
  {
    if s == [] then [""]
    else
      var rest := Split(s[1..], sep);
      if s[0] == sep then [""] + rest
      else [[s[0]] + rest[0]] + rest[1..]
  }

  function CountChar(s: string, c: char): nat
    decreases |s|
  {
    if s == [] then 0 else (if s[0] == c then 1 else 0) + CountChar(s[1..], c)
  }

  /** `s.split(sep)` has one more piece than `s` has separators. */
  lemma {:induction false} SplitPieces(s: string, sep: char)
    ensures |Split(s, sep)| == CountChar(s, sep) + 1
    decreases |s|
  {
    if s != [] {
      SplitPieces(s[1..], sep);
    }
  }

  /** `s.split(sep).pop()`: the text after the last separator. */
  function LastSegment(s: string, sep: char): string {
    var pieces := Split(s, sep);
    pieces[|pieces| - 1]
  }

  /** The piece after the last separator is the tail that holds no separator. */
  lemma {:induction false} LastSegmentOfJoin(prefix: string, sep: char, tail: string)
    requires sep !in tail
    ensures LastSegment(prefix + [sep] + tail, sep) == tail
    decreases |prefix|
  {
    if prefix == [] {
      var s := [sep] + tail;
      assert s[1..] == tail;
      NoSeparatorSplit(tail, sep);
    } else {
      var s := prefix + [sep] + tail;
      assert s[1..] == prefix[1..] + [sep] + tail;
      LastSegmentOfJoin(prefix[1..], sep, tail);
      var rest := Split(s[1..], sep);
      SplitPiecesLastNonFirst(prefix[1..], sep, tail);
      assert |rest| >= 2;
    }
  }

  lemma {:induction false} NoSeparatorSplit(s: string, sep: char)
    requires sep !in s
    ensures Split(s, sep) == [s]
    decreases |s|
  {
    if s != [] {
      assert sep !in s[1..] by {
        forall c | c in s[1..] ensures c in s { }
      }
      NoSeparatorSplit(s[1..], sep);
      assert s == [s[0]] + s[1..];
    }
  }

  lemma {:induction false} SplitPiecesLastNonFirst(prefix: string, sep: char, tail: string)
    ensures |Split(prefix + [sep] + tail, sep)| >= 2
    decreases |prefix|
  {
    var s := prefix + [sep] + tail;
    if prefix == [] {
      assert s[0] == sep;
    } else {
      assert s[1..] == prefix[1..] + [sep] + tail;
      SplitPiecesLastNonFirst(prefix[1..], sep, tail);
    }
  }
}
