/** `cleanupData.js`: removing test data from the key store while sparing
    the keys that hold the AI model settings. */
module Cleanup {
  import opened JsValue
  import opened KeyStore

  const ProtectedKeys: seq<string> :=
    ["aiModels", "aiModelsSettings", "aiModelsBackup", "aiModelsMinimal", "defaultAiModel", "aiModels_last_saved"]

  /** `isProtectedKey` */
  predicate IsProtectedKey(key: string) {
    && key != ""
    && (|| key in ProtectedKeys
        || EndsWith(key, "_api_key")
        || StartsWith(key, "model_")
        || Contains(key, "aiModel") || Contains(key, "AIModel")
        || Contains(key, "deepseek") || Contains(key, "Deepseek"))
  }

  /** Which of the three cleanup loops is running. */
  datatype Sweep = AnalysisSweep | RuleSweep | TestSweep

  /** The keys a loop looks at before the protection test. */
  predicate Targeted(s: Sweep, key: string) {
    key != "" &&
    match s
    case AnalysisSweep =>
      StartsWith(key, "analysis_") || Contains(key, "analysis") || key == "analysisResults"
      || key == "current_analysis_task" || key == "db_rule_count"
    case RuleSweep =>
      StartsWith(key, "rule_") || Contains(key, "rule") || key == "rules" || key == "analysis_rules_config"
    case TestSweep =>
      StartsWith(key, "test_") || StartsWith(key, "demo_") || StartsWith(key, "temp_") || StartsWith(key, "mock_")
  }

  /** The keys a loop removes. */
  predicate Doomed(s: Sweep, key: string) {
    Targeted(s, key) && !IsProtectedKey(key)
  }

  /** `Doomed` as the test a loop applies to each key. */
  function DoomedBy(s: Sweep): string -> bool {
    k => Doomed(s, k)
  }

  /** The keys a loop leaves, in their order. */
  function Kept(keys: seq<string>, doomed: string -> bool): (r: seq<string>)
    ensures forall k :: k in r <==> k in keys && !doomed(k)
    ensures |r| <= |keys|
  {
    if keys == [] then [] else (if doomed(keys[0]) then [] else [keys[0]]) + Kept(keys[1..], doomed)
  }

  /** How many of `keys` a loop removes. */
  function DoomedCount(keys: seq<string>, doomed: string -> bool): nat {
    if keys == [] then 0 else (if doomed(keys[0]) then 1 else 0) + DoomedCount(keys[1..], doomed)
  }

  /** What is left of the values: those of the keys that stay. */
  function KeptData<V>(data: map<string, V>, doomed: string -> bool): map<string, V> {
    map k | k in data && !doomed(k) :: data[k]
  }

  /** One cleanup loop: walk the keys from the last index down, removing
      each doomed key; removing the key at index `i` leaves the indices
      below it as they were, so every key is visited once. */
  method RemoveDoomed<V>(store: Store<V>, doomed: string -> bool) returns (removed: nat)
    requires store.Valid()
    modifies store
    ensures store.Valid()
    ensures store.keys == Kept(old(store.keys), doomed)
    ensures store.data == KeptData(old(store.data), doomed)
    ensures removed == DoomedCount(old(store.keys), doomed)
  {
    ghost var keys0 := store.keys;
    ghost var data0 := store.data;
    RestrictAll(data0, keys0);
    assert keys0[|keys0|..] == [];
    assert Swept(keys0, |keys0|, doomed) == keys0;
    removed := 0;
    var i := |store.keys|;
    while i > 0
      invariant 0 <= i <= |keys0|
      invariant store.Valid()
      invariant store.keys == Swept(keys0, i, doomed)
      invariant store.data == Restrict(data0, store.keys)
      invariant removed == DoomedCount(keys0[i..], doomed)
    {
      i := i - 1;
      SweptAt(keys0, i, doomed);
      KeptStep(keys0, i, doomed);
      var key := store.keys[i];
      if doomed(key) {
        SweptDoomed(keys0, i, doomed);
        RestrictRemoveAt(data0, store.keys, i);
        store.RemoveAt(i);
        removed := removed + 1;
      } else {
        SweptKept(keys0, i, doomed);
      }
    }
    assert keys0[0..] == keys0;
    RestrictKept(data0, keys0, doomed);
  }

  /** The keys after the loop has visited the indices from `i` up. */
  function Swept(keys: seq<string>, i: nat, doomed: string -> bool): seq<string>
    requires i <= |keys|
  {
    keys[..i] + Kept(keys[i..], doomed)
  }

  /** Visiting index `i` finds there the key of index `i` before the loop,
      removes it when it is doomed and leaves the list as it is otherwise. */
  lemma SweptAt(keys: seq<string>, i: nat, doomed: string -> bool)
    requires i < |keys|
    ensures i < |Swept(keys, i + 1, doomed)| && Swept(keys, i + 1, doomed)[i] == keys[i]
  {
    SweptSplit(keys, i, Kept(keys[i + 1..], doomed));
  }

  lemma SweptDoomed(keys: seq<string>, i: nat, doomed: string -> bool)
    requires i < |keys| && doomed(keys[i])
    ensures i < |Swept(keys, i + 1, doomed)|
    ensures Swept(keys, i, doomed) == Swept(keys, i + 1, doomed)[..i] + Swept(keys, i + 1, doomed)[i + 1..]
  {
    KeptStep(keys, i, doomed);
    SweptSplit(keys, i, Kept(keys[i + 1..], doomed));
  }

  lemma SweptKept(keys: seq<string>, i: nat, doomed: string -> bool)
    requires i < |keys| && !doomed(keys[i])
    ensures Swept(keys, i, doomed) == Swept(keys, i + 1, doomed)
  {
    KeptStep(keys, i, doomed);
    SweptSplit(keys, i, Kept(keys[i + 1..], doomed));
  }

  lemma SweptSplit(keys: seq<string>, i: nat, tail: seq<string>)
    requires i < |keys|
    ensures keys[..i + 1] + tail == keys[..i] + [keys[i]] + tail
    ensures (keys[..i + 1] + tail)[i] == keys[i]
    ensures (keys[..i + 1] + tail)[..i] + (keys[..i + 1] + tail)[i + 1..] == keys[..i] + tail
  {
    assert keys[..i + 1] == keys[..i] + [keys[i]];
    var after := keys[..i + 1] + tail;
    assert after[..i] == keys[..i];
    assert after[i + 1..] == tail;
  }

  lemma KeptStep(keys: seq<string>, i: nat, doomed: string -> bool)
    requires i < |keys|
    ensures Kept(keys[i..], doomed) == (if doomed(keys[i]) then [] else [keys[i]]) + Kept(keys[i + 1..], doomed)
    ensures DoomedCount(keys[i..], doomed) == (if doomed(keys[i]) then 1 else 0) + DoomedCount(keys[i + 1..], doomed)
  {
    assert keys[i..][1..] == keys[i + 1..];
  }

  /** The values of `data` whose keys are listed in `keys`. */
  function Restrict<V>(data: map<string, V>, keys: seq<string>): map<string, V> {
    map k | k in data && k in keys :: data[k]
  }

  lemma RestrictAll<V>(data: map<string, V>, keys: seq<string>)
    requires forall k :: k in data <==> k in keys
    ensures Restrict(data, keys) == data
  {
  }

  lemma RestrictRemoveAt<V>(data: map<string, V>, keys: seq<string>, i: nat)
    requires Distinct(keys) && i < |keys|
    ensures Restrict(data, keys[..i] + keys[i + 1..]) == Restrict(data, keys) - {keys[i]}
  {
    WithoutAt(keys, i);
  }

  lemma RestrictKept<V>(data: map<string, V>, keys: seq<string>, doomed: string -> bool)
    requires forall k :: k in data <==> k in keys
    ensures Restrict(data, Kept(keys, doomed)) == KeptData(data, doomed)
  {
  }

  /** `cleanupAnalysisData` */
  method CleanupAnalysisData<V>(store: Store<V>) returns (removedItems: nat)
    requires store.Valid()
    modifies store
    ensures store.Valid()
    ensures store.keys == Kept(old(store.keys), DoomedBy(AnalysisSweep))
    ensures store.data == KeptData(old(store.data), DoomedBy(AnalysisSweep))
    ensures removedItems == DoomedCount(old(store.keys), DoomedBy(AnalysisSweep))
  {
    removedItems := RemoveDoomed(store, DoomedBy(AnalysisSweep));
  }

  /** `cleanupRuleData` */
  method CleanupRuleData<V>(store: Store<V>) returns (removedItems: nat)
    requires store.Valid()
    modifies store
    ensures store.Valid()
    ensures store.keys == Kept(old(store.keys), DoomedBy(RuleSweep))
    ensures store.data == KeptData(old(store.data), DoomedBy(RuleSweep))
    ensures removedItems == DoomedCount(old(store.keys), DoomedBy(RuleSweep))
  {
    removedItems := RemoveDoomed(store, DoomedBy(RuleSweep));
  }

  datatype CleanupCounts = CleanupCounts(analysisItems: nat, ruleItems: nat, otherItems: nat, total: nat)

  /** `cleanupAllTestData`: the two cleanups above, then the test-prefix
      loop; the final listing of protected keys only logs. */
  method CleanupAllTestData<V>(store: Store<V>) returns (counts: CleanupCounts)
    requires store.Valid()
    modifies store
    ensures store.Valid()
    ensures store.keys == Kept(Kept(Kept(old(store.keys), DoomedBy(AnalysisSweep)), DoomedBy(RuleSweep)), DoomedBy(TestSweep))
    ensures store.data == KeptData(KeptData(KeptData(old(store.data), DoomedBy(AnalysisSweep)), DoomedBy(RuleSweep)), DoomedBy(TestSweep))
    ensures counts.analysisItems == DoomedCount(old(store.keys), DoomedBy(AnalysisSweep))
    ensures counts.ruleItems == DoomedCount(Kept(old(store.keys), DoomedBy(AnalysisSweep)), DoomedBy(RuleSweep))
    ensures counts.otherItems == DoomedCount(Kept(Kept(old(store.keys), DoomedBy(AnalysisSweep)), DoomedBy(RuleSweep)), DoomedBy(TestSweep))
    ensures counts.total == counts.analysisItems + counts.ruleItems + counts.otherItems
    ensures counts.total == |old(store.keys)| - |store.keys|
  {
    ghost var keys0 := store.keys;
    var analysisItems := CleanupAnalysisData(store);
    ghost var keys1 := store.keys;
    var ruleItems := CleanupRuleData(store);
    ghost var keys2 := store.keys;
    var otherItems := RemoveDoomed(store, DoomedBy(TestSweep));
    KeptCount(keys0, DoomedBy(AnalysisSweep));
    KeptCount(keys1, DoomedBy(RuleSweep));
    KeptCount(keys2, DoomedBy(TestSweep));
    counts := CleanupCounts(analysisItems, ruleItems, otherItems, analysisItems + ruleItems + otherItems);
  }

  // ---------------------------------------------------------------------------

  /** The count a loop returns is the number of keys it removed. */
  lemma {:induction false} KeptCount(keys: seq<string>, doomed: string -> bool)
    ensures |Kept(keys, doomed)| + DoomedCount(keys, doomed) == |keys|
  {
    if keys != [] {
      KeptCount(keys[1..], doomed);
    }
  }

  /** A loop keeps the order of the keys it leaves: what is left of two
      runs of keys is what is left of the first followed by what is left of
      the second. */
  lemma {:induction false} KeptAppend(a: seq<string>, b: seq<string>, doomed: string -> bool)
    ensures Kept(a + b, doomed) == Kept(a, doomed) + Kept(b, doomed)
  {
    if a == [] {
      assert a + b == b;
    } else {
      assert (a + b)[0] == a[0] && (a + b)[1..] == a[1..] + b;
      KeptAppend(a[1..], b, doomed);
    }
  }

  /** Of the listed keys only `defaultAiModel` needs the list: every other
      one is caught by the `aiModel` substring test. */
  lemma ProtectedByPattern(key: string)
    ensures IsProtectedKey(key) <==>
      || key == "defaultAiModel"
      || EndsWith(key, "_api_key") || StartsWith(key, "model_")
      || Contains(key, "aiModel") || Contains(key, "AIModel")
      || Contains(key, "deepseek") || Contains(key, "Deepseek")
  {
    if key in ProtectedKeys && key != "defaultAiModel" {
      assert StartsWith(key, "aiModel");
      PrefixContains(key, "aiModel");
    }
    if EndsWith(key, "_api_key") || StartsWith(key, "model_") {
      assert key != "";
    }
    if Contains(key, "aiModel") || Contains(key, "AIModel") || Contains(key, "deepseek") || Contains(key, "Deepseek") {
      if key == "" {
        EmptyContainsNothing("aiModel");
        EmptyContainsNothing("AIModel");
        EmptyContainsNothing("deepseek");
        EmptyContainsNothing("Deepseek");
      }
    }
  }

  /** After `cleanupAllTestData` a key is left exactly when it was there and
      no loop targets it or it is protected; in particular every protected
      key survives. */
  lemma AllTestDataKept(keys: seq<string>, k: string)
    ensures k in Kept(Kept(Kept(keys, DoomedBy(AnalysisSweep)), DoomedBy(RuleSweep)), DoomedBy(TestSweep)) <==>
      k in keys && (IsProtectedKey(k) || (!Targeted(AnalysisSweep, k) && !Targeted(RuleSweep, k) && !Targeted(TestSweep, k)))
  {
  }
}
