/** The model list of the `aiModels` store: its records, the provider guess,
    the repair and default-selection passes, the API-key backup and restore,
    the local step of `saveApiKey`, and the filter that picks the models the
    server accepts. */
module AiModels {
  import opened JsValue
  import opened KeyStore
  import opened ObjectIds

  /** A model record. A string field that is absent or empty is `""`; an
      absent `isDefault` is `false`. `testResult` and `keyFormat` are not
      kept. Where the source builds a text from a field with a template
      (`` `${model.provider}_${model.name}` ``), an absent field prints as
      `undefined` there and as the empty text here; both the backup and the
      restore build their names the same way, so they agree either way. */
  datatype Model = Model(
    id: string, name: string, description: string, provider: string,
    status: string, endpoint: string, modelId: string, apiKey: string,
    isDefault: bool)

  /** What a key of the model settings holds once `JSON.parse` has read it:
      a list of records, the settings record `{defaultModel}`, a plain text
      stored as it is, or the key backup object. */
  datatype Stored =
    | ModelList(items: seq<Model>)
    | Settings(defaultModel: string)
    | Text(text: string)
    | KeyMap(entries: map<string, string>)

  /** The key of the API-key backup object. */
  const BackupKey := "ai_model_api_keys"

  // ---------------------------------------------------------------------------
  // Provider

  /** `getProviderFromId`: the first of `gpt`, `claude`, `deepseek` that the
      id contains decides. */
  function GetProviderFromId(id: string): (p: string)
    ensures p == "openai" <==> Contains(id, "gpt")
    ensures p == "anthropic" <==> !Contains(id, "gpt") && Contains(id, "claude")
    ensures p == "deepseek" <==> !Contains(id, "gpt") && !Contains(id, "claude") && Contains(id, "deepseek")
    ensures p == "unknown" <==> !Contains(id, "gpt") && !Contains(id, "claude") && !Contains(id, "deepseek")
  {
    if Contains(id, "gpt") then "openai"
    else if Contains(id, "claude") then "anthropic"
    else if Contains(id, "deepseek") then "deepseek"
    else "unknown"
  }

  /** The guess is never empty, so the `|| 'custom'` fallback of
      `repairModels` is never taken. */
  lemma ProviderNeverEmpty(id: string)
    ensures GetProviderFromId(id) != ""
    ensures GetProviderFromId(id) in {"openai", "anthropic", "deepseek", "unknown"}
  {
  }

  // ---------------------------------------------------------------------------
  // setDefaultModel

  /** The `forEach` of `setDefaultModel`: marks exactly the models whose id
      is `modelId`. */
  method MarkDefault(ms: seq<Model>, modelId: string) returns (r: seq<Model>)
    ensures |r| == |ms|
    ensures forall i :: 0 <= i < |r| ==> r[i] == ms[i].(isDefault := ms[i].id == modelId)
  {
    r := ms;
    var i := 0;
    while i < |r|
      invariant 0 <= i <= |r| == |ms|
      invariant forall j :: 0 <= j < i ==> r[j] == ms[j].(isDefault := ms[j].id == modelId)
      invariant forall j :: i <= j < |r| ==> r[j] == ms[j]
    {
      r := r[i := r[i].(isDefault := r[i].id == modelId)];
      i := i + 1;
    }
  }

  /** When the ids are distinct and one of them is `modelId`, marking leaves
      exactly one default model. */
  lemma DefaultUnique(ms: seq<Model>, r: seq<Model>, modelId: string, k: nat)
    requires |r| == |ms| && k < |ms| && ms[k].id == modelId
    requires forall i, j :: 0 <= i < j < |ms| ==> ms[i].id != ms[j].id
    requires forall i :: 0 <= i < |r| ==> r[i] == ms[i].(isDefault := ms[i].id == modelId)
    ensures r[k].isDefault
    ensures forall i :: 0 <= i < |r| && i != k ==> !r[i].isDefault
  {
    forall i | 0 <= i < |r| && i != k
      ensures !r[i].isDefault
    {
      if i < k {
        assert ms[i].id != ms[k].id;
      } else {
        assert ms[k].id != ms[i].id;
      }
    }
  }

  // ---------------------------------------------------------------------------
  // repairModels

  /** The endpoint `repairModels` fills in for a provider it knows. */
  function DefaultEndpoint(provider: string): (e: string)
    ensures e != "" <==> provider in {"deepseek", "openai", "anthropic"}
  {
    if provider == "deepseek" then "https://api.deepseek.com"
    else if provider == "openai" then "https://api.openai.com/v1"
    else if provider == "anthropic" then "https://api.anthropic.com"
    else ""
  }

  /** The per-model step of `repairModels`: missing fields get their
      defaults, present ones are kept. */
  function RepairModel(m: Model): (r: Model)
    ensures r.status != "" && r.provider != ""
    ensures r.id == m.id && r.name == m.name && r.description == m.description
    ensures r.apiKey == m.apiKey && r.isDefault == m.isDefault
    ensures m.status != "" ==> r.status == m.status
    ensures m.status == "" ==> r.status == "inactive"
    ensures m.provider != "" ==> r.provider == m.provider
    ensures m.provider == "" ==> r.provider == GetProviderFromId(m.id)
    ensures m.endpoint != "" ==> r.endpoint == m.endpoint
    ensures m.modelId != "" ==> r.modelId == m.modelId
    ensures m.endpoint == "" ==> r.endpoint == DefaultEndpoint(r.provider)
    ensures m.modelId == "" && r.provider == "deepseek" ==>
      r.modelId == (if Contains(m.name, "Coder") then "deepseek-coder" else "deepseek-chat")
    ensures m.modelId == "" && r.provider != "deepseek" ==> r.modelId == ""
    ensures r.provider == "deepseek" ==> r.modelId != "" && r.endpoint != ""
  {
    var status := if m.status == "" then "inactive" else m.status;
    var provider := if m.provider == "" then GetProviderFromId(m.id) else m.provider;
    var endpoint := if m.endpoint == "" then DefaultEndpoint(provider) else m.endpoint;
    var modelId :=
      if m.modelId == "" && provider == "deepseek" then
        (if Contains(m.name, "Coder") then "deepseek-coder" else "deepseek-chat")
      else m.modelId;
    m.(status := status, provider := provider, endpoint := endpoint, modelId := modelId)
  }

  /** Repairing twice is repairing once. */
  lemma RepairIdempotent(m: Model)
    ensures RepairModel(RepairModel(m)) == RepairModel(m)
  {
  }

  /** The `forEach` of `repairModels`. */
  method RepairAll(ms: seq<Model>) returns (r: seq<Model>)
    ensures |r| == |ms|
    ensures forall i :: 0 <= i < |r| ==> r[i] == RepairModel(ms[i])
  {
    r := ms;
    var i := 0;
    while i < |r|
      invariant 0 <= i <= |r| == |ms|
      invariant forall j :: 0 <= j < i ==> r[j] == RepairModel(ms[j])
      invariant forall j :: i <= j < |r| ==> r[j] == ms[j]
    {
      r := r[i := RepairModel(r[i])];
      i := i + 1;
    }
  }

  predicate HasActive(ms: seq<Model>) {
    exists i :: 0 <= i < |ms| && ms[i].status == "active"
  }

  /** The test of the `find` in `repairModels`: a deepseek Coder model. */
  predicate IsCoder(m: Model) {
    m.provider == "deepseek" && (m.modelId == "deepseek-coder" || Contains(m.name, "Coder"))
  }

  /** `findIndex` with `IsCoder`. */
  function FindCoder(ms: seq<Model>): (r: Option<nat>)
    ensures r.Some? ==> r.value < |ms| && IsCoder(ms[r.value])
    ensures r.Some? ==> forall j :: 0 <= j < r.value ==> !IsCoder(ms[j])
    ensures r.None? ==> forall j :: 0 <= j < |ms| ==> !IsCoder(ms[j])
  {
    if ms == [] then None
    else if IsCoder(ms[0]) then Some(0)
    else match FindCoder(ms[1..])
      case None => None
      case Some(k) => Some(k + 1)
  }

  /** The index `repairModels` activates when no model is active. */
  function ActivationIndex(ms: seq<Model>): (i: nat)
    requires ms != []
    ensures i < |ms|
  {
    match FindCoder(ms)
    case Some(k) => k
    case None => 0
  }

  // ---------------------------------------------------------------------------
  // API-key backup and restore

  /** `!apiKey || apiKey.trim() === ''` */
  predicate Keyed(m: Model) {
    !Blank(m.apiKey)
  }

  /** `` `${model.provider}_${model.name}` `` */
  function ProviderName(m: Model): string {
    m.provider + "_" + m.name
  }

  /** `.filter(Boolean)` on strings. */
  function NonEmpty(ks: seq<string>): (r: seq<string>)
    ensures forall k :: k in r <==> k in ks && k != ""
    ensures |r| <= |ks|
  {
    if ks == [] then []
    else (if ks[0] == "" then [] else [ks[0]]) + NonEmpty(ks[1..])
  }

  /** The identifiers a key is backed up and looked up under, in order:
      `[id, modelId, name, provider_name].filter(Boolean)`. */
  function Identifiers(m: Model): (ids: seq<string>)
    ensures forall k :: k in ids <==> k in [m.id, m.modelId, m.name, ProviderName(m)] && k != ""
    ensures ProviderName(m) in ids
    ensures m.id != "" ==> ids[0] == m.id
  {
    assert ProviderName(m) != "" by {
      assert |ProviderName(m)| >= 1;
    }
    var ks := [m.id, m.modelId, m.name, ProviderName(m)];
    assert ks[0] == m.id && ks[1..] == [m.modelId, m.name, ProviderName(m)];
    NonEmpty(ks)
  }

  /** A truthy entry of the backup object. */
  predicate Hit(keys: map<string, string>, k: string) {
    k in keys && keys[k] != ""
  }

  /** The index of the first identifier with a truthy entry. */
  function FirstHit(ids: seq<string>, keys: map<string, string>): (r: Option<nat>)
    ensures r.Some? ==> r.value < |ids| && Hit(keys, ids[r.value])
    ensures r.Some? ==> forall j :: 0 <= j < r.value ==> !Hit(keys, ids[j])
    ensures r.None? ==> forall j :: 0 <= j < |ids| ==> !Hit(keys, ids[j])
  {
    if ids == [] then None
    else if Hit(keys, ids[0]) then Some(0)
    else match FirstHit(ids[1..], keys)
      case None => None
      case Some(k) => Some(k + 1)
  }

  /** `restoreApiKeys` for one model: a model without a key takes the entry
      of its first identifier that has one; any other model is left as it
      is. */
  function RestoredModel(m: Model, keys: map<string, string>): Model {
    if !Blank(m.apiKey) then m
    else match FirstHit(Identifiers(m), keys)
      case None => m
      case Some(i) => m.(apiKey := keys[Identifiers(m)[i]])
  }

  /** Restoring changes at most the key, and only of a model without one;
      the key it takes is the entry of the first identifier, in the order
      id, modelId, name, provider_name, that has a truthy entry. */
  lemma RestoredModelChanges(m: Model, keys: map<string, string>)
    ensures Keyed(m) ==> RestoredModel(m, keys) == m
    ensures RestoredModel(m, keys) == m.(apiKey := RestoredModel(m, keys).apiKey)
    ensures Restores(m, keys) ==>
      var i := FirstHit(Identifiers(m), keys).value;
      && RestoredModel(m, keys).apiKey == keys[Identifiers(m)[i]]
      && RestoredModel(m, keys).apiKey != ""
      && forall j :: 0 <= j < i ==> !Hit(keys, Identifiers(m)[j])
    ensures !Restores(m, keys) ==> RestoredModel(m, keys) == m
  {
  }

  /** Whether `restoreApiKeys` assigns a key to the model (and counts it). */
  predicate Restores(m: Model, keys: map<string, string>) {
    Blank(m.apiKey) && FirstHit(Identifiers(m), keys).Some?
  }

  /** The number of models `restoreApiKeys` assigns a key to. */
  function RestoredCount(ms: seq<Model>, keys: map<string, string>): (n: nat)
    ensures n <= |ms|
  {
    if ms == [] then 0
    else RestoredCount(ms[..|ms| - 1], keys) + (if Restores(ms[|ms| - 1], keys) then 1 else 0)
  }

  /** The number of models that already had a key. */
  function HadKeyCount(ms: seq<Model>): (n: nat)
    ensures n <= |ms|
  {
    if ms == [] then 0
    else HadKeyCount(ms[..|ms| - 1]) + (if Keyed(ms[|ms| - 1]) then 1 else 0)
  }

  /** The number of models restoring actually changes. */
  function ChangedCount(ms: seq<Model>, keys: map<string, string>): nat {
    if ms == [] then 0
    else ChangedCount(ms[..|ms| - 1], keys) + (if RestoredModel(ms[|ms| - 1], keys) != ms[|ms| - 1] then 1 else 0)
  }

  /** The identifier search of `restoreApiKeys` (the inner `for` with its
      `break`). */
  method FindStoredKey(ids: seq<string>, keys: map<string, string>) returns (r: Option<nat>)
    ensures r == FirstHit(ids, keys)
  {
    var i := 0;
    while i < |ids|
      invariant 0 <= i <= |ids|
      invariant forall j :: 0 <= j < i ==> !Hit(keys, ids[j])
    {
      if ids[i] in keys && keys[ids[i]] != "" {
        FirstHitAt(ids, keys, i);
        return Some(i);
      }
      i := i + 1;
    }
    FirstHitAt(ids, keys, |ids|);
    return None;
  }

  /** The first hit is at `i` when none comes before `i` and `i` is one;
      there is none when no index below `|ids|` is one. */
  lemma {:induction false} FirstHitAt(ids: seq<string>, keys: map<string, string>, i: nat)
    requires i <= |ids|
    requires forall j :: 0 <= j < i ==> !Hit(keys, ids[j])
    ensures i < |ids| && Hit(keys, ids[i]) ==> FirstHit(ids, keys) == Some(i)
    ensures i == |ids| ==> FirstHit(ids, keys) == None
  {
    if i < |ids| && Hit(keys, ids[i]) {
      var r := FirstHit(ids, keys);
      assert r.Some?;
      assert !(r.value < i) && !(r.value > i);
    }
  }

  /** The body of the `forEach` of `restoreApiKeys` for one model. */
  method RestoreOne(m: Model, keys: map<string, string>) returns (r: Model, restored: bool, hadKey: bool)
    ensures r == RestoredModel(m, keys)
    ensures restored == Restores(m, keys) && hadKey == Keyed(m)
  {
    r, restored, hadKey := m, false, false;
    if Blank(m.apiKey) {
      var found := FindStoredKey(Identifiers(m), keys);
      if found.Some? {
        r := m.(apiKey := keys[Identifiers(m)[found.value]]);
        restored := true;
      }
    } else {
      hadKey := true;
    }
  }

  /** The `forEach` of `restoreApiKeys` with its two counters. */
  method RestoreAll(ms: seq<Model>, keys: map<string, string>) returns (r: seq<Model>, restored: nat, alreadyHad: nat)
    ensures |r| == |ms|
    ensures forall i :: 0 <= i < |r| ==> r[i] == RestoredModel(ms[i], keys)
    ensures restored == RestoredCount(ms, keys)
    ensures alreadyHad == HadKeyCount(ms)
  {
    r := [];
    restored, alreadyHad := 0, 0;
    var i := 0;
    while i < |ms|
      invariant 0 <= i <= |ms|
      invariant Tallied(ms[..i], keys, r, restored, alreadyHad)
    {
      var m, counted, had := RestoreOne(ms[i], keys);
      RestoreStep(ms, keys, i, r, restored, alreadyHad);
      r := r + [m];
      restored := restored + (if counted then 1 else 0);
      alreadyHad := alreadyHad + (if had then 1 else 0);
      i := i + 1;
    }
    assert ms[..|ms|] == ms;
    RestoredListAt(ms, keys);
  }

  /** The restored list, built from the front as the loop builds it. */
  function RestoredList(ms: seq<Model>, keys: map<string, string>): seq<Model> {
    if ms == [] then []
    else RestoredList(ms[..|ms| - 1], keys) + [RestoredModel(ms[|ms| - 1], keys)]
  }

  lemma {:induction false} RestoredListAt(ms: seq<Model>, keys: map<string, string>)
    ensures |RestoredList(ms, keys)| == |ms|
    ensures forall i :: 0 <= i < |ms| ==> RestoredList(ms, keys)[i] == RestoredModel(ms[i], keys)
  {
    if ms != [] {
      var init := ms[..|ms| - 1];
      RestoredListAt(init, keys);
      forall i | 0 <= i < |ms|
        ensures RestoredList(ms, keys)[i] == RestoredModel(ms[i], keys)
      {
        if i < |init| {
          assert ms[i] == init[i];
        }
      }
    }
  }

  /** The list and the two counters after the models `ms`. */
  ghost predicate Tallied(ms: seq<Model>, keys: map<string, string>, r: seq<Model>, restored: nat, alreadyHad: nat) {
    r == RestoredList(ms, keys) && restored == RestoredCount(ms, keys) && alreadyHad == HadKeyCount(ms)
  }

  lemma RestoreStep(ms: seq<Model>, keys: map<string, string>, i: nat, r: seq<Model>, restored: nat, alreadyHad: nat)
    requires i < |ms| && Tallied(ms[..i], keys, r, restored, alreadyHad)
    ensures Tallied(ms[..i + 1], keys, r + [RestoredModel(ms[i], keys)],
      restored + (if Restores(ms[i], keys) then 1 else 0), alreadyHad + (if Keyed(ms[i]) then 1 else 0))
  {
    assert ms[..i + 1][..i] == ms[..i];
  }

  /** When every entry of the backup is non-blank, as `backupApiKeys`
      writes it, the models counted as restored are exactly the models that
      changed. */
  lemma {:induction false} RestoredAreChanged(ms: seq<Model>, keys: map<string, string>)
    requires forall k | k in keys :: !Blank(keys[k])
    ensures RestoredCount(ms, keys) == ChangedCount(ms, keys)
  {
    if ms != [] {
      RestoredAreChanged(ms[..|ms| - 1], keys);
      var m := ms[|ms| - 1];
      if Restores(m, keys) {
        assert RestoredModel(m, keys).apiKey in keys.Values;
      }
    }
  }

  /** Restoring never counts more models than lack a key. */
  lemma {:induction false} RestoredWithinBlank(ms: seq<Model>, keys: map<string, string>)
    ensures RestoredCount(ms, keys) + HadKeyCount(ms) <= |ms|
  {
    if ms != [] {
      RestoredWithinBlank(ms[..|ms| - 1], keys);
    }
  }

  /** `backup[k] = value` for each identifier in turn. */
  function PutKeys(backup: map<string, string>, ids: seq<string>, value: string): map<string, string> {
    if ids == [] then backup
    else PutKeys(backup, ids[..|ids| - 1], value)[ids[|ids| - 1] := value]
  }

  /** After the writes, an identifier holds `value`, any other key what it
      held before. */
  lemma {:induction false} PutKeysAt(backup: map<string, string>, ids: seq<string>, value: string, k: string)
    ensures k in PutKeys(backup, ids, value) <==> k in backup || k in ids
    ensures k in ids ==> PutKeys(backup, ids, value)[k] == value
    ensures k in backup && k !in ids ==> PutKeys(backup, ids, value)[k] == backup[k]
  {
    if ids != [] {
      PutKeysAt(backup, ids[..|ids| - 1], value, k);
      assert k in ids <==> k in ids[..|ids| - 1] || k == ids[|ids| - 1];
    }
  }

  /** The object `backupApiKeys` builds: every identifier of every model
      with a key maps to that key, a later model overwriting an earlier
      one. */
  function KeyBackup(ms: seq<Model>): map<string, string> {
    if ms == [] then map[]
    else
      var m := ms[|ms| - 1];
      if Keyed(m) then PutKeys(KeyBackup(ms[..|ms| - 1]), Identifiers(m), m.apiKey)
      else KeyBackup(ms[..|ms| - 1])
  }

  /** A key of one full-width space is blank, as `trim` sees it: such a
      model is not counted as keyed and leaves no backup entry. */
  lemma FullWidthSpaceBlank(m: Model)
    requires m.apiKey == "\U{3000}"
    ensures !Keyed(m) && HadKeyCount([m]) == 0 && KeyBackup([m]) == map[]
  {
    assert [m][..0] == [];
  }

  /** Some model with a key has identifier `k`. */
  predicate BackedUp(ms: seq<Model>, k: string) {
    exists i :: 0 <= i < |ms| && Keyed(ms[i]) && k in Identifiers(ms[i])
  }

  lemma BackedUpSplit(ms: seq<Model>, k: string)
    requires ms != []
    ensures BackedUp(ms, k) <==>
      BackedUp(ms[..|ms| - 1], k) || (Keyed(ms[|ms| - 1]) && k in Identifiers(ms[|ms| - 1]))
  {
    var init := ms[..|ms| - 1];
    if BackedUp(init, k) {
      var i :| 0 <= i < |init| && Keyed(init[i]) && k in Identifiers(init[i]);
      assert ms[i] == init[i];
    }
    if BackedUp(ms, k) {
      var i :| 0 <= i < |ms| && Keyed(ms[i]) && k in Identifiers(ms[i]);
      if i < |init| {
        assert init[i] == ms[i];
      }
    }
  }

  /** An identifier is in the backup exactly when some model with a key
      has it. */
  lemma {:induction false} KeyBackupDomain(ms: seq<Model>, k: string)
    ensures k in KeyBackup(ms) <==> BackedUp(ms, k)
  {
    if ms != [] {
      var init := ms[..|ms| - 1];
      var m := ms[|ms| - 1];
      KeyBackupDomain(init, k);
      BackedUpSplit(ms, k);
      if Keyed(m) {
        PutKeysAt(KeyBackup(init), Identifiers(m), m.apiKey, k);
      }
    }
  }

  /** The entry of an identifier is the key of the LAST model with a key
      that has it. */
  lemma {:induction false} KeyBackupLastWins(ms: seq<Model>, i: nat, k: string)
    requires i < |ms| && Keyed(ms[i]) && k in Identifiers(ms[i])
    requires forall j :: i < j < |ms| ==> !(Keyed(ms[j]) && k in Identifiers(ms[j]))
    ensures k in KeyBackup(ms) && KeyBackup(ms)[k] == ms[i].apiKey
  {
    var init := ms[..|ms| - 1];
    var m := ms[|ms| - 1];
    if i == |ms| - 1 {
      PutKeysAt(KeyBackup(init), Identifiers(m), m.apiKey, k);
    } else {
      assert init[i] == ms[i];
      assert forall j :: i < j < |init| ==> init[j] == ms[j];
      KeyBackupLastWins(init, i, k);
      if Keyed(m) {
        PutKeysAt(KeyBackup(init), Identifiers(m), m.apiKey, k);
      }
    }
  }

  /** Every entry of the backup is a non-blank key. */
  lemma {:induction false} KeyBackupNonBlank(ms: seq<Model>)
    ensures forall k | k in KeyBackup(ms) :: !Blank(KeyBackup(ms)[k])
  {
    if ms != [] {
      var init := ms[..|ms| - 1];
      var m := ms[|ms| - 1];
      KeyBackupNonBlank(init);
      if Keyed(m) {
        forall k | k in KeyBackup(ms)
          ensures !Blank(KeyBackup(ms)[k])
        {
          PutKeysAt(KeyBackup(init), Identifiers(m), m.apiKey, k);
        }
      }
    }
  }

  /** Backup then restore: a model without a key whose id was backed up
      gets the key stored under that id, since the id is tried first. */
  lemma BackupThenRestore(ms: seq<Model>, x: Model)
    requires Blank(x.apiKey) && x.id != "" && x.id in KeyBackup(ms)
    ensures RestoredModel(x, KeyBackup(ms)).apiKey == KeyBackup(ms)[x.id]
    ensures Restores(x, KeyBackup(ms))
  {
    KeyBackupNonBlank(ms);
    var keys := KeyBackup(ms);
    assert !Blank(keys[x.id]);
    assert keys[x.id] != "";
    assert Hit(keys, Identifiers(x)[0]);
    FirstHitAt(Identifiers(x), keys, 0);
  }

  /** The inner `keys.forEach` of `backupApiKeys`. */
  method PutIdentifiers(backup: map<string, string>, ids: seq<string>, value: string) returns (r: map<string, string>)
    ensures r == PutKeys(backup, ids, value)
  {
    r := backup;
    var i := 0;
    while i < |ids|
      invariant 0 <= i <= |ids|
      invariant r == PutKeys(backup, ids[..i], value)
    {
      assert ids[..i + 1][..i] == ids[..i];
      r := r[ids[i] := value];
      i := i + 1;
    }
    assert ids[..|ids|] == ids;
  }

  /** The outer `forEach` of `backupApiKeys`. */
  method BuildBackup(ms: seq<Model>) returns (backup: map<string, string>)
    ensures backup == KeyBackup(ms)
  {
    backup := map[];
    var i := 0;
    while i < |ms|
      invariant 0 <= i <= |ms|
      invariant backup == KeyBackup(ms[..i])
    {
      assert ms[..i + 1][..i] == ms[..i];
      if !Blank(ms[i].apiKey) {
        backup := PutIdentifiers(backup, Identifiers(ms[i]), ms[i].apiKey);
      }
      i := i + 1;
    }
    assert ms[..|ms|] == ms;
  }

  /** What `JSON.parse` of the backup item yields, when anything. */
  function StoredBackup(item: Option<Stored>): Option<map<string, string>> {
    if item.Some? && item.value.KeyMap? then Some(item.value.entries) else None
  }

  // ---------------------------------------------------------------------------
  // The saveSettings filter

  const PredefinedIds: seq<string> := ["gpt-3.5", "gpt-4", "claude-3", "deepseek"]

  /** The filter that picks the models the server accepts: an ObjectId, a
      predefined id, or a deepseek model by id or provider. */
  predicate ServerCompatible(m: Model) {
    || (m.id != "" && IsObjectId(m.id))
    || m.id in PredefinedIds
    || (m.id != "" && (Contains(m.id, "deepseek") || m.provider == "deepseek"))
  }

  /** `serverModel.id || serverModel.modelId || serverModel.name` */
  function LookupName(m: Model): string {
    if m.id != "" then m.id else if m.modelId != "" then m.modelId else m.name
  }

  /** The key recovery of `saveSettings`: a model without a key takes the
      backup entry under its lookup name, when that entry is truthy. */
  function Recovered(m: Model, backup: Option<map<string, string>>): (r: Model)
    ensures r != m ==> (Blank(m.apiKey) && backup.Some? && Hit(backup.value, LookupName(m))
      && r == m.(apiKey := backup.value[LookupName(m)]))
    ensures backup.None? ==> r == m
  {
    if Blank(m.apiKey) && backup.Some? && Hit(backup.value, LookupName(m)) then
      m.(apiKey := backup.value[LookupName(m)])
    else m
  }

  /** The models `saveSettings` sends: the compatible ones, with keys
      recovered, that end up with a non-blank key, in list order. */
  function ServerModels(ms: seq<Model>, backup: Option<map<string, string>>): (r: seq<Model>)
    ensures |r| <= |ms|
    ensures forall x | x in r :: !Blank(x.apiKey)
  {
    if ms == [] then []
    else
      var x := Recovered(ms[0], backup);
      (if ServerCompatible(ms[0]) && !Blank(x.apiKey) then [x] else []) + ServerModels(ms[1..], backup)
  }

  /** A record is sent exactly when it is the recovered form of a
      compatible model that has a key afterwards. */
  lemma {:induction false} ServerModelsMembers(ms: seq<Model>, backup: Option<map<string, string>>, x: Model)
    ensures x in ServerModels(ms, backup) <==>
      exists i :: 0 <= i < |ms| && ServerCompatible(ms[i]) && x == Recovered(ms[i], backup) && !Blank(x.apiKey)
  {
    if ms != [] {
      ServerModelsMembers(ms[1..], backup, x);
      assert forall i :: 0 < i < |ms| ==> ms[1..][i - 1] == ms[i];
      if x in ServerModels(ms[1..], backup) {
        var i :| 0 <= i < |ms[1..]| && ServerCompatible(ms[1..][i]) && x == Recovered(ms[1..][i], backup) && !Blank(x.apiKey);
        assert ms[i + 1] == ms[1..][i];
      }
    }
  }

  /** Without a backup the filter keeps a model iff it is compatible and
      has a non-blank key. */
  lemma NoBackupFilter(ms: seq<Model>, m: Model)
    ensures m in ServerModels(ms, None) <==> m in ms && ServerCompatible(m) && !Blank(m.apiKey)
  {
    ServerModelsMembers(ms, None, m);
    if m in ms {
      var i :| 0 <= i < |ms| && ms[i] == m;
    }
  }

  // ---------------------------------------------------------------------------
  // The store

  /** The models the store starts with. */
  const Presets: seq<Model> := [
    Model("gpt-4", "GPT-4", "OpenAI 的 GPT-4 模型，提供强大的自然语言处理能力",
      "openai", "inactive", "https://api.openai.com/v1", "", "", false),
    Model("claude-3", "Claude 3", "Anthropic 的 Claude 3 模型，提供高质量的自然语言处理能力",
      "anthropic", "inactive", "https://api.anthropic.com", "", "", false),
    Model("deepseek", "DeepSeek Coder", "专为代码分析和生成优化的 AI 模型",
      "deepseek", "inactive", "https://api.deepseek.com", "deepseek-coder", "", false)
  ]

  /** The presets need no repair, none of them holds a key, and their ids
      are distinct. */
  lemma PresetsSettled()
    ensures forall i :: 0 <= i < |Presets| ==> RepairModel(Presets[i]) == Presets[i] && !Keyed(Presets[i])
    ensures forall i, j :: 0 <= i < j < |Presets| ==> Presets[i].id != Presets[j].id
  {
  }

  class ModelsStore {
    var models: seq<Model>
    var selectedModel: string

    /** The store's initial state: the three preset models, and no
        selection (`null`, here `""`). */
    constructor ()
      ensures models == Presets && selectedModel == ""
    {
      models := Presets;
      selectedModel := "";
    }

    /** `setDefaultModel` */
    method SetDefaultModel(modelId: string)
      modifies this
      ensures selectedModel == modelId
      ensures |models| == |old(models)|
      ensures forall i :: 0 <= i < |models| ==>
        models[i] == old(models)[i].(isDefault := old(models)[i].id == modelId)
    {
      selectedModel := modelId;
      models := MarkDefault(models, modelId);
    }

    /** `repairModels` */
    method RepairModels()
      modifies this
      ensures |models| == |old(models)|
      ensures forall i :: 0 <= i < |models| ==> models[i].status != "" && models[i].provider != ""
      ensures old(models) != [] ==> HasActive(models)
      ensures HasActive(old(models)) || old(models) == [] ==>
        selectedModel == old(selectedModel) &&
        forall i :: 0 <= i < |models| ==> models[i] == RepairModel(old(models)[i])
      ensures !HasActive(old(models)) && old(models) != [] ==>
        var repaired := seq(|old(models)|, i requires 0 <= i < |old(models)| => RepairModel(old(models)[i]));
        var k := ActivationIndex(repaired);
        && selectedModel == repaired[k].id
        && models == repaired[k := repaired[k].(status := "active")]
    {
      var repaired := RepairAll(models);
      ghost var expected := seq(|old(models)|, i requires 0 <= i < |old(models)| => RepairModel(old(models)[i]));
      assert repaired == expected;
      RepairKeepsActive(old(models), repaired);
      models := repaired;
      if !HasActive(models) && |models| > 0 {
        var k := ActivationIndex(models);
        models := models[k := models[k].(status := "active")];
        selectedModel := repaired[k].id;
        assert models[k].status == "active";
      }
    }

    /** The local step of `saveApiKey`: the key is set on the model with
        the same id, or the model is appended with it; the key is also
        stored under `${id}_api_key`. A model without an id is refused
        (the source throws). */
    method SaveApiKey(model: Model, apiKey: string, storage: Store<Stored>) returns (ok: bool)
      requires storage.Valid()
      modifies this, storage
      ensures storage.Valid()
      ensures ok <==> model.id != ""
      ensures !ok ==> models == old(models) && storage.data == old(storage.data) && storage.keys == old(storage.keys)
      ensures ok ==> storage.data == old(storage.data)[model.id + "_api_key" := Text(apiKey)]
      ensures ok ==> storage.keys == WithKey(old(storage.keys), model.id + "_api_key")
      ensures ok && FindById(old(models), model.id).Some? ==>
        var k := FindById(old(models), model.id).value;
        models == old(models)[k := old(models)[k].(apiKey := apiKey)]
      ensures ok && FindById(old(models), model.id).None? ==>
        models == old(models) + [model.(apiKey := apiKey)]
      ensures selectedModel == old(selectedModel)
    {
      if model.id == "" {
        return false;
      }
      match FindById(models, model.id) {
        case None =>
          models := models + [model.(apiKey := apiKey)];
        case Some(k) =>
          models := models[k := models[k].(apiKey := apiKey)];
      }
      storage.SetItem(model.id + "_api_key", Text(apiKey));
      ok := true;
    }

    /** `restoreApiKeys` */
    method RestoreApiKeys(storage: Store<Stored>) returns (outcome: RestoreOutcome)
      modifies this
      ensures selectedModel == old(selectedModel)
      ensures outcome == NoBackup <==> !Present(storage.GetItem(BackupKey))
      ensures outcome == Unreadable <==> Present(storage.GetItem(BackupKey)) && StoredBackup(storage.GetItem(BackupKey)).None?
      ensures outcome.Restored? ==>
        var keys := storage.data[BackupKey].entries;
        && storage.data[BackupKey].KeyMap?
        && |models| == |old(models)|
        && (forall i :: 0 <= i < |models| ==> models[i] == RestoredModel(old(models)[i], keys))
        && outcome.restored == RestoredCount(old(models), keys)
        && outcome.alreadyHad == HadKeyCount(old(models))
      ensures !outcome.Restored? ==> models == old(models)
    {
      var item := storage.GetItem(BackupKey);
      if !Present(item) {
        return NoBackup;
      }
      var backup := StoredBackup(item);
      if backup.None? {
        return Unreadable;
      }
      var restored, alreadyHad;
      models, restored, alreadyHad := RestoreAll(models, backup.value);
      outcome := Restored(restored, alreadyHad);
    }

    /** `backupApiKeys` */
    method BackupApiKeys(storage: Store<Stored>)
      requires storage.Valid()
      modifies storage
      ensures storage.Valid()
      ensures storage.data == old(storage.data)[BackupKey := KeyMap(KeyBackup(models))]
      ensures storage.keys == WithKey(old(storage.keys), BackupKey)
    {
      var backup := BuildBackup(models);
      storage.SetItem(BackupKey, KeyMap(backup));
    }
  }

  /** What `restoreApiKeys` returns: `{restored: 0}` without a backup, the
      two counters, or the error record when the backup cannot be read. */
  datatype RestoreOutcome = NoBackup | Restored(restored: nat, alreadyHad: nat) | Unreadable

  /** `getItem` returned a truthy string: only an empty text is falsy. */
  predicate Present(item: Option<Stored>) {
    item.Some? && (item.value.Text? ==> item.value.text != "")
  }

  /** `findIndex(m => m.id === id)` */
  function FindById(ms: seq<Model>, id: string): (r: Option<nat>)
    ensures r.Some? ==> r.value < |ms| && ms[r.value].id == id
    ensures r.Some? ==> forall j :: 0 <= j < r.value ==> ms[j].id != id
    ensures r.None? ==> forall j :: 0 <= j < |ms| ==> ms[j].id != id
  {
    if ms == [] then None
    else if ms[0].id == id then Some(0)
    else match FindById(ms[1..], id)
      case None => None
      case Some(k) => Some(k + 1)
  }

  /** Repairing never makes a model active or inactive: `'inactive'` only
      replaces an empty status. */
  lemma RepairKeepsActive(ms: seq<Model>, r: seq<Model>)
    requires |r| == |ms| && forall i :: 0 <= i < |r| ==> r[i] == RepairModel(ms[i])
    ensures HasActive(r) <==> HasActive(ms)
  {
    if HasActive(ms) {
      var i :| 0 <= i < |ms| && ms[i].status == "active";
      assert r[i].status == "active";
    }
    if HasActive(r) {
      var i :| 0 <= i < |r| && r[i].status == "active";
      assert ms[i].status != "";
    }
  }
}
