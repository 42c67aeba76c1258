/** `saveModelsToLocalStorage` and `loadModelsFromLocalStorage` of
    `aiModels.js`: the model list, its backup copy, one key per API key and
    the default model, written to and read back from the key store. */
module ModelStorage {
  import opened JsValue
  import opened KeyStore
  import opened AiModels

  const ModelsKey := "aiModels"
  const SettingsKey := "aiModelsSettings"
  const ListBackupKey := "aiModelsBackup"
  const LastSavedKey := "aiModels_last_saved"
  const DefaultModelKey := "defaultAiModel"

  /** `` `${id}_api_key` `` */
  function ApiKeyName(id: string): (k: string)
    ensures |k| == |id| + 8 && k[..|id|] == id && k[|id|..] == "_api_key"
  {
    id + "_api_key"
  }

  /** Different ids have different key names. */
  lemma ApiKeyNameInjective(a: string, b: string)
    requires a != b
    ensures ApiKeyName(a) != ApiKeyName(b)
  {
    assert a == ApiKeyName(a)[..|a|];
    assert b == ApiKeyName(b)[..|b|];
  }

  /** None of the fixed keys is the key name of an id: none ends in `y`. */
  lemma FixedKeysAreNotKeyNames(id: string)
    ensures ApiKeyName(id) != ModelsKey && ApiKeyName(id) != ListBackupKey
    ensures ApiKeyName(id) != SettingsKey && ApiKeyName(id) != DefaultModelKey
    ensures ApiKeyName(id) != LastSavedKey
  {
    var k := ApiKeyName(id);
    assert ModelsKey[|ModelsKey| - 1] == 's';
    assert ListBackupKey[|ListBackupKey| - 1] == 'p';
    assert SettingsKey[|SettingsKey| - 1] == 's';
    assert DefaultModelKey[|DefaultModelKey| - 1] == 'l';
    assert LastSavedKey[|LastSavedKey| - 1] == 'd';
  }

  /** The record kept for a model: the eight fields, with `'inactive'` for
      a missing status (every other default is the empty string, which
      `""` already stands for). */
  function Simplify(m: Model): (r: Model)
    ensures r.id == m.id && r.apiKey == m.apiKey
  {
    Model(m.id, m.name, m.description, m.provider,
      if m.status == "" then "inactive" else m.status,
      m.endpoint, m.modelId, m.apiKey, false)
  }

  /** `models.map(simplify)` */
  function Simplified(ms: seq<Model>): (r: seq<Model>)
    ensures |r| == |ms| && forall i :: 0 <= i < |ms| ==> r[i] == Simplify(ms[i])
  {
    seq(|ms|, i requires 0 <= i < |ms| => Simplify(ms[i]))
  }

  /** The `for` loop writing `${id}_api_key` for each model with a key. */
  function WriteKeys(data: map<string, Stored>, ms: seq<Model>): map<string, Stored> {
    if ms == [] then data
    else
      var d := WriteKeys(data, ms[..|ms| - 1]);
      var m := ms[|ms| - 1];
      if m.apiKey != "" then d[ApiKeyName(m.id) := Text(m.apiKey)] else d
  }

  /** The key order after that loop: each key name is appended the first
      time it is written. */
  function WriteKeyOrder(keys: seq<string>, ms: seq<Model>): seq<string> {
    if ms == [] then keys
    else
      var k := WriteKeyOrder(keys, ms[..|ms| - 1]);
      var m := ms[|ms| - 1];
      if m.apiKey != "" then WithKey(k, ApiKeyName(m.id)) else k
  }

  /** The key order after a successful `saveModelsToLocalStorage`. */
  function SaveKeys(keys: seq<string>, ms: seq<Model>, selected: string): seq<string> {
    var k1 := WithKey(WithKey(keys, ModelsKey), ListBackupKey);
    var k2 := WriteKeyOrder(k1, Simplified(ms));
    var k3 := if selected != "" then WithKey(WithKey(k2, SettingsKey), DefaultModelKey) else k2;
    WithKey(k3, LastSavedKey)
  }

  /** Writing the keys only appends: every key already stored keeps its
      index. */
  lemma {:induction false} WriteKeyOrderExtends(keys: seq<string>, ms: seq<Model>)
    ensures |WriteKeyOrder(keys, ms)| >= |keys| && WriteKeyOrder(keys, ms)[..|keys|] == keys
  {
    if ms != [] {
      var k := WriteKeyOrder(keys, ms[..|ms| - 1]);
      WriteKeyOrderExtends(keys, ms[..|ms| - 1]);
      var m := ms[|ms| - 1];
      if m.apiKey != "" {
        assert WithKey(k, ApiKeyName(m.id))[..|k|] == k;
        assert k[..|keys|] == keys;
      }
    }
  }

  /** A save keeps the index of every key stored before it: in the key
      order the store keeps, a later walk over the keys sees the old keys
      first and in order. */
  lemma SaveKeysExtends(keys: seq<string>, ms: seq<Model>, selected: string)
    ensures |SaveKeys(keys, ms, selected)| >= |keys| && SaveKeys(keys, ms, selected)[..|keys|] == keys
  {
    var k0 := WithKey(keys, ModelsKey);
    var k1 := WithKey(k0, ListBackupKey);
    ExtendsTrans(keys, k0, k1);
    var k2 := WriteKeyOrder(k1, Simplified(ms));
    WriteKeyOrderExtends(k1, Simplified(ms));
    ExtendsTrans(keys, k1, k2);
    var k3 := k2;
    if selected != "" {
      var k := WithKey(k2, SettingsKey);
      k3 := WithKey(k, DefaultModelKey);
      ExtendsTrans(keys, k2, k);
      ExtendsTrans(keys, k, k3);
    }
    ExtendsTrans(keys, k3, WithKey(k3, LastSavedKey));
  }

  /** A list that starts with `b`, where `b` starts with `a`, starts with `a`. */
  lemma ExtendsTrans(a: seq<string>, b: seq<string>, c: seq<string>)
    requires |a| <= |b| && b[..|a|] == a
    requires |b| <= |c| && c[..|b|] == b
    ensures |a| <= |c| && c[..|a|] == a
  {
    assert c[..|a|] == c[..|b|][..|a|];
  }

  /** The store after a successful `saveModelsToLocalStorage`; `savedAt` is
      the ISO time it records. */
  function SaveData(data: map<string, Stored>, ms: seq<Model>, selected: string, savedAt: string): map<string, Stored> {
    var simple := Simplified(ms);
    var d1 := data[ModelsKey := ModelList(simple)][ListBackupKey := ModelList(simple)];
    var d2 := WriteKeys(d1, simple);
    var d3 := if selected != "" then d2[SettingsKey := Settings(selected)][DefaultModelKey := Text(selected)] else d2;
    d3[LastSavedKey := Text(savedAt)]
  }

  /** `saveModelsToLocalStorage`: nothing is written and `false` returned
      for an empty list. */
  method SaveModelsToLocalStorage(storage: Store<Stored>, models: seq<Model>, selectedModel: string, savedAt: string)
    returns (ok: bool)
    requires storage.Valid()
    modifies storage
    ensures storage.Valid()
    ensures ok <==> models != []
    ensures !ok ==> storage.data == old(storage.data) && storage.keys == old(storage.keys)
    ensures ok ==> storage.data == SaveData(old(storage.data), models, selectedModel, savedAt)
    ensures ok ==> storage.keys == SaveKeys(old(storage.keys), models, selectedModel)
  {
    if models == [] {
      return false;
    }
    var simple := Simplified(models);
    storage.SetItem(ModelsKey, ModelList(simple));
    storage.SetItem(ListBackupKey, ModelList(simple));
    WriteApiKeys(storage, simple);
    if selectedModel != "" {
      storage.SetItem(SettingsKey, Settings(selectedModel));
      storage.SetItem(DefaultModelKey, Text(selectedModel));
    }
    storage.SetItem(LastSavedKey, Text(savedAt));
    ok := true;
  }

  /** The `for` loop of `saveModelsToLocalStorage` writing the keys. */
  method WriteApiKeys(storage: Store<Stored>, ms: seq<Model>)
    requires storage.Valid()
    modifies storage
    ensures storage.Valid()
    ensures storage.data == WriteKeys(old(storage.data), ms)
    ensures storage.keys == WriteKeyOrder(old(storage.keys), ms)
  {
    var i := 0;
    while i < |ms|
      invariant 0 <= i <= |ms|
      invariant storage.Valid()
      invariant storage.data == WriteKeys(old(storage.data), ms[..i])
      invariant storage.keys == WriteKeyOrder(old(storage.keys), ms[..i])
    {
      assert ms[..i + 1][..i] == ms[..i];
      if ms[i].apiKey != "" {
        storage.SetItem(ApiKeyName(ms[i].id), Text(ms[i].apiKey));
      }
      i := i + 1;
    }
    assert ms[..|ms|] == ms;
  }

  function Item(data: map<string, Stored>, key: string): Option<Stored> {
    if key in data then Some(data[key]) else None
  }

  /** What reading a list key gives: a non-empty array, nothing usable, or
      text `JSON.parse` rejects (which makes the whole load fail). */
  datatype ListRead = Found(items: seq<Model>) | NotFound | Unparsable

  function ReadList(item: Option<Stored>): (r: ListRead)
    ensures r.Found? ==> r.items != []
  {
    match item
    case None => NotFound
    case Some(ModelList(items)) => if items != [] then Found(items) else NotFound
    case Some(Text(text)) => if text == "" then NotFound else Unparsable
    case Some(_) => NotFound
  }

  /** A truthy `${id}_api_key` text. */
  function StoredApiKey(data: map<string, Stored>, id: string): Option<string> {
    var item := Item(data, ApiKeyName(id));
    if item.Some? && item.value.Text? && item.value.text != "" then Some(item.value.text) else None
  }

  /** A loaded model with its separately stored key laid over it. */
  function WithStoredKey(data: map<string, Stored>, m: Model): Model {
    match StoredApiKey(data, m.id)
    case Some(k) => m.(apiKey := k)
    case None => m
  }

  /** `parsed.defaultModel` of the settings item, `''` when it has none. */
  function SettingsModel(item: Option<Stored>): string {
    match item
    case Some(Settings(d)) => d
    case Some(KeyMap(e)) => if "defaultModel" in e then e["defaultModel"] else ""
    case _ => ""
  }

  /** `localStorage.getItem('defaultAiModel') || ''` */
  function DefaultModelText(item: Option<Stored>): string {
    if item.Some? && item.value.Text? then item.value.text else ""
  }

  /** The list `loadModelsFromLocalStorage` reads: the main copy when it is
      a non-empty array, else the backup copy; `None` when a copy cannot be
      parsed. */
  function LoadedList(data: map<string, Stored>): Option<seq<Model>> {
    match ReadList(Item(data, ModelsKey))
    case Unparsable => None
    case Found(items) => Some(items)
    case NotFound =>
      match ReadList(Item(data, ListBackupKey))
      case Unparsable => None
      case Found(items) => Some(items)
      case NotFound => Some([])
  }

  /** The selected model read back: the settings record first, then the
      `defaultAiModel` text. */
  function LoadedSelection(data: map<string, Stored>): string {
    var s := SettingsModel(Item(data, SettingsKey));
    if s != "" then s else DefaultModelText(Item(data, DefaultModelKey))
  }

  /** The `for` loop laying the stored keys over the loaded records. */
  method ApplyStoredKeys(storage: Store<Stored>, ms: seq<Model>) returns (r: seq<Model>)
    ensures |r| == |ms|
    ensures forall i :: 0 <= i < |ms| ==> r[i] == WithStoredKey(storage.data, ms[i])
  {
    r := [];
    var i := 0;
    while i < |ms|
      invariant 0 <= i <= |ms| && |r| == i
      invariant forall j :: 0 <= j < i ==> r[j] == WithStoredKey(storage.data, ms[j])
    {
      var m := ms[i];
      var item := storage.GetItem(ApiKeyName(m.id));
      if item.Some? && item.value.Text? && item.value.text != "" {
        m := m.(apiKey := item.value.text);
      }
      r := r + [m];
      i := i + 1;
    }
  }

  /** `loadModelsFromLocalStorage`; the store is only read. */
  method LoadModelsFromLocalStorage(storage: Store<Stored>) returns (models: seq<Model>, selectedModel: string)
    ensures LoadedList(storage.data).None? ==> models == [] && selectedModel == ""
    ensures LoadedList(storage.data).Some? ==>
      var loaded := LoadedList(storage.data).value;
      && |models| == |loaded|
      && (forall i :: 0 <= i < |loaded| ==> models[i] == WithStoredKey(storage.data, loaded[i]))
      && selectedModel == LoadedSelection(storage.data)
  {
    var main := ReadList(storage.GetItem(ModelsKey));
    if main.Unparsable? {
      return [], "";
    }
    models := if main.Found? then main.items else [];
    if models == [] {
      var backup := ReadList(storage.GetItem(ListBackupKey));
      if backup.Unparsable? {
        return [], "";
      }
      if backup.Found? {
        models := backup.items;
      }
    }
    models := ApplyStoredKeys(storage, models);
    selectedModel := SettingsModel(storage.GetItem(SettingsKey));
    if selectedModel == "" {
      selectedModel := DefaultModelText(storage.GetItem(DefaultModelKey));
    }
  }

  // ---------------------------------------------------------------------------

  /** A key no model writes keeps what it held. */
  lemma {:induction false} WriteKeysUntouched(data: map<string, Stored>, ms: seq<Model>, key: string)
    requires forall j :: 0 <= j < |ms| && ms[j].apiKey != "" ==> ApiKeyName(ms[j].id) != key
    ensures Item(WriteKeys(data, ms), key) == Item(data, key)
  {
    if ms != [] {
      WriteKeysUntouched(data, ms[..|ms| - 1], key);
    }
  }

  /** The key name of the last model with a key and that id holds its key. */
  lemma {:induction false} WriteKeysLast(data: map<string, Stored>, ms: seq<Model>, j: nat)
    requires j < |ms| && ms[j].apiKey != ""
    requires forall l :: j < l < |ms| && ms[l].apiKey != "" ==> ApiKeyName(ms[l].id) != ApiKeyName(ms[j].id)
    ensures Item(WriteKeys(data, ms), ApiKeyName(ms[j].id)) == Some(Text(ms[j].apiKey))
  {
    var init := ms[..|ms| - 1];
    if j < |ms| - 1 {
      assert init[j] == ms[j];
      assert forall l :: j < l < |init| ==> init[l] == ms[l];
      WriteKeysLast(data, init, j);
    }
  }

  /** Save then load: a non-empty list with distinct ids comes back as its
      simplified records, and a non-empty selection comes back too, as long
      as no stale `${id}_api_key` is left for a model saved without a key. */
  lemma SaveThenLoad(data: map<string, Stored>, ms: seq<Model>, selected: string, savedAt: string)
    requires ms != []
    requires forall i, j :: 0 <= i < j < |ms| ==> ms[i].id != ms[j].id
    requires forall i :: 0 <= i < |ms| && ms[i].apiKey == "" ==> StoredApiKey(data, ms[i].id).None?
    ensures LoadedList(SaveData(data, ms, selected, savedAt)) == Some(Simplified(ms))
    ensures forall i :: 0 <= i < |ms| ==>
      WithStoredKey(SaveData(data, ms, selected, savedAt), Simplified(ms)[i]) == Simplified(ms)[i]
    ensures selected != "" ==> LoadedSelection(SaveData(data, ms, selected, savedAt)) == selected
  {
    var simple := Simplified(ms);
    var d1 := data[ModelsKey := ModelList(simple)][ListBackupKey := ModelList(simple)];
    var d := SaveData(data, ms, selected, savedAt);
    forall j | 0 <= j < |simple| && simple[j].apiKey != ""
      ensures ApiKeyName(simple[j].id) != ModelsKey
    {
      FixedKeysAreNotKeyNames(simple[j].id);
    }
    WriteKeysUntouched(d1, simple, ModelsKey);
    assert Item(d, ModelsKey) == Some(ModelList(simple)) by {
      assert ModelsKey != SettingsKey && ModelsKey != DefaultModelKey && ModelsKey != LastSavedKey;
    }
    forall i | 0 <= i < |ms|
      ensures WithStoredKey(d, simple[i]) == simple[i]
    {
      StoredKeyAfterSave(data, ms, selected, savedAt, i);
    }
    if selected != "" {
      assert Item(d, SettingsKey) == Some(Settings(selected)) by {
        assert SettingsKey != DefaultModelKey && SettingsKey != LastSavedKey;
      }
    }
  }

  /** After saving, the key name of model `i` holds its key, or what it
      held before when the model had none. */
  lemma StoredKeyAfterSave(data: map<string, Stored>, ms: seq<Model>, selected: string, savedAt: string, i: nat)
    requires i < |ms|
    requires forall a, b :: 0 <= a < b < |ms| ==> ms[a].id != ms[b].id
    requires ms[i].apiKey == "" ==> StoredApiKey(data, ms[i].id).None?
    ensures WithStoredKey(SaveData(data, ms, selected, savedAt), Simplified(ms)[i]) == Simplified(ms)[i]
  {
    var simple := Simplified(ms);
    var d1 := data[ModelsKey := ModelList(simple)][ListBackupKey := ModelList(simple)];
    var d := SaveData(data, ms, selected, savedAt);
    var key := ApiKeyName(ms[i].id);
    FixedKeysAreNotKeyNames(ms[i].id);
    forall l | 0 <= l < |simple| && l != i
      ensures ApiKeyName(simple[l].id) != key
    {
      assert ms[l].id != ms[i].id by {
        if l < i {
          assert ms[l].id != ms[i].id;
        } else {
          assert ms[i].id != ms[l].id;
        }
      }
      ApiKeyNameInjective(simple[l].id, ms[i].id);
    }
    if ms[i].apiKey != "" {
      WriteKeysLast(d1, simple, i);
    } else {
      WriteKeysUntouched(d1, simple, key);
    }
    assert Item(d, key) == Item(WriteKeys(d1, simple), key);
  }
}
