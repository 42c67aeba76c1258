/** The browser's `localStorage` as the cleanup, storage and model-settings
    code use it: an ordered list of distinct keys, `key(i)` reading them by
    index, and a value per key. What a value is depends on the component; the
    JSON text stored in the browser is abstracted into that value. */
module KeyStore {
  import opened JsValue

  predicate Distinct(keys: seq<string>) {
    forall i, j :: 0 <= i < j < |keys| ==> keys[i] != keys[j]
  }

  /** `keys` with `key` taken out. */
  function Without(keys: seq<string>, key: string): (r: seq<string>)
    ensures forall k :: k in r <==> k in keys && k != key
    ensures Distinct(keys) ==> Distinct(r)
  {
    if keys == [] then []
    else
      var rest := Without(keys[1..], key);
      assert Distinct(keys) ==> Distinct(keys[1..]) && keys[0] !in keys[1..];
      (if keys[0] == key then [] else [keys[0]]) + rest
  }

  /** `keys` after `setItem(key, ...)`: a new key is appended, an existing
      one keeps its place. */
  function WithKey(keys: seq<string>, key: string): (r: seq<string>)
    ensures forall k :: k in r <==> k in keys || k == key
    ensures Distinct(keys) ==> Distinct(r)
    ensures |r| >= |keys| && r[..|keys|] == keys
  {
    if key in keys then keys else keys + [key]
  }

  /** In a list of distinct keys, removing the key at index `i` closes the
      gap at `i` and leaves the other indices below `i` as they were. */
  lemma {:induction false} WithoutAt(keys: seq<string>, i: nat)
    requires Distinct(keys) && i < |keys|
    ensures Without(keys, keys[i]) == keys[..i] + keys[i + 1..]
  {
    if i == 0 {
      assert keys[i] !in keys[1..];
      WithoutAbsent(keys[1..], keys[0]);
    } else {
      assert keys[1..][i - 1] == keys[i];
      WithoutAt(keys[1..], i - 1);
      assert keys[1..][..i - 1] + keys[1..][i..] == keys[1..i] + keys[i + 1..];
      assert keys[..i] == [keys[0]] + keys[1..i];
    }
  }

  lemma {:induction false} WithoutAbsent(keys: seq<string>, key: string)
    requires key !in keys
    ensures Without(keys, key) == keys
  {
    if keys != [] {
      assert key !in keys[1..];
      WithoutAbsent(keys[1..], key);
    }
  }

  class Store<V> {
    var keys: seq<string>
    var data: map<string, V>

    /** Every key is listed once, and exactly the listed keys hold a value. */
    ghost predicate Valid()
      reads this
    {
      Distinct(keys) && forall k :: k in data <==> k in keys
    }

    constructor ()
      ensures Valid() && keys == [] && data == map[]
    {
      keys := [];
      data := map[];
    }

    /** `localStorage.getItem(key)`, `None` standing for `null`. */
    function GetItem(key: string): (r: Option<V>)
      reads this
      ensures r.Some? <==> key in data
      ensures r.Some? ==> r.value == data[key]
    {
      if key in data then Some(data[key]) else None
    }

    /** `localStorage.setItem(key, value)`: a new key is listed last, an
        existing one keeps its place. */
    method SetItem(key: string, value: V)
      requires Valid()
      modifies this
      ensures Valid()
      ensures data == old(data)[key := value]
      ensures keys == WithKey(old(keys), key)
    {
      if key !in keys {
        keys := keys + [key];
      }
      data := data[key := value];
    }

    /** `localStorage.removeItem(key)` */
    method RemoveItem(key: string)
      requires Valid()
      modifies this
      ensures Valid()
      ensures data == old(data) - {key}
      ensures keys == Without(old(keys), key)
    {
      keys := Without(keys, key);
      data := data - {key};
    }

    /** `localStorage.removeItem(localStorage.key(i))` */
    method RemoveAt(i: nat)
      requires Valid() && i < |keys|
      modifies this
      ensures Valid()
      ensures data == old(data) - {old(keys)[i]}
      ensures keys == old(keys)[..i] + old(keys)[i + 1..]
    {
      WithoutAt(keys, i);
      RemoveItem(keys[i]);
    }
  }
}
