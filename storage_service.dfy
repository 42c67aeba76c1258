/** `storage.service.js`: values kept in the key store with an expiry time,
    and the authentication token that is kept either raw (a JWT) or with an
    expiry. `Date.now()` is the parameter `now`. */
module Storage {
  import opened JsValue
  import opened KeyStore

  /** What a key holds. `Json(value, expiry)` is the text
      `JSON.stringify({value, expiry})` (`value` is `undefined` when it was
      left out, as in the `token_expiry` record); `Raw(text)` is a string
      stored as it is, that `JSON.parse` rejects. */
  datatype StoredItem = Json(value: Value, expiry: int) | Raw(text: string)

  /** `DEFAULT_TOKEN_EXPIRY`: one hour in milliseconds, the `expiryMs` of
      `setAuthToken` when the caller gives none. */
  const DefaultTokenExpiry: int := 60 * 60 * 1000

  const TokenKey := "token"
  const TokenExpiryKey := "token_expiry"
  const UserKey := "user"

  /** `!itemStr`: only the empty raw string is falsy. */
  predicate Present(item: Option<StoredItem>) {
    item.Some? && (item.value.Raw? ==> item.value.text != "")
  }

  /** The item is a parsed record whose expiry has passed (`now > item.expiry`). */
  predicate Expired(item: Option<StoredItem>, now: int) {
    item.Some? && item.value.Json? && now > item.value.expiry
  }

  /** What `getWithExpiry` returns for what the key holds. A raw string is
      returned as it is on each of the three paths that reach it: the
      `'eyJ'` test for the token, and both branches of the `catch`. */
  function ReadItem(item: Option<StoredItem>, now: int): Value {
    if !Present(item) then Null
    else match item.value
      case Raw(text) => Str(text)
      case Json(value, expiry) => if now > expiry then Null else value
  }

  /** `setWithExpiry` */
  method SetWithExpiry(store: Store<StoredItem>, key: string, value: Value, expiryMs: int, now: int)
    requires store.Valid()
    modifies store
    ensures store.Valid()
    ensures store.data == old(store.data)[key := Json(value, now + expiryMs)]
    ensures store.keys == WithKey(old(store.keys), key)
  {
    store.SetItem(key, Json(value, now + expiryMs));
  }

  /** `getWithExpiry`: an expired record is removed as it is read. */
  method GetWithExpiry(store: Store<StoredItem>, key: string, now: int) returns (r: Value)
    requires store.Valid()
    modifies store
    ensures store.Valid()
    ensures r == ReadItem(old(store.GetItem(key)), now)
    ensures Expired(old(store.GetItem(key)), now) ==>
      store.data == old(store.data) - {key} && store.keys == Without(old(store.keys), key)
    ensures !Expired(old(store.GetItem(key)), now) ==> store.data == old(store.data) && store.keys == old(store.keys)
  {
    var item := store.GetItem(key);
    if !Present(item) {
      return Null;
    }
    match item.value
    case Raw(text) =>
      r := Str(text);
    case Json(value, expiry) =>
      if now > expiry {
        store.RemoveItem(key);
        r := Null;
      } else {
        r := value;
      }
  }

  /** `isJwtToken`: a string starting with `eyJ` that `split('.')` cuts in
      three. */
  predicate IsJwtToken(v: Value) {
    v.Str? && StartsWith(v.s, "eyJ") && |Split(v.s, '.')| == 3
  }

  /** The text `getItem` returns for an item, as far as the token tests look
      at it: a record's JSON text begins with `{`. */
  predicate JwtItem(item: Option<StoredItem>) {
    item.Some? && item.value.Raw? && IsJwtToken(Str(item.value.text))
  }

  /** `setAuthToken`: a JWT is stored raw next to an expiry record, any
      other token through `setWithExpiry`. A new key is appended to the key
      order, an existing one keeps its place. */
  method SetAuthToken(store: Store<StoredItem>, token: Value, expiryMs: int, now: int)
    requires store.Valid()
    modifies store
    ensures store.Valid()
    ensures IsJwtToken(token) ==>
      store.data == old(store.data)[TokenKey := Raw(token.s)][TokenExpiryKey := Json(Undefined, now + expiryMs)]
    ensures !IsJwtToken(token) ==> store.data == old(store.data)[TokenKey := Json(token, now + expiryMs)]
    ensures store.keys == if IsJwtToken(token) then WithKey(WithKey(old(store.keys), TokenKey), TokenExpiryKey)
                          else WithKey(old(store.keys), TokenKey)
  {
    if IsJwtToken(token) {
      store.SetItem(TokenKey, Raw(token.s));
      store.SetItem(TokenExpiryKey, Json(Undefined, now + expiryMs));
    } else {
      SetWithExpiry(store, TokenKey, token, expiryMs, now);
    }
  }

  /** `setAuthToken(token)` without an `expiryMs`: the token expires one
      hour from now. */
  method SetAuthTokenDefault(store: Store<StoredItem>, token: Value, now: int)
    requires store.Valid()
    modifies store
    ensures store.Valid()
    ensures store.GetItem(TokenKey) ==
      Some(if IsJwtToken(token) then Raw(token.s) else Json(token, now + DefaultTokenExpiry))
    ensures IsJwtToken(token) ==> store.GetItem(TokenExpiryKey) == Some(Json(Undefined, now + DefaultTokenExpiry))
    ensures IsJwtToken(token) ==>
      store.data == old(store.data)[TokenKey := Raw(token.s)][TokenExpiryKey := Json(Undefined, now + DefaultTokenExpiry)]
    ensures !IsJwtToken(token) ==> store.data == old(store.data)[TokenKey := Json(token, now + DefaultTokenExpiry)]
    ensures store.keys == if IsJwtToken(token) then WithKey(WithKey(old(store.keys), TokenKey), TokenExpiryKey)
                          else WithKey(old(store.keys), TokenKey)
  {
    SetAuthToken(store, token, DefaultTokenExpiry, now);
  }

  /** How `getAuthToken` changes the store. */
  datatype Removal = KeepAll | RemoveToken | RemoveTokenAndExpiry

  /** What `getAuthToken` returns and removes, for the items under `token`
      and `token_expiry`. A JWT is checked against the expiry record only;
      an expiry text that does not parse leaves the token valid. */
  function AuthTokenRead(token: Option<StoredItem>, expiry: Option<StoredItem>, now: int): (Value, Removal) {
    if !Present(token) then (Null, KeepAll)
    else if JwtItem(token) then
      if Present(expiry) && Expired(expiry, now) then (Null, RemoveTokenAndExpiry)
      else (Str(token.value.text), KeepAll)
    else (ReadItem(token, now), if Expired(token, now) then RemoveToken else KeepAll)
  }

  /** `getAuthToken` */
  method GetAuthToken(store: Store<StoredItem>, now: int) returns (r: Value)
    requires store.Valid()
    modifies store
    ensures store.Valid()
    ensures r == AuthTokenRead(old(store.GetItem(TokenKey)), old(store.GetItem(TokenExpiryKey)), now).0
    ensures var removal := AuthTokenRead(old(store.GetItem(TokenKey)), old(store.GetItem(TokenExpiryKey)), now).1;
      && (removal == KeepAll ==> store.data == old(store.data) && store.keys == old(store.keys))
      && (removal == RemoveToken ==>
            store.data == old(store.data) - {TokenKey} && store.keys == Without(old(store.keys), TokenKey))
      && (removal == RemoveTokenAndExpiry ==>
            store.data == old(store.data) - {TokenKey} - {TokenExpiryKey}
            && store.keys == Without(Without(old(store.keys), TokenKey), TokenExpiryKey))
  {
    var token := store.GetItem(TokenKey);
    if !Present(token) {
      return Null;
    }
    if JwtItem(token) {
      var expiryData := store.GetItem(TokenExpiryKey);
      if Present(expiryData) && expiryData.value.Json? && now > expiryData.value.expiry {
        store.RemoveItem(TokenKey);
        store.RemoveItem(TokenExpiryKey);
        return Null;
      }
      return Str(token.value.text);
    }
    r := GetWithExpiry(store, TokenKey, now);
  }

  /** `clearAuthData` */
  method ClearAuthData(store: Store<StoredItem>)
    requires store.Valid()
    modifies store
    ensures store.Valid()
    ensures store.data == old(store.data) - {TokenKey} - {TokenExpiryKey} - {UserKey}
    ensures store.keys == Without(Without(Without(old(store.keys), TokenKey), TokenExpiryKey), UserKey)
  {
    store.RemoveItem(TokenKey);
    store.RemoveItem(TokenExpiryKey);
    store.RemoveItem(UserKey);
  }

  // ---------------------------------------------------------------------------

  /** A value stored with `setWithExpiry(key, v, ms)` at time `t` reads back
      as `v` up to time `t + ms`, and as `null` afterwards, when it is also
      removed. */
  lemma ExpiryRoundTrip(v: Value, t: int, ms: int, now: int)
    ensures now <= t + ms ==> ReadItem(Some(Json(v, t + ms)), now) == v
    ensures now > t + ms ==> ReadItem(Some(Json(v, t + ms)), now) == Null && Expired(Some(Json(v, t + ms)), now)
  {
  }

  /** A missing key reads as `null` and nothing is removed. */
  lemma MissingIsNull(now: int)
    ensures ReadItem(None, now) == Null && !Expired(None, now)
  {
  }

  /** `isJwtToken` holds exactly for the strings starting with `eyJ` that
      hold two dots. */
  lemma JwtDots(s: string)
    ensures IsJwtToken(Str(s)) <==> StartsWith(s, "eyJ") && CountChar(s, '.') == 2
  {
    SplitPieces(s, '.');
  }

  /** A JWT stored by `setAuthToken` at time `t` is returned verbatim up to
      `t + ms`; afterwards `getAuthToken` returns `null` and removes both
      keys. */
  lemma JwtRoundTrip(token: string, t: int, ms: int, now: int)
    requires IsJwtToken(Str(token))
    ensures now <= t + ms ==> AuthTokenRead(Some(Raw(token)), Some(Json(Undefined, t + ms)), now) == (Str(token), KeepAll)
    ensures now > t + ms ==> AuthTokenRead(Some(Raw(token)), Some(Json(Undefined, t + ms)), now) == (Null, RemoveTokenAndExpiry)
  {
    assert token != "" by {
      assert StartsWith(token, "eyJ");
    }
  }

  /** Any other token stored by `setAuthToken` behaves as a value stored
      with `setWithExpiry`. */
  lemma OtherTokenRoundTrip(token: Value, t: int, ms: int, now: int)
    ensures AuthTokenRead(Some(Json(token, t + ms)), None, now).0 == ReadItem(Some(Json(token, t + ms)), now)
    ensures AuthTokenRead(Some(Json(token, t + ms)), None, now).1 == if now > t + ms then RemoveToken else KeepAll
  {
  }

  /** A JWT stored raw without an expiry record never expires. */
  lemma JwtWithoutExpiry(token: string, now: int)
    requires IsJwtToken(Str(token))
    ensures AuthTokenRead(Some(Raw(token)), None, now) == (Str(token), KeepAll)
  {
    assert StartsWith(token, "eyJ");
  }
}
