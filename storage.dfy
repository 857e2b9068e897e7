/**
 * The browser's `localStorage` as a map from key to text, the JSON-typed
 * `storage` helpers over it, and the session (`jwt`) helpers built on them
 * (utils.js).
 */
module Storage {
  import opened Wrappers
  import opened Js
  import Json

  type Store = map<string, string>

  /** `localStorage.getItem(key)`; `None` is the `null` it returns for a missing key. */
  function GetItem(store: Store, key: string): (r: Option<string>)
    ensures r.Some? <==> key in store
    ensures r.Some? ==> r.value == store[key]
  {
    if key in store then Some(store[key]) else None
  }

  /** `localStorage.setItem(key, text)` */
  function SetItem(store: Store, key: string, text: string): Store
  {
    store[key := text]
  }

  /** `setItem` stores the text at the key and leaves every other key as it was. */
  lemma SetItemSpec(store: Store, key: string, text: string)
    ensures SetItem(store, key, text).Keys == store.Keys + {key}
    ensures SetItem(store, key, text)[key] == text
    ensures forall k :: k in store && k != key ==> SetItem(store, key, text)[k] == store[k]
  {
  }

  /** `localStorage.removeItem(key)` */
  function RemoveItem(store: Store, key: string): (r: Store)
    ensures r.Keys == store.Keys - {key}
    ensures forall k :: k in r ==> r[k] == store[k]
  {
    store - {key}
  }

  /**
   * The text `storage.set` writes: `JSON.stringify(value)`, which is
   * `undefined` for `undefined` and is then turned into the text "undefined".
   */
  function Encoded(value: Value): string {
    match Json.Stringify(value)
    case None => "undefined"
    case Some(text) => text
  }

  /** `storage.set(key, value)` */
  function Set(store: Store, key: string, value: Value): (r: Store)
    ensures r.Keys == store.Keys + {key}
    ensures forall k :: k in store && k != key ==> r[k] == store[k]
  {
    SetItem(store, key, Encoded(value))
  }

  /**
   * `storage.get(key, default)`: the default for a missing key or an empty
   * text, the parsed value otherwise, and the default again when the text
   * is not JSON.
   */
  function Get(store: Store, key: string, default: Value): (r: Value)
    ensures key !in store || store[key] == "" || Json.Parse(store[key]).None? ==> r == default
    ensures key in store && store[key] != "" && Json.Parse(store[key]).Some? ==> r == Json.Parse(store[key]).value
  {
    match GetItem(store, key)
    case None => default
    case Some(text) =>
      if text == "" then default
      else match Json.Parse(text)
        case None => default
        case Some(v) => v
  }

  /**
   * `JSON.parse(localStorage.getItem(key))`: a missing key is `null`, which
   * `JSON.parse` turns into the text "null" and reads back as `null`
   * (ParseItemSpec); `None` is the `SyntaxError` it throws, as for the
   * empty text.
   */
  function ParseItem(store: Store, key: string): (r: Option<Value>)
    ensures key !in store ==> r == Some(Null)
    ensures key in store ==> r == Json.Parse(store[key])
    ensures key in store && store[key] == "" ==> r == None
  {
    match GetItem(store, key)
    case None => Some(Null)
    case Some(text) => Json.Parse(text)
  }

  /** `ParseItem` is the parse of the stored text, with "null" for a missing key. */
  lemma ParseItemSpec(store: Store, key: string)
    ensures ParseItem(store, key) == Json.Parse(if key in store then store[key] else "null")
  {
    Json.StringifyParse(Null);
  }

  /** `storage.remove(key)` */
  function Remove(store: Store, key: string): (r: Store)
    ensures r.Keys == store.Keys - {key}
    ensures forall k :: k in r ==> r[k] == store[k]
  {
    RemoveItem(store, key)
  }

  /** `storage.clearAll()` */
  function ClearAll(store: Store): (r: Store)
    ensures |r| == 0
  {
    map[]
  }

  /**
   * `jwt.getToken()`, as written: the token read back through `storage.get`,
   * so a stored text that is not JSON, such as a raw JWT, reads as `null`.
   */
  function GetToken(store: Store): (r: Value)
    ensures r == Null <==> "token" !in store || store["token"] == "" || Json.Parse(store["token"]) in {None, Some(Null)}
    ensures r != Null ==> r == Json.Parse(store["token"]).value
  {
    Get(store, "token", Null)
  }

  /**
   * `jwt.isLoggedIn()`, as written: true exactly when a non-empty token is
   * stored, it is JSON, and the value it parses to is truthy.
   */
  function IsLoggedIn(store: Store): (r: bool)
    ensures r <==> "token" in store && store["token"] != "" && Json.Parse(store["token"]).Some? && Truthy(Json.Parse(store["token"]).value)
  {
    Truthy(GetToken(store))
  }

  /** The keys `jwt.logout()` removes. */
  const SessionKeys: set<string> := {"token", "user", "googleTokens"}

  /** `jwt.logout()` */
  function Logout(store: Store): (r: Store)
    ensures r.Keys == store.Keys - SessionKeys
    ensures forall k :: k in r ==> r[k] == store[k]
  {
    RemoveItem(RemoveItem(RemoveItem(store, "token"), "user"), "googleTokens")
  }

  // ------------------------------------------------------------------ lemmas

  /** What `storage.set` wrote, `storage.get` reads back, for every value but an object. */
  lemma SetGet(store: Store, key: string, value: Value, default: Value)
    requires !value.Object?
    ensures Get(Set(store, key, value), key, default) == if value.Undefined? then default else value
  {
    if value.Undefined? {
      UndefinedIsNotJson();
    } else {
      Json.StringifyParse(value);
      Json.StringifyNonEmpty(value);
    }
  }

  /** The text "undefined" that `storage.set` writes for `undefined` does not parse. */
  lemma UndefinedIsNotJson()
    ensures Json.Parse("undefined") == None
  {
    Json.ParseRejects("undefined");
  }

  /** `storage.set` on one key does not change what `storage.get` reads at another. */
  lemma SetGetOther(store: Store, key: string, other: string, value: Value, default: Value)
    requires other != key
    ensures Get(Set(store, key, value), other, default) == Get(store, other, default)
  {
  }

  /** `jwt.isLoggedIn()` after `storage.set('token', value)` is the truthiness of `value`. */
  lemma LoggedInAfterSet(store: Store, value: Value)
    requires !value.Object?
    ensures IsLoggedIn(Set(store, "token", value)) <==> Truthy(value)
  {
    SetGet(store, "token", value, Null);
  }

  /** After `jwt.logout()` nobody is logged in, and nothing but the three session keys changed. */
  lemma LogoutEndsSession(store: Store)
    ensures !IsLoggedIn(Logout(store))
    ensures forall k :: k !in SessionKeys ==> GetItem(Logout(store), k) == GetItem(store, k)
  {
  }

  /** A token that is not JSON text, such as a JWT. */
  const SampleJwt: string := "eyJhbGciOiJIUzI1NiJ9.eyJzdWIiOiIxIn0.c2ln"

  /**
   * Every page stores the server's token as raw text with
   * `localStorage.setItem('token', …)`, but `jwt.getToken` parses it as
   * JSON: a JWT is not JSON, so `jwt.isLoggedIn()` is false with a token stored.
   */
  lemma RawTokenNotLoggedIn(store: Store)
    ensures "token" in SetItem(store, "token", SampleJwt)
    ensures !IsLoggedIn(SetItem(store, "token", SampleJwt))
  {
    SampleJwtIsNotJson();
  }

  /** A raw token "0" is JSON for the number 0, which is falsy: not logged in, as written. */
  lemma RawZeroTokenNotLoggedIn(store: Store)
    ensures "token" in SetItem(store, "token", "0")
    ensures !IsLoggedIn(SetItem(store, "token", "0"))
  {
    Json.StringifyParseInt(0);
    assert IntToString(0) == "0";
  }

  lemma SampleJwtIsNotJson()
    ensures Json.Parse(SampleJwt) == None
  {
    Json.ParseRejects(SampleJwt);
  }

  // -------------------------------------------- the session as the pages keep it

  /** The corrected `jwt.getToken()`: the raw stored token, `null` when there is none. */
  function SessionToken(store: Store): (r: Value)
    ensures "token" !in store ==> r == Null
    ensures "token" in store ==> r == Str(store["token"])
  {
    match GetItem(store, "token")
    case None => Null
    case Some(text) => Str(text)
  }

  /** The corrected `jwt.isLoggedIn()`. */
  predicate LoggedIn(store: Store) {
    Truthy(SessionToken(store))
  }

  /** Logged in exactly when a non-empty token is stored. */
  lemma LoggedInIff(store: Store)
    ensures LoggedIn(store) <==> "token" in store && store["token"] != ""
  {
  }

  /** With the token stored raw, being logged in is exactly having stored a non-empty token. */
  lemma LoggedInAfterStore(store: Store, token: string)
    ensures LoggedIn(SetItem(store, "token", token)) <==> token != ""
  {
  }

  /** `jwt.logout()` ends the session in the corrected sense too. */
  lemma LogoutEndsCorrectedSession(store: Store)
    ensures !LoggedIn(Logout(store))
  {
  }

  /** The two readings agree on every token stored through `storage.set`. */
  lemma LoggedInAgreesOnJsonTokens(store: Store, token: string)
    ensures IsLoggedIn(Set(store, "token", Str(token))) <==> LoggedIn(SetItem(store, "token", token))
  {
    LoggedInAfterSet(store, Str(token));
  }

  /**
   * `localStorage` as one object the page shares: its items change in place
   * through `storage.set/remove/clearAll` and `jwt.logout`.
   */
  class LocalStorage {
    var items: Store

    constructor(initial: Store)
      ensures items == initial
    {
      items := initial;
    }

    method SetValue(key: string, value: Value)
      modifies this
      ensures items == Set(old(items), key, value)
    {
      items := Set(items, key, value);
    }

    method GetValue(key: string, default: Value) returns (v: Value)
      ensures v == Get(items, key, default)
    {
      v := Get(items, key, default);
    }

    method RemoveValue(key: string)
      modifies this
      ensures items == Remove(old(items), key)
    {
      items := Remove(items, key);
    }

    method Clear()
      modifies this
      ensures items == map[]
    {
      items := ClearAll(items);
    }

    method EndSession()
      modifies this
      ensures items == Logout(old(items))
    {
      items := Logout(items);
    }
  }
}
