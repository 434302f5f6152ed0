/**
 * The authentication slice of the frontend store: the in-memory state
 * (`user`, `isLoggedIn`), its two reducers, and the copy of that state kept
 * in the browser's `localStorage` under the keys "user" and "loginStatus",
 * from which the initial state is read when the page loads.
 */
module AuthSlice {
  import opened Wrappers
  import opened JsModel

  datatype AuthState = AuthState(user: JsValue, isLoggedIn: JsValue)

  const UserKey := "user"
  const LoginStatusKey := "loginStatus"

  /**
   * What `localStorage.setItem(key, JSON.stringify(v))` leaves under a key:
   * the JSON text of a value, or the text "undefined" when `v` itself is
   * `undefined` (`JSON.stringify` then returns `undefined`, which `setItem`
   * stores as that text).
   */
  datatype StoredText = JsonText(value: JsValue) | UndefinedText

  type Storage = map<string, StoredText>

  /** No `undefined` anywhere inside: a value that JSON represents as it is. */
  predicate JsonSafe(v: JsValue) {
    match v
    case Undefined => false
    case Array(elements) => forall e | e in elements :: JsonSafe(e)
    case Object(props) => forall p | p in props :: JsonSafe(p.value)
    case _ => true
  }

  /**
   * `JSON.parse(JSON.stringify(v))` for a `v` other than `undefined`:
   * properties holding `undefined` are dropped, array slots holding it become `null`.
   */
  function Normalize(v: JsValue): JsValue
    decreases v
  {
    match v
    case Array(elements) => Array(NormalizeElements(elements))
    case Object(props) => Object(NormalizeProps(props))
    case _ => v
  }

  function NormalizeElements(elements: seq<JsValue>): seq<JsValue>
    decreases elements
  {
    if elements == [] then []
    else [if elements[0].Undefined? then Null else Normalize(elements[0])] + NormalizeElements(elements[1..])
  }

  function NormalizeProps(props: seq<Prop>): seq<Prop>
    decreases props
  {
    if props == [] then []
    else
      assert props[0] in props;
      (if props[0].value.Undefined? then [] else [Prop(props[0].key, Normalize(props[0].value))])
      + NormalizeProps(props[1..])
  }

  /** `JSON.stringify(v)` as `setItem` stores it. */
  function Serialize(v: JsValue): StoredText {
    if v.Undefined? then UndefinedText else JsonText(Normalize(v))
  }

  /**
   * `JSON.parse(localStorage.getItem(key)!)`: a missing key reads as `null`,
   * which parses to `null`; the stored text "undefined" makes `JSON.parse`
   * throw, shown as `None`.
   */
  function ReadKey(storage: Storage, key: string): (r: Option<JsValue>)
    ensures key !in storage ==> r == Some(Null)
    ensures r.None? <==> key in storage && storage[key].UndefinedText?
  {
    if key !in storage then Some(Null)
    else match storage[key]
      case JsonText(v) => Some(v)
      case UndefinedText => None
  }

  /** `a || b` */
  function Or(a: JsValue, b: JsValue): (r: JsValue)
    ensures Truthy(a) ==> r == a
    ensures !Truthy(a) ==> r == b
  {
    if Truthy(a) then a else b
  }

  /**
   * The slice's initial state: `user` is the stored user or `null`, and
   * `isLoggedIn` the stored login status or `false`. `None` when reading
   * either key throws, which stops the module from loading.
   */
  function InitialState(storage: Storage): (r: Option<AuthState>)
    ensures r.Some? <==> ReadKey(storage, UserKey).Some? && ReadKey(storage, LoginStatusKey).Some?
    ensures r.Some? ==> r.value.user == (if Truthy(ReadKey(storage, UserKey).value) then ReadKey(storage, UserKey).value else Null)
    ensures r.Some? ==> r.value.isLoggedIn == (if Truthy(ReadKey(storage, LoginStatusKey).value) then ReadKey(storage, LoginStatusKey).value else Bool(false))
    ensures UserKey !in storage && LoginStatusKey !in storage ==> r == Some(AuthState(Null, Bool(false)))
  {
    match ReadKey(storage, UserKey)
    case None => None
    case Some(user) =>
      match ReadKey(storage, LoginStatusKey)
      case None => None
      case Some(status) => Some(AuthState(Or(user, Null), Or(status, Bool(false))))
  }

  /** The slice's state together with what `localStorage` holds. */
  datatype Session = Session(state: AuthState, storage: Storage)

  /** `setUserCredentials(payload)`: logged in as `payload`, and both keys written. */
  function SetUserCredentialsStep(s: Session, payload: JsValue): (r: Session)
    ensures r.state.isLoggedIn == Bool(true) && r.state.user == payload
    ensures r.storage.Keys == s.storage.Keys + {UserKey, LoginStatusKey}
    ensures forall k :: k in s.storage && k != UserKey && k != LoginStatusKey ==> r.storage[k] == s.storage[k]
  {
    Session(AuthState(payload, Bool(true)),
            s.storage[LoginStatusKey := Serialize(Bool(true))][UserKey := Serialize(payload)])
  }

  /** `logoutUser()`: logged out with no user, and only the login status removed from storage. */
  function LogoutUserStep(s: Session): (r: Session)
    ensures r.state == AuthState(Null, Bool(false))
    ensures r.storage.Keys == s.storage.Keys - {LoginStatusKey}
    ensures forall k :: k in r.storage ==> r.storage[k] == s.storage[k]
  {
    Session(AuthState(Null, Bool(false)), s.storage - {LoginStatusKey})
  }

  /** The store holding the slice; each reducer updates the state and then `localStorage`. */
  class AuthStore {
    var state: AuthState
    var storage: Storage

    function Snapshot(): Session
      reads this
    {
      Session(state, storage)
    }

    constructor (initial: AuthState, saved: Storage)
      ensures Snapshot() == Session(initial, saved)
    {
      state := initial;
      storage := saved;
    }

    method SetUserCredentials(payload: JsValue)
      modifies this
      ensures Snapshot() == SetUserCredentialsStep(old(Snapshot()), payload)
    {
      state := state.(isLoggedIn := Bool(true));
      state := state.(user := payload);
      storage := storage[LoginStatusKey := Serialize(state.isLoggedIn)];
      storage := storage[UserKey := Serialize(state.user)];
    }

    method LogoutUser()
      modifies this
      ensures Snapshot() == LogoutUserStep(old(Snapshot()))
    {
      state := state.(isLoggedIn := Bool(false));
      state := state.(user := Null);
      storage := storage - {LoginStatusKey};
    }
  }

  /** Loading the page: the store starts from `InitialState`, or loading fails when that throws. */
  method Load(saved: Storage) returns (r: Option<AuthStore>)
    ensures r.None? <==> InitialState(saved).None?
    ensures r.Some? ==> fresh(r.value) && r.value.Snapshot() == Session(InitialState(saved).value, saved)
  {
    match InitialState(saved)
    case None => r := None;
    case Some(initial) =>
      var store := new AuthStore(initial, saved);
      r := Some(store);
  }

  /** A value without `undefined` inside survives the JSON round trip unchanged. */
  lemma {:induction false} NormalizeSafe(v: JsValue)
    requires JsonSafe(v)
    ensures Normalize(v) == v
    decreases v
  {
    match v
    case Array(elements) => NormalizeSafeElements(elements);
    case Object(props) => NormalizeSafeProps(props);
    case _ =>
  }

  lemma {:induction false} NormalizeSafeElements(elements: seq<JsValue>)
    requires forall e | e in elements :: JsonSafe(e)
    ensures NormalizeElements(elements) == elements
    decreases elements
  {
    if elements != [] {
      assert elements[0] in elements;
      NormalizeSafe(elements[0]);
      NormalizeSafeElements(elements[1..]);
      assert elements == [elements[0]] + elements[1..];
    }
  }

  lemma {:induction false} NormalizeSafeProps(props: seq<Prop>)
    requires forall p | p in props :: JsonSafe(p.value)
    ensures NormalizeProps(props) == props
    decreases props
  {
    if props != [] {
      assert props[0] in props;
      NormalizeSafe(props[0].value);
      NormalizeSafeProps(props[1..]);
      assert props == [props[0]] + props[1..];
    }
  }

  /** JSON keeps a value's truthiness: objects and arrays stay objects and arrays, primitives stay as they are. */
  lemma NormalizeKeepsTruthiness(v: JsValue)
    ensures Truthy(Normalize(v)) == Truthy(v)
  {
  }

  /**
   * Reloading after `setUserCredentials(payload)` logs in again with the
   * payload as JSON returns it (or `null` when that is falsy), except that an
   * `undefined` payload leaves the text "undefined" under "user" and the reload throws.
   */
  lemma ReloadAfterSetUserCredentials(s: Session, payload: JsValue)
    ensures InitialState(SetUserCredentialsStep(s, payload).storage) ==
      if payload.Undefined? then None
      else Some(AuthState(if Truthy(payload) then Normalize(payload) else Null, Bool(true)))
  {
    var after := SetUserCredentialsStep(s, payload).storage;
    assert after[UserKey] == Serialize(payload);
    assert after[LoginStatusKey] == JsonText(Bool(true));
    NormalizeKeepsTruthiness(payload);
  }

  /** For a JSON payload that is an object, an array or `null`, reloading reproduces exactly the state `setUserCredentials` left. */
  lemma ReloadReproducesLogin(s: Session, payload: JsValue)
    requires JsonSafe(payload) && (Truthy(payload) || payload.Null?)
    ensures InitialState(SetUserCredentialsStep(s, payload).storage) == Some(SetUserCredentialsStep(s, payload).state)
  {
    ReloadAfterSetUserCredentials(s, payload);
    NormalizeSafe(payload);
  }

  /** Reloading after `logoutUser()` reads `isLoggedIn` as false but still reads whatever user was stored. */
  lemma ReloadAfterLogout(s: Session)
    ensures InitialState(LogoutUserStep(s).storage) ==
      match ReadKey(s.storage, UserKey)
      case None => None
      case Some(user) => Some(AuthState(if Truthy(user) then user else Null, Bool(false)))
  {
    var after := LogoutUserStep(s).storage;
    assert ReadKey(after, UserKey) == ReadKey(s.storage, UserKey);
    assert ReadKey(after, LoginStatusKey) == Some(Null);
  }

  /**
   * Logging in as a user object and then out leaves `user` null in memory,
   * yet a reload restores that user object (with `isLoggedIn` false):
   * the reloaded state differs from the state before the reload.
   */
  lemma LogoutThenReloadRestoresUser(s: Session, user: JsValue)
    requires user.Object? && JsonSafe(user)
    ensures LogoutUserStep(SetUserCredentialsStep(s, user)).state.user == Null
    ensures InitialState(LogoutUserStep(SetUserCredentialsStep(s, user)).storage) == Some(AuthState(user, Bool(false)))
  {
    var loggedIn := SetUserCredentialsStep(s, user);
    NormalizeSafe(user);
    assert ReadKey(loggedIn.storage, UserKey) == Some(user);
    ReloadAfterLogout(loggedIn);
  }

  /** Dispatching `setUserCredentials` twice with the same payload is the same as once. */
  lemma SetUserCredentialsIdempotent(s: Session, payload: JsValue)
    ensures SetUserCredentialsStep(SetUserCredentialsStep(s, payload), payload) == SetUserCredentialsStep(s, payload)
  {
  }

  /** Dispatching `logoutUser` twice is the same as once. */
  lemma LogoutUserIdempotent(s: Session)
    ensures LogoutUserStep(LogoutUserStep(s)) == LogoutUserStep(s)
  {
  }
}
