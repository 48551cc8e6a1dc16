/**
 * The device's key-value store (AsyncStorage) and the session record the
 * login and registration screens keep in it.
 */
module Session {
  import opened Js

  /** The record stored under `'userInfo'`: `{ token, userId, email }`. */
  datatype UserInfo = UserInfo(token: JsValue, userId: JsValue, email: JsValue)

  /**
   * A stored string. `Record` is the JSON text of a session record (its
   * encoding and decoding are taken to be exact inverses); `Text` is any
   * other string, such as a value some other part of the app keeps under
   * `'authToken'`.
   */
  datatype Stored = Record(info: UserInfo) | Text(text: string)

  type Storage = map<string, Stored>

  const UserInfoKey: string := "userInfo"
  const AuthTokenKey: string := "authToken"

  /** `getItem(key)`: the stored string, or null. */
  function GetItem(s: Storage, key: string): (v: Option<Stored>)
    ensures v.Some? <==> key in s
    ensures v.Some? ==> v.value == s[key]
  {
    if key in s then Some(s[key]) else None
  }

  /** `if (await getItem(key))`: a JSON record is never empty; other text is truthy when non-empty. */
  predicate StoredTruthy(v: Option<Stored>) {
    match v
    case None => false
    case Some(Record(_)) => true
    case Some(Text(t)) => t != ""
  }

  /** What a screen's `loadToken` finds under `'userInfo'`. */
  datatype LoadedUserInfo = NoUserInfo | Loaded(info: UserInfo) | Unreadable

  /**
   * `getItem('userInfo')` followed, when the value is truthy, by `JSON.parse`.
   * Text that is not a session record is reported as unreadable (the model
   * does not parse JSON).
   */
  function LoadUserInfo(s: Storage): (r: LoadedUserInfo)
    ensures r.NoUserInfo? <==> !StoredTruthy(GetItem(s, UserInfoKey))
    ensures r.Loaded? <==> UserInfoKey in s && s[UserInfoKey].Record?
    ensures r.Loaded? ==> r.info == s[UserInfoKey].info
  {
    match GetItem(s, UserInfoKey)
    case None => NoUserInfo
    case Some(Record(info)) => Loaded(info)
    case Some(Text(t)) => if t == "" then NoUserInfo else Unreadable
  }

  /** The startup check: logged in exactly when a truthy value is stored under `'authToken'`. */
  predicate LoggedInAtStartup(s: Storage) {
    StoredTruthy(GetItem(s, AuthTokenKey))
  }

  /** The navigator's initial route for a given storage content. */
  function StartupRoute(s: Storage): (route: string)
    ensures route == "Home" || route == "Login"
    ensures route == "Home" <==> LoggedInAtStartup(s)
  {
    if LoggedInAtStartup(s) then "Home" else "Login"
  }

  /** Writing the session record never changes which route the app starts on. */
  lemma SessionWriteKeepsStartupRoute(s: Storage, info: UserInfo)
    ensures StartupRoute(s[UserInfoKey := Record(info)]) == StartupRoute(s)
  {
    assert UserInfoKey != AuthTokenKey;
    assert GetItem(s[UserInfoKey := Record(info)], AuthTokenKey) == GetItem(s, AuthTokenKey);
  }

  /** A stored session record alone never makes the app start logged in. */
  lemma SessionRecordAloneIsLoggedOut(info: UserInfo)
    ensures StartupRoute(map[UserInfoKey := Record(info)]) == "Login"
  {
    assert UserInfoKey != AuthTokenKey;
  }

  /** Removing `'authToken'` makes the next start go to Login. */
  lemma LogoutStartsAtLogin(s: Storage)
    ensures StartupRoute(s - {AuthTokenKey}) == "Login"
  {
  }

  /** Removing `'authToken'` keeps the session record, and every other key, as it was. */
  lemma LogoutKeepsSessionRecord(s: Storage)
    ensures LoadUserInfo(s - {AuthTokenKey}) == LoadUserInfo(s)
    ensures forall k :: k in s && k != AuthTokenKey ==> k in s - {AuthTokenKey} && (s - {AuthTokenKey})[k] == s[k]
  {
    assert UserInfoKey != AuthTokenKey;
    assert GetItem(s - {AuthTokenKey}, UserInfoKey) == GetItem(s, UserInfoKey);
  }

  /** A written session record is read back unchanged. */
  lemma SaveThenLoad(s: Storage, info: UserInfo)
    ensures LoadUserInfo(s[UserInfoKey := Record(info)]) == Loaded(info)
  {
  }
}
