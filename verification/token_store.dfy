/** The session store (`data/auth/TokenStore.kt`, implemented by
    `data/auth/EncryptedTokenStore.kt`): the bearer token and a cached copy of
    the signed-in parent, kept in a key-value preference file. The file is an
    in-memory map here; encryption and the asynchronous disk write are not
    part of this model. */
module Session {
  import opened Wrappers

  /** A preference value: the store writes strings and one integer. */
  datatype Pref = Str(s: string) | Int(i: int)

  datatype Store = Store(prefs: map<string, Pref>)

  datatype CurrentUser = CurrentUser(id: int, name: string, email: string)

  const KeyToken: string := "access_token"
  const KeyUserId: string := "current_user_id"
  const KeyUserName: string := "current_user_name"
  const KeyUserEmail: string := "current_user_email"

  /** The id value `getInt` falls back to, which `getUser` also treats as
      "no user". */
  const NoUserId: int := -1

  const Empty: Store := Store(map[])

  /** Every key holds the kind of value the store writes under it, so the
      typed reads below never meet a value of the wrong kind. */
  predicate Valid(st: Store) {
    && (KeyToken in st.prefs ==> st.prefs[KeyToken].Str?)
    && (KeyUserId in st.prefs ==> st.prefs[KeyUserId].Int?)
    && (KeyUserName in st.prefs ==> st.prefs[KeyUserName].Str?)
    && (KeyUserEmail in st.prefs ==> st.prefs[KeyUserEmail].Str?)
  }

  /** `getString(key, null)`. */
  function GetString(st: Store, key: string): Option<string> {
    if key in st.prefs && st.prefs[key].Str? then Some(st.prefs[key].s) else None
  }

  /** `getToken`: the saved token, if any. */
  function GetToken(st: Store): Option<string> {
    GetString(st, KeyToken)
  }

  /** `getUser`: a user only when the id key exists, the id is not -1, and
      both name and email are present and non-empty. */
  function GetUser(st: Store): (r: Option<CurrentUser>)
    ensures KeyUserId !in st.prefs ==> r.None?
    ensures r.Some? ==> r.value.id != NoUserId && r.value.name != [] && r.value.email != []
    ensures r.Some? ==> && st.prefs[KeyUserId] == Int(r.value.id)
                        && GetString(st, KeyUserName) == Some(r.value.name)
                        && GetString(st, KeyUserEmail) == Some(r.value.email)
  {
    if KeyUserId !in st.prefs then None
    else
      var id := if st.prefs[KeyUserId].Int? then st.prefs[KeyUserId].i else NoUserId;
      var name := GetString(st, KeyUserName);
      var email := GetString(st, KeyUserEmail);
      if id != NoUserId && name.Some? && name.value != [] && email.Some? && email.value != []
      then Some(CurrentUser(id, name.value, email.value))
      else None
  }

  /** `saveToken`: the token reads back; the cached user is untouched. */
  function SaveToken(st: Store, token: string): (r: Store)
    ensures GetToken(r) == Some(token)
    ensures GetUser(r) == GetUser(st)
    ensures Valid(st) ==> Valid(r)
  {
    Store(st.prefs[KeyToken := Str(token)])
  }

  /** `clearToken`: no token afterwards; the cached user is untouched. */
  function ClearToken(st: Store): (r: Store)
    ensures GetToken(r) == None
    ensures GetUser(r) == GetUser(st)
    ensures Valid(st) ==> Valid(r)
  {
    Store(st.prefs - {KeyToken})
  }

  /** `saveUser`: all three keys are written, but the user reads back only
      when the id is not -1 and the name and email are non-empty. The token
      is untouched. */
  function SaveUser(st: Store, id: int, name: string, email: string): (r: Store)
    ensures GetToken(r) == GetToken(st)
    ensures KeyUserId in r.prefs && KeyUserName in r.prefs && KeyUserEmail in r.prefs
    ensures GetUser(r).Some? <==> id != NoUserId && name != [] && email != []
    ensures GetUser(r).Some? ==> GetUser(r).value == CurrentUser(id, name, email)
    ensures Valid(st) ==> Valid(r)
  {
    Store(st.prefs[KeyUserId := Int(id)][KeyUserName := Str(name)][KeyUserEmail := Str(email)])
  }

  /** `clearUser`: the three user keys are gone; the token is untouched. */
  function ClearUser(st: Store): (r: Store)
    ensures GetUser(r) == None
    ensures KeyUserId !in r.prefs && KeyUserName !in r.prefs && KeyUserEmail !in r.prefs
    ensures GetToken(r) == GetToken(st)
    ensures Valid(st) ==> Valid(r)
  {
    Store(st.prefs - {KeyUserId, KeyUserName, KeyUserEmail})
  }

  /** `clearSession`: neither a token nor a user remains. */
  function ClearSession(st: Store): (r: Store)
    ensures GetToken(r) == None && GetUser(r) == None
    ensures Valid(st) ==> Valid(r)
  {
    ClearUser(ClearToken(st))
  }

  /** A later `saveToken` replaces an earlier one completely. */
  lemma SaveTokenOverwrites(st: Store, a: string, b: string)
    ensures SaveToken(SaveToken(st, a), b) == SaveToken(st, b)
  {
    assert SaveToken(SaveToken(st, a), b).prefs == SaveToken(st, b).prefs;
  }

  /** A later `saveUser` replaces an earlier one completely. */
  lemma SaveUserOverwrites(st: Store, id1: int, n1: string, e1: string, id2: int, n2: string, e2: string)
    ensures SaveUser(SaveUser(st, id1, n1, e1), id2, n2, e2) == SaveUser(st, id2, n2, e2)
  {
    assert SaveUser(SaveUser(st, id1, n1, e1), id2, n2, e2).prefs == SaveUser(st, id2, n2, e2).prefs;
  }

  /** The user-facing session after a sign-in that saved both parts: exactly
      the new token and, when valid, the new user; nothing of the earlier
      session can be read back. */
  lemma FreshSession(st: Store, token: string, id: int, name: string, email: string)
    ensures var r := SaveUser(SaveToken(ClearSession(st), token), id, name, email);
      && GetToken(r) == Some(token)
      && (GetUser(r).Some? ==> GetUser(r).value == CurrentUser(id, name, email))
      && r.prefs[KeyToken] == Str(token)
      && r.prefs[KeyUserId] == Int(id)
      && r.prefs[KeyUserName] == Str(name)
      && r.prefs[KeyUserEmail] == Str(email)
  {
  }
}
