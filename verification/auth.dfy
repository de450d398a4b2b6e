/**
  The session state of src/stores/auth.ts: a token and a user mirrored to two
  `localStorage` keys, loaded once per process.
 */
module Auth {
  import opened Wrappers
  import opened Persistence

  const TokenKey: string := "auth_token"
  const UserKey: string := "auth_user"

  datatype AuthUser = AuthUser(username: string)

  datatype AuthState = AuthState(token: Option<string>, user: Option<AuthUser>, initialized: bool, storage: Storage)

  type UserCodec = Codec<AuthUser>

  /** The state a new process starts from over the given storage: nothing loaded yet, not authenticated. */
  function Fresh(storage: Storage): (r: AuthState)
    ensures !r.initialized && !IsAuthenticated(r) && r.user.None? && r.storage == storage
  {
    AuthState(None, None, false, storage)
  }

  /** JavaScript truthiness of a nullable string: `null` and `''` are falsy. */
  predicate Truthy(t: Option<string>) {
    t.Some? && t.value != ""
  }

  /** The `isAuthenticated` getter: `!!token`, false for both `null` and the empty token. */
  predicate IsAuthenticated(s: AuthState): (r: bool)
    ensures r ==> s.token.Some?
    ensures r <==> s.token.Some? && |s.token.value| > 0
  {
    Truthy(s.token)
  }

  /** Storage holds the token exactly when it is truthy, and the user exactly when there is one. */
  ghost predicate Mirrored(s: AuthState, codec: UserCodec) {
    && (TokenKey in s.storage <==> Truthy(s.token))
    && (Truthy(s.token) ==> s.storage[TokenKey] == s.token.value)
    && (UserKey in s.storage <==> s.user.Some?)
    && (s.user.Some? ==> s.storage[UserKey] == codec.encode(s.user.value))
  }

  /**
    `initialize`: a no-op once initialised. Otherwise the token becomes the
    stored token (null when absent); the user becomes the parsed stored user
    (null when the entry is absent or empty), and stays as it was when parsing
    fails. Either way the store ends initialised and storage is only read.
   */
  function Initialize(s: AuthState, codec: UserCodec): (r: AuthState)
    ensures r.initialized
    ensures r.storage == s.storage
    ensures s.initialized ==> r == s
    ensures !s.initialized ==> r.token == Lookup(s.storage, TokenKey)
    ensures !s.initialized && (UserKey !in s.storage || s.storage[UserKey] == "") ==> r.user.None?
    ensures !s.initialized && UserKey in s.storage && s.storage[UserKey] != "" ==>
      match codec.decode(s.storage[UserKey])
      case Some(u) => r.user == Some(u)
      case None => r.user == s.user
  {
    if s.initialized then s
    else
      var token := Lookup(s.storage, TokenKey);
      var user :=
        if UserKey in s.storage && s.storage[UserKey] != "" then
          match codec.decode(s.storage[UserKey])
          case Some(u) => Some(u)
          case None => s.user
        else None;
      AuthState(token, user, true, s.storage)
  }

  /** `setAuth`: records the token and the user and mirrors them to storage, removing the entries for falsy values. */
  function SetAuth(s: AuthState, codec: UserCodec, token: Option<string>, user: Option<AuthUser>): (r: AuthState)
    ensures r.token == token && r.user == user && r.initialized == s.initialized
    ensures Mirrored(r, codec)
    ensures forall k :: k != TokenKey && k != UserKey ==> Lookup(r.storage, k) == Lookup(s.storage, k)
  {
    var withToken := if Truthy(token) then s.storage[TokenKey := token.value] else s.storage - {TokenKey};
    var withUser := if user.Some? then withToken[UserKey := codec.encode(user.value)] else withToken - {UserKey};
    AuthState(token, user, s.initialized, withUser)
  }

  /** `logout`: forgets the session in memory and in storage. */
  function Logout(s: AuthState, codec: UserCodec): (r: AuthState)
    ensures r.token.None? && r.user.None? && r.initialized == s.initialized
    ensures TokenKey !in r.storage && UserKey !in r.storage
    ensures !IsAuthenticated(r)
    ensures forall k :: k != TokenKey && k != UserKey ==> Lookup(r.storage, k) == Lookup(s.storage, k)
  {
    SetAuth(s, codec, None, None)
  }

  /** The serialiser law the session round trip assumes can be met: tag the user name with a marker character. */
  lemma LawfulUserCodecExists()
    ensures exists c: UserCodec :: Lawful(c)
  {
    var c: UserCodec := Codec(
      (u: AuthUser) => "u" + u.username,
      (t: string) => if |t| > 0 && t[0] == 'u' then Some(AuthUser(t[1..])) else None);
    forall u: AuthUser ensures RoundTrips(c, u) {
      assert ("u" + u.username)[1..] == u.username;
    }
    assert Lawful(c);
  }

  /** Initialising twice is initialising once. */
  lemma InitializeIdempotent(s: AuthState, codec: UserCodec)
    ensures Initialize(Initialize(s, codec), codec) == Initialize(s, codec)
  {
  }

  /** After `setAuth` or `logout`, being authenticated is the same as having a token in storage. */
  lemma AuthenticatedIffTokenStored(s: AuthState, codec: UserCodec, token: Option<string>, user: Option<AuthUser>)
    ensures IsAuthenticated(SetAuth(s, codec, token, user)) <==> TokenKey in SetAuth(s, codec, token, user).storage
    ensures IsAuthenticated(Logout(s, codec)) <==> TokenKey in Logout(s, codec).storage
  {
  }

  /**
    A session recorded with `setAuth` is what a new process loads: the token
    comes back when it was truthy (an empty token comes back as null), and the
    user comes back as it was.
   */
  lemma SetAuthThenReload(s: AuthState, codec: UserCodec, token: Option<string>, user: Option<AuthUser>)
    requires Lawful(codec)
    ensures var r := Initialize(Fresh(SetAuth(s, codec, token, user).storage), codec);
      && r.token == (if Truthy(token) then token else None)
      && r.user == user
      && (IsAuthenticated(r) <==> IsAuthenticated(SetAuth(s, codec, token, user)))
  {
    if user.Some? {
      assert RoundTrips(codec, user.value);
    }
  }

  /** A new process started after `logout` is not authenticated and has no user. */
  lemma LogoutThenReload(s: AuthState, codec: UserCodec)
    ensures var r := Initialize(Fresh(Logout(s, codec).storage), codec);
      r.token.None? && r.user.None? && !IsAuthenticated(r)
  {
  }
}
