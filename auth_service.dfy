/**
 * The session side of src/services/auth.service.ts: what each auth call
 * writes to or reads from local storage, and what it hands back to its
 * caller. The HTTP reply of each call is a parameter; JSON encoding of the
 * cached user is the `UserCodec` parameter.
 */
module AuthService {
  import opened Wrappers
  import opened Domain
  import opened Browser
  import opened ApiClient

  /** `JSON.stringify` / `JSON.parse` restricted to user records. */
  datatype UserCodec = UserCodec(stringify: User -> string, parse: string -> Option<User>)

  /** What JSON guarantees: an encoded user is never the empty string, and it decodes back to the same user. */
  ghost predicate ValidCodec(codec: UserCodec) {
    forall u: User :: codec.stringify(u) != "" && codec.parse(codec.stringify(u)) == Some(u)
  }

  /** What an HTTP call settles with: a reply whose `data` may be missing, or a thrown error. */
  datatype Reply<T> = Replied(data: Option<T>) | CallFailed(caught: Caught)

  datatype AuthTokens = AuthTokens(accessToken: string, refreshToken: string)
  datatype AuthResponse = AuthResponse(user: User, tokens: AuthTokens)

  /** What a service returns: its payload (`undefined` when the reply had no data) or the normalised error it throws. */
  type ServiceResult<T> = Result<Option<T>, ApiError>

  function Outcome<T>(reply: Reply<T>): (r: ServiceResult<T>)
    ensures reply.Replied? ==> r == Ok(reply.data)
    ensures reply.CallFailed? ==> r == Err(HandleApiError(reply.caught))
  {
    match reply
    case Replied(data) => Ok(data)
    case CallFailed(caught) => Err(HandleApiError(caught))
  }

  /** The storage after login or register: both tokens and the encoded user, when the reply carries data. */
  function SessionEffect(items: map<string, string>, reply: Reply<AuthResponse>, codec: UserCodec): map<string, string> {
    if reply.Replied? && reply.data.Some? then
      var resp := reply.data.value;
      StoreTokens(items, resp.tokens.accessToken, Some(resp.tokens.refreshToken))[UserKey := codec.stringify(resp.user)]
    else items
  }

  /** Shared body of `register` and `login`, which differ only in the endpoint they post to. */
  method AcceptSession(ls: LocalStorage, reply: Reply<AuthResponse>, codec: UserCodec) returns (r: ServiceResult<AuthResponse>)
    modifies ls
    ensures ls.items == SessionEffect(old(ls.items), reply, codec)
    ensures r == Outcome(reply)
  {
    if reply.CallFailed? {
      return Err(HandleApiError(reply.caught));
    }
    if reply.data.Some? {
      var resp := reply.data.value;
      SetTokens(ls, resp.tokens.accessToken, Some(resp.tokens.refreshToken));
      ls.SetItem(UserKey, codec.stringify(resp.user));
    }
    r := Ok(reply.data);
  }

  /** `register(data)`: post to `/auth/register` and keep the session it opens. */
  method Register(ls: LocalStorage, reply: Reply<AuthResponse>, codec: UserCodec) returns (r: ServiceResult<AuthResponse>)
    modifies ls
    ensures ls.items == SessionEffect(old(ls.items), reply, codec)
    ensures r == Outcome(reply)
  {
    r := AcceptSession(ls, reply, codec);
  }

  /** `login(credentials)`: post to `/auth/login` and keep the session it opens. */
  method Login(ls: LocalStorage, reply: Reply<AuthResponse>, codec: UserCodec) returns (r: ServiceResult<AuthResponse>)
    modifies ls
    ensures ls.items == SessionEffect(old(ls.items), reply, codec)
    ensures r == Outcome(reply)
  {
    r := AcceptSession(ls, reply, codec);
  }

  /**
   * A reply with data stores the access token, the refresh token unless it is
   * empty, and the user, and touches no other key; a failed call or an empty
   * reply leaves storage alone.
   */
  lemma SessionEffectStoresSession(items: map<string, string>, resp: AuthResponse, codec: UserCodec)
    ensures var m := SessionEffect(items, Replied(Some(resp)), codec);
      && GetTokens(m).accessToken == Some(resp.tokens.accessToken)
      && GetTokens(m).refreshToken == (if resp.tokens.refreshToken != "" then Some(resp.tokens.refreshToken) else GetTokens(items).refreshToken)
      && m[UserKey] == codec.stringify(resp.user)
      && m - {AccessTokenKey, RefreshTokenKey, UserKey} == items - {AccessTokenKey, RefreshTokenKey, UserKey}
    ensures SessionEffect(items, Replied(None), codec) == items
  {
    var m := SessionEffect(items, Replied(Some(resp)), codec);
    var t := StoreTokens(items, resp.tokens.accessToken, Some(resp.tokens.refreshToken));
    SetTokensReadBack(items, resp.tokens.accessToken, Some(resp.tokens.refreshToken));
    assert m - {AccessTokenKey, RefreshTokenKey, UserKey} == (t - {AccessTokenKey, RefreshTokenKey}) - {UserKey};
    assert (items - {AccessTokenKey, RefreshTokenKey}) - {UserKey} == items - {AccessTokenKey, RefreshTokenKey, UserKey};
  }

  /** The token the refresh endpoint returned, when its reply had one. */
  datatype RefreshData = RefreshData(accessToken: string)

  /**
   * `refreshToken(token)`: stores only the new access token. A reply without
   * data makes reading `data.accessToken` throw inside the try block, which
   * the catch block normalises like any other non-HTTP error.
   */
  method RefreshToken(ls: LocalStorage, reply: Reply<RefreshData>) returns (r: Result<string, ApiError>)
    modifies ls
    ensures reply.Replied? && reply.data.Some? ==>
      ls.items == StoreTokens(old(ls.items), reply.data.value.accessToken, None) && r == Ok(reply.data.value.accessToken)
    ensures reply.Replied? && reply.data.None? ==> ls.items == old(ls.items) && r == Err(HandleApiError(OtherFailure))
    ensures reply.CallFailed? ==> ls.items == old(ls.items) && r == Err(HandleApiError(reply.caught))
  {
    if reply.CallFailed? {
      return Err(HandleApiError(reply.caught));
    }
    if reply.data.None? {
      return Err(HandleApiError(OtherFailure));
    }
    SetTokens(ls, reply.data.value.accessToken, None);
    r := Ok(reply.data.value.accessToken);
  }

  /** After a refresh the stored refresh token is still the old one, and a missing reply surfaces as a status-500 error. */
  lemma RefreshKeepsRefreshToken(items: map<string, string>, token: string)
    ensures GetTokens(StoreTokens(items, token, None)) == Tokens(Some(token), GetTokens(items).refreshToken)
    ensures HandleApiError(OtherFailure).statusCode == 500
  {
    SetTokensReadBack(items, token, None);
  }

  /**
   * `logout()`: tells the server only when a refresh token is stored and
   * always clears the session. The outcome of that call is caught and
   * ignored, so it is not an input here.
   */
  method Logout(ls: LocalStorage) returns (contactedServer: bool)
    modifies ls
    ensures contactedServer <==> HasValue(old(ls.items), RefreshTokenKey)
    ensures ls.items == ClearTokensEffect(old(ls.items))
  {
    var refreshToken := ls.GetItem(RefreshTokenKey);
    contactedServer := Truthy(refreshToken);
    ClearTokens(ls);
  }

  /** `updateProfile(data)`: the server's copy of the user replaces the cached one; tokens are untouched. */
  method UpdateProfile(ls: LocalStorage, reply: Reply<User>, codec: UserCodec) returns (r: ServiceResult<User>)
    modifies ls
    ensures reply.Replied? && reply.data.Some? ==> ls.items == old(ls.items)[UserKey := codec.stringify(reply.data.value)]
    ensures !(reply.Replied? && reply.data.Some?) ==> ls.items == old(ls.items)
    ensures r == Outcome(reply)
  {
    if reply.CallFailed? {
      return Err(HandleApiError(reply.caught));
    }
    if reply.data.Some? {
      ls.SetItem(UserKey, codec.stringify(reply.data.value));
    }
    r := Ok(reply.data);
  }

  /** `updateLocalUser(user)`. */
  method UpdateLocalUser(ls: LocalStorage, user: User, codec: UserCodec)
    modifies ls
    ensures ls.items == old(ls.items)[UserKey := codec.stringify(user)]
  {
    ls.SetItem(UserKey, codec.stringify(user));
  }

  /** `isAuthenticated()`: a non-empty access token and a non-empty cached user are both stored. */
  predicate IsAuthenticated(items: map<string, string>): (b: bool)
    ensures b <==> Truthy(Lookup(items, AccessTokenKey)) && Truthy(Lookup(items, UserKey))
  {
    HasValue(items, AccessTokenKey) && HasValue(items, UserKey)
  }

  /** `getCurrentUser()`: the decoded cached user; nothing when none is stored or it does not decode. */
  function GetCurrentUser(items: map<string, string>, codec: UserCodec): (u: Option<User>)
    ensures !HasValue(items, UserKey) ==> u.None?
    ensures HasValue(items, UserKey) ==> u == codec.parse(items[UserKey])
  {
    if !HasValue(items, UserKey) then None else codec.parse(items[UserKey])
  }

  /** Writing the cached user and reading it back gives the same user, and the tokens are what they were. */
  lemma CachedUserRoundTrip(items: map<string, string>, user: User, codec: UserCodec)
    requires ValidCodec(codec)
    ensures GetCurrentUser(items[UserKey := codec.stringify(user)], codec) == Some(user)
    ensures GetTokens(items[UserKey := codec.stringify(user)]) == GetTokens(items)
    ensures IsAuthenticated(items[UserKey := codec.stringify(user)]) <==> HasValue(items, AccessTokenKey)
  {
    assert codec.stringify(user) != "" && codec.parse(codec.stringify(user)) == Some(user);
  }

  /** A session opened with a non-empty access token is authenticated, and its user reads back; logging out ends it. */
  lemma SessionLifecycle(items: map<string, string>, resp: AuthResponse, codec: UserCodec)
    requires ValidCodec(codec) && resp.tokens.accessToken != ""
    ensures IsAuthenticated(SessionEffect(items, Replied(Some(resp)), codec))
    ensures GetCurrentUser(SessionEffect(items, Replied(Some(resp)), codec), codec) == Some(resp.user)
    ensures !IsAuthenticated(ClearTokensEffect(SessionEffect(items, Replied(Some(resp)), codec)))
    ensures GetCurrentUser(ClearTokensEffect(SessionEffect(items, Replied(Some(resp)), codec)), codec).None?
  {
    assert codec.stringify(resp.user) != "" && codec.parse(codec.stringify(resp.user)) == Some(resp.user);
  }
}
