/**
 * The authentication store of src/store/authStore.ts: who is logged in,
 * whether a call is in flight and the last error, updated by the store's
 * actions, of which only the user and the flag survive a page reload.
 */
module AuthStore {
  import opened Wrappers
  import opened Domain
  import opened Browser
  import opened ApiClient
  import opened AuthService

  /** What an action records as its error and rethrows. */
  datatype Thrown =
    | ServiceError(error: ApiError)  // the normalised error the service threw
    | MissingResponse                // reading `user` of the `undefined` a data-less reply makes the service return

  /** How a login or register call ends for the store: the user it opens the session for, or what it throws. */
  function SessionOutcome(r: ServiceResult<AuthResponse>): (o: Result<User, Thrown>)
    ensures o.Ok? <==> r.Ok? && r.value.Some?
    ensures o.Ok? ==> o.value == r.value.value.user
    ensures r.Err? ==> o == Err(ServiceError(r.error))
  {
    match r
    case Ok(Some(resp)) => Ok(resp.user)
    case Ok(None) => Err(MissingResponse)
    case Err(e) => Err(ServiceError(e))
  }

  /** The slice the persistence middleware writes to `auth-storage`. */
  datatype PersistedAuth = PersistedAuth(user: Option<User>, isAuthenticated: bool)

  class AuthStore {
    const storage: LocalStorage
    const codec: UserCodec
    var user: Option<User>
    var isAuthenticated: bool
    var isLoading: bool
    var error: Option<Thrown>

    /** The store as created: nobody logged in, nothing loading, no error. */
    constructor (storage: LocalStorage, codec: UserCodec)
      ensures this.storage == storage && this.codec == codec
      ensures user.None? && !isAuthenticated && !isLoading && error.None?
    {
      this.storage := storage;
      this.codec := codec;
      user := None;
      isAuthenticated := false;
      isLoading := false;
      error := None;
    }

    /** Shared body of `login` and `register`: the service's storage effects, then success or failure. */
    method OpenSession(reply: Reply<AuthResponse>, viaRegister: bool) returns (thrown: Option<Thrown>)
      modifies this, storage
      ensures storage.items == SessionEffect(old(storage.items), reply, codec)
      ensures SessionOutcome(Outcome(reply)).Ok? ==>
        thrown.None? && user == Some(SessionOutcome(Outcome(reply)).value) && isAuthenticated && !isLoading && error.None?
      ensures SessionOutcome(Outcome(reply)).Err? ==>
        thrown == Some(SessionOutcome(Outcome(reply)).error) && error == thrown && user.None? && !isAuthenticated && !isLoading
    {
      isLoading := true;
      error := None;
      var r;
      if viaRegister {
        r := AuthService.Register(storage, reply, codec);
      } else {
        r := AuthService.Login(storage, reply, codec);
      }
      var o := SessionOutcome(r);
      if o.Ok? {
        user := Some(o.value);
        isAuthenticated := true;
        isLoading := false;
        error := None;
        thrown := None;
      } else {
        isLoading := false;
        error := Some(o.error);
        isAuthenticated := false;
        user := None;
        thrown := Some(o.error);
      }
    }

    /** `login(credentials)`; `thrown` is what the action rethrows. */
    method Login(reply: Reply<AuthResponse>) returns (thrown: Option<Thrown>)
      modifies this, storage
      ensures storage.items == SessionEffect(old(storage.items), reply, codec)
      ensures SessionOutcome(Outcome(reply)).Ok? ==>
        thrown.None? && user == Some(SessionOutcome(Outcome(reply)).value) && isAuthenticated && !isLoading && error.None?
      ensures SessionOutcome(Outcome(reply)).Err? ==>
        thrown == Some(SessionOutcome(Outcome(reply)).error) && error == thrown && user.None? && !isAuthenticated && !isLoading
    {
      thrown := OpenSession(reply, false);
    }

    /** `register(data)`; `thrown` is what the action rethrows. */
    method Register(reply: Reply<AuthResponse>) returns (thrown: Option<Thrown>)
      modifies this, storage
      ensures storage.items == SessionEffect(old(storage.items), reply, codec)
      ensures SessionOutcome(Outcome(reply)).Ok? ==>
        thrown.None? && user == Some(SessionOutcome(Outcome(reply)).value) && isAuthenticated && !isLoading && error.None?
      ensures SessionOutcome(Outcome(reply)).Err? ==>
        thrown == Some(SessionOutcome(Outcome(reply)).error) && error == thrown && user.None? && !isAuthenticated && !isLoading
    {
      thrown := OpenSession(reply, true);
    }

    /** `logout()`: the service never throws, and the store always ends signed out with nothing loading and no error. */
    method Logout()
      modifies this, storage
      ensures storage.items == ClearTokensEffect(old(storage.items))
      ensures user.None? && !isAuthenticated && !isLoading && error.None?
    {
      isLoading := true;
      var contacted := AuthService.Logout(storage);
      user := None;
      isAuthenticated := false;
      isLoading := false;
      error := None;
    }

    /** `updateUser(user)`: the user field and the cached copy change, nothing else. */
    method UpdateUser(u: User)
      modifies this, storage
      ensures user == Some(u) && storage.items == old(storage.items)[UserKey := codec.stringify(u)]
      ensures isAuthenticated == old(isAuthenticated) && isLoading == old(isLoading) && error == old(error)
    {
      user := Some(u);
      UpdateLocalUser(storage, u, codec);
    }

    /** `clearError()`. */
    method ClearError()
      modifies this
      ensures error.None?
      ensures user == old(user) && isAuthenticated == old(isAuthenticated) && isLoading == old(isLoading)
    {
      error := None;
    }

    /**
     * `checkAuth()`: authentication comes from storage, and the cached user is
     * kept only when authenticated. A cached user that does not decode leaves
     * the store authenticated with no user.
     */
    method CheckAuth()
      modifies this
      ensures isAuthenticated == IsAuthenticated(storage.items)
      ensures user == (if IsAuthenticated(storage.items) then GetCurrentUser(storage.items, codec) else None)
      ensures isLoading == old(isLoading) && error == old(error)
    {
      var isAuth := IsAuthenticated(storage.items);
      var current := GetCurrentUser(storage.items, codec);
      isAuthenticated := isAuth;
      user := if isAuth then current else None;
    }

    /** `partialize`: only the user and the flag are persisted. */
    function Persisted(): (p: PersistedAuth)
      reads this
      ensures p.user == user && p.isAuthenticated == isAuthenticated
    {
      PersistedAuth(user, isAuthenticated)
    }

    /** Rehydration: the persisted slice is merged over the current state. */
    method Rehydrate(p: PersistedAuth)
      modifies this
      ensures Persisted() == p
      ensures isLoading == old(isLoading) && error == old(error)
    {
      user := p.user;
      isAuthenticated := p.isAuthenticated;
    }
  }

  /**
   * A successful login survives a reload: a reloaded store rehydrated from the
   * persisted slice has the same user and flag, and neither the loading flag
   * nor the error of the old store.
   */
  method LoginSurvivesReload(resp: AuthResponse, codec: UserCodec)
    returns (before: PersistedAuth, after: PersistedAuth, loadingAfter: bool, errorAfter: Option<Thrown>)
    ensures before == PersistedAuth(Some(resp.user), true)
    ensures after == before && !loadingAfter && errorAfter.None?
  {
    var ls := new LocalStorage(map[]);
    var s := new AuthStore(ls, codec);
    var thrown := s.Login(Replied(Some(resp)));
    before := s.Persisted();
    var reloaded := new AuthStore(ls, codec);
    reloaded.Rehydrate(before);
    after := reloaded.Persisted();
    loadingAfter := reloaded.isLoading;
    errorAfter := reloaded.error;
  }

  /**
   * With a well-behaved codec, `checkAuth` after a login with a non-empty
   * access token finds the same user; after a logout it finds nobody.
   */
  method CheckAuthAfterLoginAndLogout(resp: AuthResponse, codec: UserCodec)
    returns (afterLogin: PersistedAuth, afterLogout: PersistedAuth)
    requires ValidCodec(codec) && resp.tokens.accessToken != ""
    ensures afterLogin == PersistedAuth(Some(resp.user), true)
    ensures afterLogout == PersistedAuth(None, false)
  {
    var ls := new LocalStorage(map[]);
    var s := new AuthStore(ls, codec);
    var thrown := s.Login(Replied(Some(resp)));
    SessionLifecycle(map[], resp, codec);
    s.CheckAuth();
    afterLogin := s.Persisted();
    s.Logout();
    s.CheckAuth();
    afterLogout := s.Persisted();
  }

  /** A failed login leaves the store signed out with the error recorded, whatever it held before. */
  method FailedLoginSignsOut(previous: AuthResponse, caught: Caught)
    returns (state: PersistedAuth, recorded: Option<Thrown>)
    ensures state == PersistedAuth(None, false)
    ensures recorded == Some(ServiceError(HandleApiError(caught)))
  {
    var ls := new LocalStorage(map[]);
    var s := new AuthStore(ls, UserCodec(u => "user", t => None));
    var first := s.Login(Replied(Some(previous)));
    var second := s.Login(CallFailed(caught));
    state := s.Persisted();
    recorded := s.error;
  }
}
