/**
 * The authenticated HTTP client of src/utils/api.ts: the token store over
 * local storage, the request interceptor that attaches the bearer token, the
 * response interceptor that refreshes an expired session once and replays the
 * requests that failed meanwhile, and the error normaliser.
 *
 * The response interceptor runs on a single-threaded event loop; its only
 * suspension point is the refresh call. It is modelled as a class whose
 * methods are the events: a failed response arrives (OnResponseError), the
 * refresh call settles (OnRefreshSettled). Promises become values: a queued
 * request ends up Resolved, Rejected or Dropped (never settled).
 */
module ApiClient {
  import opened Wrappers
  import opened Text
  import opened Domain
  import opened Browser

  const AccessTokenKey := "accessToken"
  const RefreshTokenKey := "refreshToken"
  const UserKey := "user"
  const AuthorizationHeader := "Authorization"

  // ---------------------------------------------------------------- token store

  /** What `getTokens()` reads: each token, or `null` when absent. */
  datatype Tokens = Tokens(accessToken: Option<string>, refreshToken: Option<string>)

  function GetTokens(items: map<string, string>): (t: Tokens)
    ensures t.accessToken.Some? <==> AccessTokenKey in items
    ensures t.accessToken.Some? ==> t.accessToken.value == items[AccessTokenKey]
    ensures t.refreshToken.Some? <==> RefreshTokenKey in items
    ensures t.refreshToken.Some? ==> t.refreshToken.value == items[RefreshTokenKey]
  {
    Tokens(Lookup(items, AccessTokenKey), Lookup(items, RefreshTokenKey))
  }

  /** The storage after `setTokens(accessToken, refreshToken)`: a missing or empty refresh token is not written. */
  function StoreTokens(items: map<string, string>, accessToken: string, refreshToken: Option<string>): map<string, string> {
    var m := items[AccessTokenKey := accessToken];
    if Truthy(refreshToken) then m[RefreshTokenKey := refreshToken.value] else m
  }

  /** The storage after `clearTokens()`. */
  function ClearTokensEffect(items: map<string, string>): map<string, string> {
    items - {AccessTokenKey, RefreshTokenKey, UserKey}
  }

  method SetTokens(ls: LocalStorage, accessToken: string, refreshToken: Option<string>)
    modifies ls
    ensures ls.items == StoreTokens(old(ls.items), accessToken, refreshToken)
  {
    ls.SetItem(AccessTokenKey, accessToken);
    if Truthy(refreshToken) {
      ls.SetItem(RefreshTokenKey, refreshToken.value);
    }
  }

  method ClearTokens(ls: LocalStorage)
    modifies ls
    ensures ls.items == ClearTokensEffect(old(ls.items))
  {
    ls.RemoveItem(AccessTokenKey);
    ls.RemoveItem(RefreshTokenKey);
    ls.RemoveItem(UserKey);
  }

  /**
   * setTokens always stores the access token; it stores the refresh token
   * only when one is given and non-empty, otherwise the stored one is kept;
   * every other key is untouched.
   */
  lemma SetTokensReadBack(items: map<string, string>, accessToken: string, refreshToken: Option<string>)
    ensures GetTokens(StoreTokens(items, accessToken, refreshToken)) ==
            Tokens(Some(accessToken), if Truthy(refreshToken) then refreshToken else GetTokens(items).refreshToken)
    ensures StoreTokens(items, accessToken, refreshToken) - {AccessTokenKey, RefreshTokenKey} ==
            items - {AccessTokenKey, RefreshTokenKey}
  {
    var m := StoreTokens(items, accessToken, refreshToken);
    assert m - {AccessTokenKey, RefreshTokenKey} == items - {AccessTokenKey, RefreshTokenKey};
  }

  /** clearTokens removes exactly the two tokens and the cached user, and a second call changes nothing. */
  lemma ClearTokensProperties(items: map<string, string>)
    ensures GetTokens(ClearTokensEffect(items)) == Tokens(None, None)
    ensures UserKey !in ClearTokensEffect(items)
    ensures ClearTokensEffect(items).Keys == items.Keys - {AccessTokenKey, RefreshTokenKey, UserKey}
    ensures forall k :: k in ClearTokensEffect(items) ==> ClearTokensEffect(items)[k] == items[k]
    ensures ClearTokensEffect(ClearTokensEffect(items)) == ClearTokensEffect(items)
  {
  }

  // ---------------------------------------------------------- request interceptor

  /** The parts of an axios request config the interceptors read and write; `retried` is `_retry`. */
  datatype Request = Request(url: string, headers: map<string, string>, retried: bool)

  function WithBearer(req: Request, token: string): Request {
    req.(headers := req.headers[AuthorizationHeader := "Bearer " + token])
  }

  function MarkRetried(req: Request): Request {
    req.(retried := true)
  }

  /** The request interceptor: attach the stored access token as a bearer header, if there is one. */
  function AuthorizeRequest(items: map<string, string>, req: Request): (out: Request)
    ensures HasValue(items, AccessTokenKey) ==> AuthorizationHeader in out.headers && out.headers[AuthorizationHeader] == "Bearer " + items[AccessTokenKey]
    ensures !HasValue(items, AccessTokenKey) ==> out == req
    ensures out.url == req.url && out.retried == req.retried
    ensures out.headers - {AuthorizationHeader} == req.headers - {AuthorizationHeader}
  {
    var accessToken := GetTokens(items).accessToken;
    if Truthy(accessToken) then WithBearer(req, accessToken.value) else req
  }

  // --------------------------------------------------------- response interceptor

  /** What a rejected call carries. */
  datatype Fault =
    | HttpFailure(request: Request, status: Option<int>)  // the failed call's own error
    | RefreshFailure(reason: string)                      // the refresh call's error
    | MissingRefreshData                                  // reading `data` of a refresh reply that has none

  /** How a promise parked in `failedQueue` ends. */
  datatype Settlement = Resolved(token: string) | Rejected(fault: Fault) | Dropped

  datatype Settled = Settled(request: Request, outcome: Settlement)

  /** What `processQueue(error, token)` does to each entry: reject with a given error, else resolve with a non-empty token, else nothing. */
  function QueueOutcome(error: Option<Fault>, token: string): Settlement {
    if error.Some? then Rejected(error.value) else if token != "" then Resolved(token) else Dropped
  }

  /** The settlements `processQueue` hands out, in queue order. */
  function Settle(queue: seq<Request>, error: Option<Fault>, token: string): (s: seq<Settled>)
    ensures |s| == |queue|
    ensures forall i :: 0 <= i < |queue| ==> s[i] == Settled(queue[i], QueueOutcome(error, token))
  {
    if queue == [] then [] else [Settled(queue[0], QueueOutcome(error, token))] + Settle(queue[1..], error, token)
  }

  /** Settling one more parked request appends its settlement. */
  lemma SettleStep(queue: seq<Request>, i: nat, error: Option<Fault>, token: string)
    requires i < |queue|
    ensures Settle(queue[..i + 1], error, token) == Settle(queue[..i], error, token) + [Settled(queue[i], QueueOutcome(error, token))]
  {
    assert queue[..i + 1][i] == queue[i];
  }

  /** Appending one element regroups with what precedes it. */
  lemma AppendOne<T>(x: seq<T>, y: seq<T>, z: T)
    ensures x + y + [z] == x + (y + [z])
  {
  }

  /** An `/auth/` endpoint other than `/auth/refresh`: a 401 there means bad credentials, not an expired session. */
  predicate IsAuthEndpoint(url: string): (b: bool)
    ensures b ==> Contains(url, "/auth/")
    ensures Contains(url, "/auth/refresh") ==> !b
  {
    Contains(url, "/auth/") && !Contains(url, "/auth/refresh")
  }

  /** The sign-in and sign-out endpoints count as auth endpoints; the refresh endpoint does not. */
  lemma AuthEndpointCases()
    ensures IsAuthEndpoint("/auth/login") && IsAuthEndpoint("/auth/logout")
    ensures !IsAuthEndpoint("/auth/refresh")
  {
  }

  /** The profile endpoint counts as an auth endpoint too, although its path is as long as the refresh path. */
  lemma ProfileIsAuthEndpoint()
    ensures IsAuthEndpoint("/auth/profile")
  {
    var p: string := "/auth/profile";
    var r: string := "/auth/refresh";
    assert p[..6] == "/auth/";
    assert p[..|r|][6] != r[6];
    assert |p[1..]| < |r|;
  }

  /** A data endpoint is not an auth endpoint, so a 401 there starts a refresh. */
  lemma DataEndpointIsNotAuth()
    ensures !IsAuthEndpoint("/incomes")
  {
    var i: string := "/incomes";
    assert i[..6][1] != "/auth/"[1];
    assert i[1..][..6][0] != "/auth/"[0];
    assert i[1..][1..][..6][0] != "/auth/"[0];
  }

  /** Which branch of the response interceptor a failed response takes. */
  datatype Route = PassThrough | AuthEndpointFailure | RefreshCandidate

  function RouteOf(req: Request, status: Option<int>): Route {
    if status == Some(401) && !req.retried then
      if IsAuthEndpoint(req.url) then AuthEndpointFailure else RefreshCandidate
    else PassThrough
  }

  /** A request the interceptor has marked as retried never enters the refresh path again, whatever it fails with. */
  lemma RetriedAtMostOnce(req: Request, status: Option<int>)
    ensures RouteOf(MarkRetried(req), status) == PassThrough
    ensures RouteOf(req, status) != PassThrough ==> status == Some(401)
  {
  }

  /**
   * A URL under `/auth/refresh` is under `/auth/` and still not an auth
   * endpoint: a 401 there, through this client, goes down the refresh path
   * rather than straight to the sign-in page.
   */
  lemma RefreshUrlIsUnderAuth(url: string)
    requires Contains(url, "/auth/refresh")
    ensures Contains(url, "/auth/") && !IsAuthEndpoint(url)
  {
    ContainsPrefix(url, "/auth/refresh", "/auth/");
  }

  /** How the interceptor answers a failed response. */
  datatype Reaction =
    | Reject(fault: Fault)                 // the promise is rejected at once
    | Enqueued                             // parked in failedQueue until the refresh in flight settles
    | AwaitRefresh(refreshToken: string)   // this call issues the one refresh request

  /** What the refresh endpoint answered: `data.accessToken` when the reply carries `data`, or an error. */
  datatype RefreshReply = RefreshSucceeded(accessToken: Option<string>) | RefreshFailed(reason: string)

  /** How the call that started the refresh ends: replayed with the new token, or rejected. */
  datatype Completion = Retry(request: Request) | Fail(fault: Fault)

  /** The error the interceptor's catch block receives for a refresh reply. */
  function RefreshFault(reply: RefreshReply): Fault {
    match reply
    case RefreshFailed(reason) => RefreshFailure(reason)
    case RefreshSucceeded(_) => MissingRefreshData
  }

  /** A request replayed after a refresh goes out with the new token, whatever the request interceptor reads back from storage. */
  lemma RetryCarriesNewToken(items: map<string, string>, req: Request, token: string)
    ensures AuthorizeRequest(StoreTokens(items, token, None), WithBearer(req, token)) == WithBearer(req, token)
  {
  }

  class RefreshCoordinator {
    /** The storage the token store reads and writes. */
    const storage: LocalStorage
    /** The module-level `isRefreshing` flag. */
    var isRefreshing: bool
    /** `failedQueue`: the requests waiting for the refresh in flight, in arrival order. */
    var failedQueue: seq<Request>
    /** Every queue entry `processQueue` has handed an outcome to, oldest first. */
    var settled: seq<Settled>
    /** The request whose handler is suspended on the refresh call, if one is in flight. */
    var refreshOwner: Option<Request>
    /** Whether the handler has sent the browser to `/login`. */
    var redirected: bool

    /** The queue is empty and no refresh is in flight whenever the flag is down; everything parked is marked retried. */
    predicate Valid()
      reads this
    {
      && (!isRefreshing ==> failedQueue == [] && refreshOwner.None?)
      && (forall r :: r in failedQueue ==> r.retried)
      && (refreshOwner.Some? ==> refreshOwner.value.retried)
    }

    constructor (storage: LocalStorage)
      ensures Valid() && this.storage == storage
      ensures !isRefreshing && failedQueue == [] && settled == [] && refreshOwner.None? && !redirected
    {
      this.storage := storage;
      isRefreshing := false;
      failedQueue := [];
      settled := [];
      refreshOwner := None;
      redirected := false;
    }

    /** `processQueue(error, token)`: hand every parked request its outcome, in order, and empty the queue. */
    method ProcessQueue(error: Option<Fault>, token: string)
      modifies this
      ensures failedQueue == []
      ensures settled == old(settled) + Settle(old(failedQueue), error, token)
      ensures isRefreshing == old(isRefreshing) && refreshOwner == old(refreshOwner) && redirected == old(redirected)
    {
      var i := 0;
      while i < |failedQueue|
        invariant 0 <= i <= |failedQueue|
        invariant failedQueue == old(failedQueue)
        invariant settled == old(settled) + Settle(failedQueue[..i], error, token)
        invariant isRefreshing == old(isRefreshing) && refreshOwner == old(refreshOwner) && redirected == old(redirected)
      {
        var item := Settled(failedQueue[i], QueueOutcome(error, token));
        SettleStep(failedQueue, i, error, token);
        AppendOne(old(settled), Settle(failedQueue[..i], error, token), item);
        settled := settled + [item];
        i := i + 1;
      }
      assert failedQueue[..i] == failedQueue;
      failedQueue := [];
    }

    /** The response interceptor's error handler, up to the refresh call. */
    method OnResponseError(req: Request, status: Option<int>) returns (reaction: Reaction)
      requires Valid()
      modifies this, storage
      ensures Valid() && settled == old(settled)
      // Anything but a first 401 is rejected unchanged.
      ensures RouteOf(req, status) == PassThrough ==>
        reaction == Reject(HttpFailure(req, status)) && unchanged(this) && unchanged(storage)
      // A 401 from login, register or another auth endpoint ends the session without a refresh.
      ensures RouteOf(req, status) == AuthEndpointFailure ==>
        && reaction == Reject(HttpFailure(req, status))
        && storage.items == ClearTokensEffect(old(storage.items)) && redirected
        && isRefreshing == old(isRefreshing) && failedQueue == old(failedQueue) && refreshOwner == old(refreshOwner)
      // While a refresh is in flight the request is parked; no second refresh starts.
      ensures RouteOf(req, status) == RefreshCandidate && old(isRefreshing) ==>
        && reaction == Enqueued
        && failedQueue == old(failedQueue) + [MarkRetried(req)]
        && isRefreshing && refreshOwner == old(refreshOwner)
        && storage.items == old(storage.items) && redirected == old(redirected)
      // No refresh token: the session ends, and the flag stays raised because the return precedes the try/finally.
      ensures RouteOf(req, status) == RefreshCandidate && !old(isRefreshing) && !HasValue(old(storage.items), RefreshTokenKey) ==>
        && reaction == Reject(HttpFailure(MarkRetried(req), status))
        && isRefreshing && failedQueue == [] && refreshOwner.None?
        && storage.items == ClearTokensEffect(old(storage.items)) && redirected
      // Otherwise this request starts the one refresh, with the stored refresh token.
      ensures RouteOf(req, status) == RefreshCandidate && !old(isRefreshing) && HasValue(old(storage.items), RefreshTokenKey) ==>
        && reaction == AwaitRefresh(old(storage.items)[RefreshTokenKey])
        && isRefreshing && failedQueue == [] && refreshOwner == Some(MarkRetried(req))
        && storage.items == old(storage.items) && redirected == old(redirected)
      ensures reaction.AwaitRefresh? ==> !old(isRefreshing)
    {
      if RouteOf(req, status) == PassThrough {
        return Reject(HttpFailure(req, status));
      }
      if IsAuthEndpoint(req.url) {
        ClearTokens(storage);
        redirected := true;
        return Reject(HttpFailure(req, status));
      }
      var original := MarkRetried(req);
      if isRefreshing {
        failedQueue := failedQueue + [original];
        return Enqueued;
      }
      isRefreshing := true;
      var refreshToken := GetTokens(storage.items).refreshToken;
      if !Truthy(refreshToken) {
        ClearTokens(storage);
        redirected := true;
        return Reject(HttpFailure(original, status));
      }
      refreshOwner := Some(original);
      reaction := AwaitRefresh(refreshToken.value);
    }

    /** The rest of the handler once the refresh call settles, `finally` included. */
    method OnRefreshSettled(reply: RefreshReply) returns (completion: Completion)
      requires Valid() && refreshOwner.Some?
      modifies this, storage
      ensures Valid() && !isRefreshing && failedQueue == [] && refreshOwner.None?
      // Success: only the access token is stored, every parked request resolves with it, and the original is replayed with it.
      ensures reply.RefreshSucceeded? && reply.accessToken.Some? ==>
        && completion == Retry(WithBearer(old(refreshOwner).value, reply.accessToken.value))
        && storage.items == StoreTokens(old(storage.items), reply.accessToken.value, None)
        && settled == old(settled) + Settle(old(failedQueue), None, reply.accessToken.value)
        && redirected == old(redirected)
      // Failure: every parked request is rejected with the refresh error, the session ends, the error propagates.
      ensures !(reply.RefreshSucceeded? && reply.accessToken.Some?) ==>
        && completion == Fail(RefreshFault(reply))
        && storage.items == ClearTokensEffect(old(storage.items)) && redirected
        && settled == old(settled) + Settle(old(failedQueue), Some(RefreshFault(reply)), "")
    {
      var original := refreshOwner.value;
      if reply.RefreshSucceeded? && reply.accessToken.Some? {
        var newAccessToken := reply.accessToken.value;
        SetTokens(storage, newAccessToken, None);
        ProcessQueue(None, newAccessToken);
        var replay := WithBearer(original, newAccessToken);
        RetryCarriesNewToken(old(storage.items), original, newAccessToken);
        completion := Retry(AuthorizeRequest(storage.items, replay));
      } else {
        var refreshError := RefreshFault(reply);
        ProcessQueue(Some(refreshError), "");
        ClearTokens(storage);
        redirected := true;
        completion := Fail(refreshError);
      }
      isRefreshing := false;
      refreshOwner := None;
    }
  }

  /**
   * Two requests fail with 401 while no refresh is in flight: exactly one
   * refresh is issued, the second request waits for it, and both go out again
   * with the new token.
   */
  method ConcurrentExpiry(first: Request, second: Request, refreshToken: string, newToken: string)
    returns (r1: Reaction, r2: Reaction, done: Completion, drained: seq<Settled>, stored: Tokens)
    requires !first.retried && !second.retried
    requires !IsAuthEndpoint(first.url) && !IsAuthEndpoint(second.url)
    requires refreshToken != "" && newToken != ""
    ensures r1 == AwaitRefresh(refreshToken) && r2 == Enqueued
    ensures done == Retry(WithBearer(MarkRetried(first), newToken))
    ensures drained == [Settled(MarkRetried(second), Resolved(newToken))]
    ensures stored == Tokens(Some(newToken), Some(refreshToken))
  {
    var ls := new LocalStorage(map[AccessTokenKey := "expired", RefreshTokenKey := refreshToken]);
    var c := new RefreshCoordinator(ls);
    r1 := c.OnResponseError(first, Some(401));
    r2 := c.OnResponseError(second, Some(401));
    done := c.OnRefreshSettled(RefreshSucceeded(Some(newToken)));
    drained := c.settled;
    stored := GetTokens(ls.items);
  }

  /**
   * A refresh that fails rejects every parked request with the same error,
   * and the session is gone afterwards.
   */
  method FailedRefresh(first: Request, second: Request, refreshToken: string, reason: string)
    returns (done: Completion, drained: seq<Settled>, stored: Tokens)
    requires !first.retried && !second.retried
    requires !IsAuthEndpoint(first.url) && !IsAuthEndpoint(second.url)
    requires refreshToken != ""
    ensures done == Fail(RefreshFailure(reason))
    ensures drained == [Settled(MarkRetried(second), Rejected(RefreshFailure(reason)))]
    ensures stored == Tokens(None, None)
  {
    var ls := new LocalStorage(map[RefreshTokenKey := refreshToken]);
    var c := new RefreshCoordinator(ls);
    var r1 := c.OnResponseError(first, Some(401));
    var r2 := c.OnResponseError(second, Some(401));
    done := c.OnRefreshSettled(RefreshFailed(reason));
    drained := c.settled;
    stored := GetTokens(ls.items);
  }

  /**
   * With no refresh token stored, the first 401 leaves `isRefreshing` raised
   * with no refresh in flight, so a later 401 is parked in a queue that
   * nothing will drain.
   */
  method MissingRefreshTokenStalls(first: Request, second: Request)
    returns (r1: Reaction, r2: Reaction, stillRefreshing: bool, refreshInFlight: bool, parked: seq<Request>)
    requires !first.retried && !second.retried
    requires !IsAuthEndpoint(first.url) && !IsAuthEndpoint(second.url)
    ensures r1 == Reject(HttpFailure(MarkRetried(first), Some(401)))
    ensures r2 == Enqueued
    ensures stillRefreshing && !refreshInFlight && parked == [MarkRetried(second)]
  {
    var ls := new LocalStorage(map[AccessTokenKey := "expired"]);
    var c := new RefreshCoordinator(ls);
    r1 := c.OnResponseError(first, Some(401));
    r2 := c.OnResponseError(second, Some(401));
    stillRefreshing := c.isRefreshing;
    refreshInFlight := c.refreshOwner.Some?;
    parked := c.failedQueue;
  }

  // ------------------------------------------------------------- error normaliser

  /** The server's reply to a failed call: its status and the envelope's `message` and `errors`. */
  datatype ErrorResponse = ErrorResponse(status: int, message: Option<string>, errors: Option<FieldErrors>)

  /** What a service's catch block receives: an axios error (with or without a response) or anything else. */
  datatype Caught = AxiosFailure(response: Option<ErrorResponse>, requestSent: bool) | OtherFailure

  const ServerErrorMessage := "Error en el servidor"
  const NetworkErrorMessage := "Error de conexión. Verifica tu internet."
  const UnknownErrorMessage := "Error desconocido. Intenta de nuevo."

  /** `handleApiError`: server reply, no reply, or anything else. */
  function HandleApiError(e: Caught): (r: ApiError)
    ensures e.AxiosFailure? && e.response.Some? ==>
      && r.statusCode == e.response.value.status
      && r.errors == e.response.value.errors
      && r.message == (if Truthy(e.response.value.message) then e.response.value.message.value else ServerErrorMessage)
    ensures e.AxiosFailure? && e.response.None? && e.requestSent ==> r == ApiError(NetworkErrorMessage, None, 0)
    ensures (e.OtherFailure? || (e.response.None? && !e.requestSent)) ==> r == ApiError(UnknownErrorMessage, None, 500)
    ensures r.message != ""
  {
    match e
    case AxiosFailure(Some(resp), _) =>
      ApiError(if Truthy(resp.message) then resp.message.value else ServerErrorMessage, resp.errors, resp.status)
    case AxiosFailure(None, true) => ApiError(NetworkErrorMessage, None, 0)
    case _ => ApiError(UnknownErrorMessage, None, 500)
  }
}
