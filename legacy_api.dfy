/**
 * The older single-token client of src/services/api.js: one bearer token
 * and a cached user in the browser's store under their own keys, a request
 * interceptor that attaches the token, a response interceptor that signs
 * the user out on a 401, and the query parameters its list and statistics
 * calls build. The HTTP calls themselves, and the URL encoding of the
 * parameters, are outside the model: a query is the list of its key/value
 * pairs in order.
 */
module LegacyApi {
  import opened Wrappers
  import opened Domain
  import opened Browser
  import opened ApiClient
  import opened AuthService

  const TokenKey := "auth_token"
  const UserDataKey := "user_data"
  const LoginPath := "/login"
  const DefaultRegisterCurrency := "USD"

  // ---------------------------------------------------------------- tokenUtils

  /** `tokenUtils.setToken(token)`. */
  method SetToken(ls: LocalStorage, token: string)
    modifies ls
    ensures ls.items == old(ls.items)[TokenKey := token]
  {
    ls.SetItem(TokenKey, token);
  }

  /** `tokenUtils.getToken()`. */
  function GetToken(items: map<string, string>): (t: Option<string>)
    ensures t.Some? <==> TokenKey in items
    ensures t.Some? ==> t.value == items[TokenKey]
  {
    Lookup(items, TokenKey)
  }

  /** `tokenUtils.removeToken()`. */
  method RemoveToken(ls: LocalStorage)
    modifies ls
    ensures ls.items == old(ls.items) - {TokenKey}
  {
    ls.RemoveItem(TokenKey);
  }

  /** `tokenUtils.setUser(user)`: the user as JSON. */
  method SetUser(ls: LocalStorage, user: User, codec: UserCodec)
    modifies ls
    ensures ls.items == old(ls.items)[UserDataKey := codec.stringify(user)]
  {
    ls.SetItem(UserDataKey, codec.stringify(user));
  }

  /** What `getUser` gives: `null`, a user, or the exception `JSON.parse` throws on text that is not a user. */
  datatype StoredUser = NoUser | Found(user: User) | Unreadable

  /** `tokenUtils.getUser()`: `null` when nothing (or the empty string) is stored, otherwise the parsed user. */
  function GetUser(items: map<string, string>, codec: UserCodec): (r: StoredUser)
    ensures r == NoUser <==> !HasValue(items, UserDataKey)
    ensures HasValue(items, UserDataKey) && codec.parse(items[UserDataKey]).Some? ==> r == Found(codec.parse(items[UserDataKey]).value)
    ensures HasValue(items, UserDataKey) && codec.parse(items[UserDataKey]).None? ==> r == Unreadable
  {
    var userData := Lookup(items, UserDataKey);
    if !Truthy(userData) then NoUser
    else match codec.parse(userData.value)
      case Some(u) => Found(u)
      case None => Unreadable
  }

  /** `tokenUtils.removeUser()`. */
  method RemoveUser(ls: LocalStorage)
    modifies ls
    ensures ls.items == old(ls.items) - {UserDataKey}
  {
    ls.RemoveItem(UserDataKey);
  }

  /** `tokenUtils.isAuthenticated()`: a non-empty token is stored. */
  predicate IsAuthenticated(items: map<string, string>): (b: bool)
    ensures b <==> TokenKey in items && items[TokenKey] != ""
  {
    Truthy(GetToken(items))
  }

  /**
   * Storing a token makes it the one read back, and the user is signed in
   * exactly when it is not empty; removing it signs the user out. A stored
   * user reads back as itself, and the user and the token are independent.
   */
  method TokenLifecycle(initial: map<string, string>, token: string, user: User, codec: UserCodec)
    returns (afterSet: Option<string>, signedIn: bool, userRead: StoredUser, afterRemove: Option<string>, stillSignedIn: bool, userKept: StoredUser)
    requires ValidCodec(codec)
    ensures afterSet == Some(token) && (signedIn <==> token != "")
    ensures userRead == Found(user)
    ensures afterRemove.None? && !stillSignedIn
    ensures userKept == Found(user)
  {
    var ls := new LocalStorage(initial);
    SetToken(ls, token);
    afterSet := GetToken(ls.items);
    signedIn := IsAuthenticated(ls.items);
    SetUser(ls, user, codec);
    assert codec.stringify(user) != "" && codec.parse(codec.stringify(user)) == Some(user);
    userRead := GetUser(ls.items, codec);
    RemoveToken(ls);
    afterRemove := GetToken(ls.items);
    stillSignedIn := IsAuthenticated(ls.items);
    userKept := GetUser(ls.items, codec);
  }

  /** With nothing stored under the user key, `getUser` gives `null` whatever the codec. */
  lemma NoStoredUserIsNull(items: map<string, string>, codec: UserCodec)
    requires UserDataKey !in items
    ensures GetUser(items, codec) == NoUser
    ensures GetUser(items[TokenKey := "t"], codec) == NoUser
  {
  }

  // ------------------------------------------------------------- interceptors

  /** The request interceptor: a bearer header when a non-empty token is stored, the request untouched otherwise. */
  function AuthorizeLegacyRequest(items: map<string, string>, req: Request): (out: Request)
    ensures IsAuthenticated(items) ==> AuthorizationHeader in out.headers && out.headers[AuthorizationHeader] == "Bearer " + items[TokenKey]
    ensures !IsAuthenticated(items) ==> out == req
    ensures out.url == req.url && out.retried == req.retried
    ensures out.headers - {AuthorizationHeader} == req.headers - {AuthorizationHeader}
  {
    var token := GetToken(items);
    if Truthy(token) then WithBearer(req, token.value) else req
  }

  /** The two clients read different keys: neither one's token authorises the other's requests. */
  lemma ClientsUseSeparateTokens(token: string, req: Request)
    requires token != ""
    ensures AuthorizeLegacyRequest(map[AccessTokenKey := token], req) == req
    ensures AuthorizeRequest(map[TokenKey := token], req) == req
  {
  }

  /** A failed call as the legacy client sees it: the response status, if a response came back. */
  datatype LegacyFailure = LegacyFailure(status: Option<int>)

  /**
   * The response error interceptor: on a 401 the token and the cached user
   * are removed and the page goes to the sign-in route; any other failure
   * leaves the store alone. The error is passed on either way.
   */
  method OnLegacyResponseError(ls: LocalStorage, error: LegacyFailure) returns (rejected: LegacyFailure, navigateTo: Option<string>)
    modifies ls
    ensures rejected == error
    ensures error.status == Some(401) ==> ls.items == old(ls.items) - {TokenKey, UserDataKey} && navigateTo == Some(LoginPath)
    ensures error.status != Some(401) ==> ls.items == old(ls.items) && navigateTo.None?
  {
    navigateTo := None;
    if error.status == Some(401) {
      ls.RemoveItem(TokenKey);
      ls.RemoveItem(UserDataKey);
      navigateTo := Some(LoginPath);
    }
    rejected := error;
  }

  /** After a 401 the user is signed out and no user is cached, and a repeated 401 changes nothing more. */
  method UnauthorizedSignsOut(initial: map<string, string>, codec: UserCodec)
    returns (signedIn: bool, cached: StoredUser, secondChanged: bool)
    ensures !signedIn && cached == NoUser && !secondChanged
  {
    var ls := new LocalStorage(initial);
    var e1, nav1 := OnLegacyResponseError(ls, LegacyFailure(Some(401)));
    signedIn := IsAuthenticated(ls.items);
    cached := GetUser(ls.items, codec);
    var before := ls.items;
    var e2, nav2 := OnLegacyResponseError(ls, LegacyFailure(Some(401)));
    secondChanged := ls.items != before;
  }

  // --------------------------------------------------------- query parameters

  /** A parameter value as a caller may pass it; `Other` is any other value, by the text `append` would write for it. */
  datatype ParamValue = Null | Undefined | Text(text: string) | Other(rendered: string)

  /** Whether `getAll` sends a parameter: anything but `null`, `undefined` and the empty string. */
  predicate Present(v: ParamValue) {
    !v.Null? && !v.Undefined? && v != Text("")
  }

  function Rendered(v: ParamValue): string
    requires Present(v)
  {
    match v
    case Text(s) => s
    case Other(r) => r
  }

  /** The pairs `getAll` sends: the present parameters, in the order given. */
  function KeepPresent(params: seq<(string, ParamValue)>): (q: seq<(string, string)>)
    ensures |q| <= |params|
    ensures |q| == |params| <==> forall k :: 0 <= k < |params| ==> Present(params[k].1)
  {
    if params == [] then []
    else
      var init := params[..|params| - 1];
      var last := params[|params| - 1];
      var q := KeepPresent(init);
      if Present(last.1) then q + [(last.0, Rendered(last.1))]
      else
        assert !(forall k :: 0 <= k < |params| ==> Present(params[k].1)) by {
          assert !Present(params[|params| - 1].1);
        }
        q
  }

  /** Keeping present parameters splits over concatenation, so a parameter never moves past another. */
  lemma {:induction false} KeepPresentAppend(xs: seq<(string, ParamValue)>, ys: seq<(string, ParamValue)>)
    ensures KeepPresent(xs + ys) == KeepPresent(xs) + KeepPresent(ys)
    decreases |ys|
  {
    if ys == [] {
      assert xs + ys == xs;
    } else {
      var init := ys[..|ys| - 1];
      assert (xs + ys)[..|xs + ys| - 1] == xs + init;
      assert (xs + ys)[|xs + ys| - 1] == ys[|ys| - 1];
      KeepPresentAppend(xs, init);
    }
  }

  /** A pair is what `append` writes for one of the present parameters. */
  predicate SentFor(params: seq<(string, ParamValue)>, pair: (string, string)) {
    exists j :: 0 <= j < |params| && Present(params[j].1) && pair == (params[j].0, Rendered(params[j].1))
  }

  /** Every pair sent comes from a present parameter, with its key and its text. */
  lemma {:induction false} KeepPresentSound(params: seq<(string, ParamValue)>)
    ensures forall k :: 0 <= k < |KeepPresent(params)| ==> SentFor(params, KeepPresent(params)[k])
    decreases |params|
  {
    if params != [] {
      var init := params[..|params| - 1];
      var last := params[|params| - 1];
      KeepPresentSound(init);
      var p := KeepPresent(init);
      var q := KeepPresent(params);
      forall k | 0 <= k < |q| ensures SentFor(params, q[k]) {
        if k < |p| {
          assert q[k] == p[k];
          assert SentFor(init, p[k]);
          var j :| 0 <= j < |init| && Present(init[j].1) && p[k] == (init[j].0, Rendered(init[j].1));
          assert params[j] == init[j];
        } else {
          assert q[k] == (last.0, Rendered(last.1));
          assert params[|params| - 1] == last;
        }
      }
    }
  }

  /** `getAll(params)`: the `forEach` over the entries, appending each present one. */
  method BuildQuery(params: seq<(string, ParamValue)>) returns (query: seq<(string, string)>)
    ensures query == KeepPresent(params)
  {
    query := [];
    var i := 0;
    while i < |params|
      invariant 0 <= i <= |params|
      invariant query == KeepPresent(params[..i])
    {
      var (key, value) := params[i];
      assert params[..i + 1][..i] == params[..i];
      if value != Null && value != Undefined && value != Text("") {
        query := query + [(key, Rendered(value))];
      }
      i := i + 1;
    }
    assert params[..i] == params;
  }

  /** `getStats(startDate, endDate)`: each bound is sent only when it is given and not empty, start first. */
  function StatsParams(startDate: Option<string>, endDate: Option<string>): (q: seq<(string, string)>)
    ensures ("startDate", startDate.GetOr("")) in q <==> Truthy(startDate)
    ensures ("endDate", endDate.GetOr("")) in q <==> Truthy(endDate)
    ensures |q| == (if Truthy(startDate) then 1 else 0) + (if Truthy(endDate) then 1 else 0)
    ensures Truthy(startDate) && Truthy(endDate) ==> q == [("startDate", startDate.value), ("endDate", endDate.value)]
  {
    (if Truthy(startDate) then [("startDate", startDate.value)] else [])
    + (if Truthy(endDate) then [("endDate", endDate.value)] else [])
  }

  /** `categoriesAPI.getAll(type)`: the type is sent only when given and not empty. */
  function CategoryParams(kind: Option<string>): (q: seq<(string, string)>)
    ensures q == [] <==> !Truthy(kind)
    ensures q != [] ==> q == [("type", kind.value)]
  {
    if Truthy(kind) then [("type", kind.value)] else []
  }

  /** The statistics parameters are what `getAll` would keep from the same two values, text or null. */
  lemma StatsAgreesWithGetAll(startDate: Option<string>, endDate: Option<string>)
    ensures StatsParams(startDate, endDate) ==
      KeepPresent([("startDate", if startDate.Some? then Text(startDate.value) else Null),
                   ("endDate", if endDate.Some? then Text(endDate.value) else Null)])
  {
    var params := [("startDate", if startDate.Some? then Text(startDate.value) else Null),
                   ("endDate", if endDate.Some? then Text(endDate.value) else Null)];
    assert params[..1] == [params[0]];
    assert params[..1][..0] == [];
  }

  // ------------------------------------------------------------------ register

  /** A JavaScript argument that may be left out. */
  datatype Argument = Omitted | Passed(value: string)

  datatype RegisterBody = RegisterBody(name: string, email: string, password: string, currency: string)

  /** `authAPI.register(name, email, password, currency = 'USD')`: the body it posts. */
  function RegisterPayload(name: string, email: string, password: string, currency: Argument): (body: RegisterBody)
    ensures body.name == name && body.email == email && body.password == password
    ensures currency.Omitted? ==> body.currency == DefaultRegisterCurrency
    ensures currency.Passed? ==> body.currency == currency.value
  {
    RegisterBody(name, email, password, if currency.Passed? then currency.value else DefaultRegisterCurrency)
  }

  /** A passed currency always wins, even the empty one: only leaving the argument out gives dollars. */
  lemma RegisterDefaultOnlyWhenOmitted(currency: Argument)
    ensures RegisterPayload("", "", "", currency).currency == DefaultRegisterCurrency <==>
      currency.Omitted? || currency.value == DefaultRegisterCurrency
  {
  }
}
