/** Access tokens (`AccessToken`): the token's state, how a token response
    updates it, the long-lived test, and the requests that exchange, debug
    and inspect tokens.

    The clock is a parameter `now` (seconds, as `time()` returns). */
module AccessTokens {
  import opened Maybe
  import opened Strings
  import opened Assoc
  import opened UrlEncoding
  import opened GraphParams
  import opened JsonValue
  import opened GraphRequest
  import opened Instagram

  const DebugEndpoint: string := "debug_token"
  const PermissionsEndpoint: string := "permissions"
  const TokenEndpoint: string := "oauth/access_token"
  const ExpiresIn: string := "expires_in"

  /** The grant type of a token exchange, as the endpoint's documentation
      writes it. */
  const GrantFbExchangeToken: string := "fb_exchange_token"

  /** Two hours: a token expiring later than this from now is long lived. */
  const LongLivedMargin: int := 60 * 60 * 2

  /** The state of an `AccessToken` object: the client it extends, the
      application's id and secret, the token's value and expiry time (0 for
      none) and the user it belongs to. */
  datatype Token = Token(
    client: Client,
    appId: string,
    appSecret: string,
    value: Json,
    expiresAt: int,
    userId: string)

  /** The constructor: the client's configuration, and `app_id`,
      `app_secret`, `value` and `user_id` defaulting to ""; `expires_at`, an
      integer entry, is passed separately and defaults to 0. */
  function NewToken(config: Config, expiresAt: Option<int>): (t: Token)
    ensures t.client == NewClient(config)
    ensures HasKey(config, "app_id") ==> Some(t.appId) == Get(config, "app_id")
    ensures !HasKey(config, "app_id") ==> t.appId == ""
    ensures HasKey(config, "app_secret") ==> Some(t.appSecret) == Get(config, "app_secret")
    ensures !HasKey(config, "app_secret") ==> t.appSecret == ""
    ensures HasKey(config, "value") ==> Some(PhpString(t.value)) == Get(config, "value")
    ensures !HasKey(config, "value") ==> t.value == JStr("")
    ensures expiresAt.Some? ==> t.expiresAt == expiresAt.value
    ensures expiresAt.None? ==> t.expiresAt == 0
    ensures HasKey(config, UserId) ==> Some(t.userId) == Get(config, UserId)
    ensures !HasKey(config, UserId) ==> t.userId == ""
  {
    Token(NewClient(config), ConfigOr(config, "app_id", ""), ConfigOr(config, "app_secret", ""),
      JStr(ConfigOr(config, "value", "")), expiresAt.GetOr(0), ConfigOr(config, UserId, ""))
  }

  /** The integer PHP adds to `time()` for a decoded `expires_in`: numbers
      as they are, booleans as 1 and 0, digit strings by their value. Any
      other value makes the addition fail or guess, and has no value here. */
  function SecondsOf(v: Json): Option<int> {
    match v
    case JNum(n) => Some(n)
    case JBool(b) => Some(if b then 1 else 0)
    case JStr(s) =>
      if |s| > 0 && forall k :: 0 <= k < |s| ==> '0' <= s[k] <= '9' then Some(DigitsValue(s)) else None
    case _ => None
  }

  /** `setDataFromResponse(response)`: when the response sets
      `access_token`, it becomes the value, and the expiry becomes `now`
      plus `expires_in` when that is set and 0 otherwise. Without a token
      nothing changes. `None` is an `expires_in` that has no integer value. */
  function SetDataFromResponse(t: Token, response: Members, now: int): (r: Option<Token>)
    ensures !Isset(response, [AccessTokenKey]) ==> r == Some(t)
    ensures Isset(response, [AccessTokenKey]) && !Isset(response, [ExpiresIn]) ==>
      r == Some(t.(value := Lookup(response, [AccessTokenKey]).value, expiresAt := 0))
    ensures Isset(response, [AccessTokenKey]) && Isset(response, [ExpiresIn]) ==>
      (r.Some? <==> SecondsOf(Lookup(response, [ExpiresIn]).value).Some?)
    ensures r.Some? && Isset(response, [AccessTokenKey]) && Isset(response, [ExpiresIn]) ==>
      r.value == t.(value := Lookup(response, [AccessTokenKey]).value,
                    expiresAt := now + SecondsOf(Lookup(response, [ExpiresIn]).value).value)
  {
    if Isset(response, [AccessTokenKey]) then
      var value := Lookup(response, [AccessTokenKey]).value;
      if Isset(response, [ExpiresIn]) then
        match SecondsOf(Lookup(response, [ExpiresIn]).value)
        case Some(n) => Some(t.(value := value, expiresAt := now + n))
        case None => None
      else Some(t.(value := value, expiresAt := 0))
    else Some(t)
  }

  /** `isLongLived()`: a token without an expiry is long lived; one with an
      expiry is long lived when it expires more than two hours after `now`. */
  predicate IsLongLived(t: Token, now: int) {
    if t.expiresAt != 0 then t.expiresAt > now + LongLivedMargin else true
  }

  /** A long-lived token stays long lived at every earlier time. */
  lemma LongLivedEarlier(t: Token, now: int, earlier: int)
    requires earlier <= now && IsLongLived(t, now)
    ensures IsLongLived(t, earlier)
  {
  }

  /** A token read from a response that says it lives `n` more seconds is,
      at the time it was read, long lived exactly when `n` exceeds two
      hours; one whose response gives no lifetime is always long lived. */
  lemma FreshTokenLongLived(t: Token, response: Members, now: int)
    requires now > 0
    requires Isset(response, [AccessTokenKey])
    requires Isset(response, [ExpiresIn]) ==> SecondsOf(Lookup(response, [ExpiresIn]).value).Some?
    ensures SetDataFromResponse(t, response, now).Some?
    ensures !Isset(response, [ExpiresIn]) ==>
      forall later :: IsLongLived(SetDataFromResponse(t, response, now).value, later)
    ensures Isset(response, [ExpiresIn]) && SecondsOf(Lookup(response, [ExpiresIn]).value).value >= 0 ==>
      (IsLongLived(SetDataFromResponse(t, response, now).value, now) <==>
       SecondsOf(Lookup(response, [ExpiresIn]).value).value > LongLivedMargin)
  {
  }

  /** Applying a response twice at the same time is applying it once. */
  lemma SetDataFromResponseIdempotent(t: Token, response: Members, now: int)
    requires SetDataFromResponse(t, response, now).Some?
    ensures SetDataFromResponse(SetDataFromResponse(t, response, now).value, response, now)
         == SetDataFromResponse(t, response, now)
  {
  }

  // ---------------------------------------------------------------------------
  // Requests
  // ---------------------------------------------------------------------------

  /** `debug()`: GET `/debug_token` with the token's value as `input_token`,
      written as the query writes it (`false` as "0"). A null value is left
      out of the query, so no `input_token` is sent. */
  function DebugCall(t: Token): (call: ApiCall)
    ensures call.verb == GET && call.args.endpoint == "/" + DebugEndpoint
    ensures t.value.JNull? ==> call.args.params == Some([])
    ensures !t.value.JNull? ==> call.args.params == Some([(InputToken, QueryText(t.value))])
    ensures t.value.JStr? ==> Get(call.args.params.value, InputToken) == Some(t.value.s)
    ensures t.value == JBool(false) ==> Get(call.args.params.value, InputToken) == Some("0")
  {
    var params := if t.value.JNull? then [] else [(InputToken, QueryText(t.value))];
    ApiCall(GET, Args("/" + DebugEndpoint, Some(params)))
  }

  /** The parameters of `getAccessTokenFromCode(code, redirectUri)`. */
  function CodeExchangeParams(t: Token, code: string, redirectUri: string): Params {
    [(ClientId, t.appId), (ClientSecret, t.appSecret), (RedirectUri, redirectUri), (Code, code)]
  }

  /** The parameters of `getLongLivedAccessToken(accessToken)`. */
  function LongLivedParams(t: Token, accessToken: string): Params {
    [(ClientId, t.appId), (ClientSecret, t.appSecret), (FbExchangeToken, accessToken), (GrantType, GrantFbExchangeToken)]
  }

  /** A token exchange: GET `/oauth/access_token` with the exchange's
      parameters, then the token state set from the response. */
  function Exchange(t: Token, params: Params, send: Transport, now: int): (r: (Option<Token>, Outcome))
    ensures r.1 == Perform(t.client, ApiCall(GET, Args("/" + TokenEndpoint, Some(params))), send)
    ensures r.1.client.request.Some?
    ensures var req := r.1.client.request.value;
      req.verb == MethodGet && req.endpoint == "/" + TokenEndpoint &&
      req.params == WithToken(params, t.client.accessToken)
  {
    var o := Perform(t.client, ApiCall(GET, Args("/" + TokenEndpoint, Some(params))), send);
    (SetDataFromResponse(t.(client := o.client), o.response, now), o)
  }

  /** The token an exchange yields is read from the raw response: without an
      `access_token` the token keeps its value, and with one it takes that
      value; either way it holds the client after the request. */
  lemma ExchangeReadsRawToken(t: Token, params: Params, send: Transport, now: int)
    ensures var r := Exchange(t, params, send, now); var raw := send(r.1.client.request.value);
      !Isset(raw, [AccessTokenKey]) ==> r.0 == Some(t.(client := r.1.client))
    ensures var r := Exchange(t, params, send, now); var raw := send(r.1.client.request.value);
      r.0.Some? && Isset(raw, [AccessTokenKey]) ==>
        r.0.value.value == Lookup(raw, [AccessTokenKey]).value && r.0.value.client == r.1.client
  {
    var o := Exchange(t, params, send, now).1;
    ResponseKeepsTokenKeys(o.response, send(o.client.request.value));
  }

  /** The response the client returns reads like the raw one on the token
      keys: only the paging link keys are added. */
  lemma ResponseKeepsTokenKeys(response: Members, raw: Members)
    requires forall k :: k != PagingNextLink && k != PagingPreviousLink ==> Get(response, k) == Get(raw, k)
    ensures Lookup(response, [AccessTokenKey]) == Lookup(raw, [AccessTokenKey])
    ensures Lookup(response, [ExpiresIn]) == Lookup(raw, [ExpiresIn])
  {
    assert Get(response, AccessTokenKey) == Get(raw, AccessTokenKey);
    assert Get(response, ExpiresIn) == Get(raw, ExpiresIn);
  }

  /** `getAccessTokenFromCode(code, redirectUri)`. */
  function GetAccessTokenFromCode(t: Token, code: string, redirectUri: string, send: Transport, now: int): (r: (Option<Token>, Outcome))
    ensures r == Exchange(t, CodeExchangeParams(t, code, redirectUri), send, now)
    ensures r.1.client.request.value.params == WithToken(CodeExchangeParams(t, code, redirectUri), t.client.accessToken)
  {
    Exchange(t, CodeExchangeParams(t, code, redirectUri), send, now)
  }

  /** `getLongLivedAccessToken(accessToken)`. */
  function GetLongLivedAccessToken(t: Token, accessToken: string, send: Transport, now: int): (r: (Option<Token>, Outcome))
    ensures r == Exchange(t, LongLivedParams(t, accessToken), send, now)
    ensures r.1.client.request.value.params == WithToken(LongLivedParams(t, accessToken), t.client.accessToken)
  {
    Exchange(t, LongLivedParams(t, accessToken), send, now)
  }

  /** A token exchange URL carries the exchange's parameters in the order
      written, then the client's token. */
  lemma ExchangeQuery(c: Client, ps: Params)
    requires '?' !in c.graphVersion
    requires |ps| == 4 && !HasKey(ps, AccessTokenKey)
    ensures var req := NewRequest(MethodGet, "/" + TokenEndpoint, ps, c.graphVersion, c.accessToken);
      && QueryOf(GetUrl(req)).Some?
      && ParseQuery(QueryOf(GetUrl(req)).value).Some?
      && |Keys(ParseQuery(QueryOf(GetUrl(req)).value).value)| >= 4
      && Keys(ParseQuery(QueryOf(GetUrl(req)).value).value)[..4] == Keys(ps)
      && forall k :: k != AccessTokenKey ==> Get(ParseQuery(QueryOf(GetUrl(req)).value).value, k) == Get(ps, k)
  {
    assert '?' !in c.graphVersion + "/" + TokenEndpoint;
    assert ToUpper(MethodGet) == MethodGet;
    GetUrlCarriesParams(MethodGet, "/" + TokenEndpoint, ps, c.graphVersion, c.accessToken);
  }

  /** The code exchange sends the application's credentials, the redirect
      URI and the code, in that order. */
  lemma CodeExchangeQuery(t: Token, code: string, redirectUri: string)
    requires '?' !in t.client.graphVersion
    ensures var req := NewRequest(MethodGet, "/" + TokenEndpoint, CodeExchangeParams(t, code, redirectUri), t.client.graphVersion, t.client.accessToken);
      && QueryOf(GetUrl(req)).Some?
      && ParseQuery(QueryOf(GetUrl(req)).value).Some?
      && |Keys(ParseQuery(QueryOf(GetUrl(req)).value).value)| >= 4
      && Keys(ParseQuery(QueryOf(GetUrl(req)).value).value)[..4] == [ClientId, ClientSecret, RedirectUri, Code]
  {
    var ps := CodeExchangeParams(t, code, redirectUri);
    assert Keys(ps) == [ClientId, ClientSecret, RedirectUri, Code];
    assert AccessTokenKey !in Keys(ps);
    ExchangeQuery(t.client, ps);
  }

  /** The long-lived exchange sends the application's credentials, the token
      to exchange and the grant type, in that order. */
  lemma LongLivedQuery(t: Token, accessToken: string)
    requires '?' !in t.client.graphVersion
    ensures var req := NewRequest(MethodGet, "/" + TokenEndpoint, LongLivedParams(t, accessToken), t.client.graphVersion, t.client.accessToken);
      && QueryOf(GetUrl(req)).Some?
      && ParseQuery(QueryOf(GetUrl(req)).value).Some?
      && |Keys(ParseQuery(QueryOf(GetUrl(req)).value).value)| >= 4
      && Keys(ParseQuery(QueryOf(GetUrl(req)).value).value)[..4] == [ClientId, ClientSecret, FbExchangeToken, GrantType]
  {
    var ps := LongLivedParams(t, accessToken);
    assert Keys(ps) == [ClientId, ClientSecret, FbExchangeToken, GrantType];
    assert AccessTokenKey !in Keys(ps);
    ExchangeQuery(t.client, ps);
  }

  /** `getPermissions()`: GET `/{user-id}/permissions` with no parameters. */
  function GetPermissionsCall(t: Token): (call: ApiCall)
    ensures call.verb == GET && call.args.params == None
    ensures call.args.endpoint == "/" + t.userId + "/" + PermissionsEndpoint
  {
    ApiCall(GET, Args("/" + t.userId + "/" + PermissionsEndpoint, None))
  }

  /** `revokePermissions(permissionName)`: DELETE the permission under the
      permissions endpoint; the default name "" revokes them all. */
  function RevokePermissionsCall(t: Token, permissionName: string): (call: ApiCall)
    ensures call.verb == DELETE && call.args.params == None
    ensures call.args.endpoint == GetPermissionsCall(t).args.endpoint + "/" + permissionName
  {
    ApiCall(DELETE, Args("/" + t.userId + "/" + PermissionsEndpoint + "/" + permissionName, None))
  }

  /** Revoking every permission targets the permissions endpoint with a
      trailing slash. */
  lemma RevokeAllTrailingSlash(t: Token)
    ensures var e := RevokePermissionsCall(t, "").args.endpoint;
      |e| > 0 && e[|e| - 1] == '/' && e[..|e| - 1] == GetPermissionsCall(t).args.endpoint
    ensures Perform(t.client, RevokePermissionsCall(t, ""), (req: Request) => []).client.request.value.params
         == WithToken([], t.client.accessToken)
  {
  }
}
