/** The Facebook login dialog (`FacebookLogin`): the URL a user is sent to,
    shaped like an authorization request of section 4.1.1 of RFC 6749, with
    the scope comma-joined rather than space-delimited. Nothing is sent. */
module FacebookLogin {
  import opened Maybe
  import opened Strings
  import opened Assoc
  import opened UrlEncoding
  import opened GraphParams
  import opened GraphRequest
  import opened Instagram

  const DialogEndpoint: string := "dialog/oauth"

  /** The response type the dialog asks for (`ResponseTypes::CODE`), whose
      value this model does not fix. */
  const ResponseTypeCode: string

  /** A login object: the client it extends and the application's id, which
      is `None` when the configuration lacks `app_id` (PHP reads null). */
  datatype Login = Login(client: Client, appId: Option<string>)

  function NewLogin(config: Config): (l: Login)
    ensures l.client == NewClient(config)
    ensures l.appId == Get(config, "app_id")
  {
    Login(NewClient(config), Get(config, "app_id"))
  }

  /** The dialog's parameters. `http_build_query` drops a null value, so a
      missing application id leaves `client_id` out. */
  function DialogParams(l: Login, redirectUri: string, permissions: seq<string>, state: string): (r: Params)
    ensures Keys(r) == (if l.appId.Some? then [ClientId] else []) + [RedirectUri, State, Scope, ResponseType]
    ensures Get(r, ClientId) == l.appId
    ensures forall j :: j != ClientId ==> Get(r, j) == DialogValue(redirectUri, CommaImplodeArray(permissions), state, j)
  {
    var rest := DialogRest(redirectUri, CommaImplodeArray(permissions), state);
    DialogRestKeys(redirectUri, CommaImplodeArray(permissions), state);
    assert forall j :: Get(rest, j) == DialogValue(redirectUri, CommaImplodeArray(permissions), state, j) by {
      forall j ensures Get(rest, j) == DialogValue(redirectUri, CommaImplodeArray(permissions), state, j) {
        DialogRestGet(redirectUri, CommaImplodeArray(permissions), state, j);
      }
    }
    match l.appId
    case Some(id) =>
      WithClientId(id, rest);
      [(ClientId, id)] + rest
    case None => rest
  }

  /** What the dialog's parameters hold under a key other than `client_id`. */
  function DialogValue(redirectUri: string, scope: string, state: string, j: string): Option<string> {
    if j == RedirectUri then Some(redirectUri)
    else if j == State then Some(state)
    else if j == Scope then Some(scope)
    else if j == ResponseType then Some(ResponseTypeCode)
    else None
  }

  /** The parameters after the client id. */
  function DialogRest(redirectUri: string, scope: string, state: string): Params {
    [(RedirectUri, redirectUri), (State, state), (Scope, scope), (ResponseType, ResponseTypeCode)]
  }

  lemma DialogRestKeys(redirectUri: string, scope: string, state: string)
    ensures Keys(DialogRest(redirectUri, scope, state)) == [RedirectUri, State, Scope, ResponseType]
  {
  }

  lemma DialogRestGet(redirectUri: string, scope: string, state: string, j: string)
    ensures Get(DialogRest(redirectUri, scope, state), j) == DialogValue(redirectUri, scope, state, j)
  {
    var r3 := [(ResponseType, ResponseTypeCode)];
    var r2 := [(Scope, scope)] + r3;
    var r1 := [(State, state)] + r2;
    assert DialogRest(redirectUri, scope, state) == [(RedirectUri, redirectUri)] + r1;
    GetCons(ResponseType, ResponseTypeCode, [], j);
    assert r3 == [(ResponseType, ResponseTypeCode)] + [];
    GetCons(Scope, scope, r3, j);
    GetCons(State, state, r2, j);
    GetCons(RedirectUri, redirectUri, r1, j);
  }

  lemma WithClientId(id: string, rest: Params)
    ensures Keys([(ClientId, id)] + rest) == [ClientId] + Keys(rest)
    ensures forall j :: j != ClientId ==> Get([(ClientId, id)] + rest, j) == Get(rest, j)
    ensures Get([(ClientId, id)] + rest, ClientId) == Some(id)
  {
    assert ([(ClientId, id)] + rest)[1..] == rest;
  }

  /** `getLoginDialogUrl(redirectUri, permissions, state)`. */
  function GetLoginDialogUrl(l: Login, redirectUri: string, permissions: seq<string>, state: string): (url: string)
    ensures url == DialogUrlPrefix(l.client.graphVersion) + "?" + BuildQuery(DialogParams(l, redirectUri, permissions, state))
  {
    BaseAuthorizationUrl + "/" + l.client.graphVersion + "/" + DialogEndpoint + "?" + BuildQuery(DialogParams(l, redirectUri, permissions, state))
  }

  /** The dialog URL before its query. */
  function DialogUrlPrefix(graphVersion: string): string {
    BaseAuthorizationUrl + "/" + graphVersion + "/" + DialogEndpoint
  }

  /** The dialog URL is the authorization host, the graph version and
      `dialog/oauth`; its query reads back as the client id, the redirect
      URI, the state (even when empty), the comma-joined scope and the
      response type, and no access token. */
  lemma LoginDialogQuery(l: Login, redirectUri: string, permissions: seq<string>, state: string)
    requires '?' !in l.client.graphVersion
    ensures var url := GetLoginDialogUrl(l, redirectUri, permissions, state);
      && QueryOf(url).Some?
      && ParseQuery(QueryOf(url).value) == Some(DialogParams(l, redirectUri, permissions, state))
      && !HasKey(ParseQuery(QueryOf(url).value).value, AccessTokenKey)
  {
    var prefix := DialogUrlPrefix(l.client.graphVersion);
    DialogPrefixPlain(l.client.graphVersion);
    var ps := DialogParams(l, redirectUri, permissions, state);
    QueryOfAppend(prefix, BuildQuery(ps));
    ParseBuildQuery(ps);
    DialogParamsNoToken(l, redirectUri, permissions, state);
  }

  lemma DialogPrefixPlain(graphVersion: string)
    requires '?' !in graphVersion
    ensures '?' !in DialogUrlPrefix(graphVersion)
  {
    assert DialogUrlPrefix(graphVersion) == (BaseAuthorizationUrl + "/") + graphVersion + ("/" + DialogEndpoint);
    assert '?' !in BaseAuthorizationUrl + "/";
    assert '?' !in "/" + DialogEndpoint;
  }

  lemma DialogParamsNoToken(l: Login, redirectUri: string, permissions: seq<string>, state: string)
    ensures !HasKey(DialogParams(l, redirectUri, permissions, state), AccessTokenKey)
  {
    assert DialogValue(redirectUri, CommaImplodeArray(permissions), state, AccessTokenKey) == None;
  }

  /** The scope loses nothing: it splits back into the permissions asked
      for, when there is at least one and none holds a comma. */
  lemma LoginDialogScope(l: Login, redirectUri: string, permissions: seq<string>, state: string)
    requires |permissions| >= 1
    requires forall k :: 0 <= k < |permissions| ==> ',' !in permissions[k]
    ensures Split(Get(DialogParams(l, redirectUri, permissions, state), Scope).value, ',') == permissions
  {
    CommaImplodeSplit(permissions);
  }
}
