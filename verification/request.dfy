/** One Graph API request (`Request`): its HTTP method, endpoint, parameters,
    access token and the URL built from them.

    In the client a request is an object whose `getParams` also writes the
    access token into the request's own parameters. Here a request is a
    value, and every operation that mutates it returns the updated request
    alongside its result. */
module GraphRequest {
  import opened Maybe
  import opened Strings
  import opened Assoc
  import opened UrlEncoding
  import opened GraphParams

  const BaseGraphUrl: string := "https://graph.facebook.com"
  const BaseAuthorizationUrl: string := "https://www.facebook.com"
  const MethodGet: string := "GET"
  const MethodPost: string := "POST"
  const MethodDelete: string := "DELETE"

  datatype Request = Request(
    verb: string,
    endpoint: string,
    params: Params,
    accessToken: string,
    url: string)

  /** The parameters with the access token merged in: a token that PHP
      counts as true is assigned to `access_token` (in place when the key is
      present, appended otherwise); an empty or "0" token changes nothing. */
  function WithToken(ps: Params, token: string): (r: Params)
    ensures Truthy(token) ==> Get(r, AccessTokenKey) == Some(token)
    ensures Truthy(token) ==> forall k :: k != AccessTokenKey ==> Get(r, k) == Get(ps, k)
    ensures Truthy(token) ==> Keys(r) == if HasKey(ps, AccessTokenKey) then Keys(ps) else Keys(ps) + [AccessTokenKey]
    ensures !Truthy(token) ==> r == ps
  {
    if Truthy(token) then
      GetPut(ps, AccessTokenKey, token, AccessTokenKey);
      assert forall k :: k != AccessTokenKey ==> Get(Put(ps, AccessTokenKey, token), k) == Get(ps, k) by {
        forall k | k != AccessTokenKey ensures Get(Put(ps, AccessTokenKey, token), k) == Get(ps, k) {
          GetPut(ps, AccessTokenKey, token, k);
        }
      }
      KeysPut(ps, AccessTokenKey, token);
      Put(ps, AccessTokenKey, token)
    else ps
  }

  /** Merging the token twice is merging it once. */
  lemma WithTokenIdempotent(ps: Params, token: string)
    ensures WithToken(WithToken(ps, token), token) == WithToken(ps, token)
  {
    if Truthy(token) {
      PutPresent(WithToken(ps, token), AccessTokenKey, token);
    }
  }

  /** `getParams`: the parameters with the token merged in, which are also
      stored back into the request. */
  function GetParams(req: Request): (r: (Request, Params))
    ensures r.0 == req.(params := r.1)
    ensures r.1 == WithToken(req.params, req.accessToken)
  {
    var ps := WithToken(req.params, req.accessToken);
    (req.(params := ps), ps)
  }

  /** `getParams` is idempotent: a second call neither changes the request
      again nor returns anything different. */
  lemma GetParamsIdempotent(req: Request)
    ensures GetParams(GetParams(req).0) == GetParams(req)
  {
    WithTokenIdempotent(req.params, req.accessToken);
  }

  /** `getPostParams`: the token-merged parameters for a POST, and an empty
      array, with the request untouched, for any other method. */
  function GetPostParams(req: Request): (r: (Request, Params))
    ensures req.verb == MethodPost ==> r == GetParams(req)
    ensures req.verb != MethodPost ==> r == (req, [])
  {
    if req.verb == MethodPost then GetParams(req) else (req, [])
  }

  /** `getUrlBody`: the form encoding of the request's parameters after
      `getPostParams` has run. */
  function GetUrlBody(req: Request): (r: (Request, string))
    ensures r.0 == GetPostParams(req).0
    ensures ParseQuery(r.1) == Some(r.0.params)
  {
    var req' := GetPostParams(req).0;
    ParseBuildQuery(req'.params);
    (req', BuildQuery(req'.params))
  }

  /** The URL of a request without a custom URL, before any query. */
  function GraphUrl(graphVersion: string, endpoint: string): string {
    BaseGraphUrl + "/" + graphVersion + endpoint
  }

  /** `setUrl(graphVersion, customUrl)`. A custom URL that PHP counts as true
      is the whole URL. Otherwise the URL is the Graph URL of the endpoint,
      and for every method but POST it is followed by `?` and the encoded
      token-merged parameters, which are stored back into the request. */
  function SetUrl(req: Request, graphVersion: string, customUrl: string): (r: Request)
    ensures r.verb == req.verb && r.endpoint == req.endpoint && r.accessToken == req.accessToken
    ensures Truthy(customUrl) ==> r == req.(url := customUrl)
    ensures !Truthy(customUrl) && req.verb == MethodPost ==>
      r == req.(url := GraphUrl(graphVersion, req.endpoint))
    ensures !Truthy(customUrl) && req.verb != MethodPost ==>
      r.params == WithToken(req.params, req.accessToken) &&
      r.url == GraphUrl(graphVersion, req.endpoint) + "?" + BuildQuery(r.params)
  {
    var url := if Truthy(customUrl) then customUrl else GraphUrl(graphVersion, req.endpoint);
    if req.verb != MethodPost && !Truthy(customUrl) then
      var (req', ps) := GetParams(req);
      req'.(url := url + "?" + BuildQuery(ps))
    else
      req.(url := url)
  }

  /** `new Request(method, endpoint, params, graphVersion, accessToken)`:
      the method upper-cased, then `setUrl(graphVersion)`. */
  function NewRequest(verb: string, endpoint: string, params: Params, graphVersion: string, accessToken: string): (r: Request)
    ensures r.verb == ToUpper(verb)
    ensures r.endpoint == endpoint && r.accessToken == accessToken
  {
    SetUrl(Request(ToUpper(verb), endpoint, params, accessToken, ""), graphVersion, "")
  }

  /** `getUrl`. */
  function GetUrl(req: Request): string {
    req.url
  }

  /** The text after the first `?` of a URL, if it has one. */
  function QueryOf(url: string): Option<string>
    decreases |url|
  {
    if |url| == 0 then None
    else if url[0] == '?' then Some(url[1..])
    else QueryOf(url[1..])
  }

  lemma {:induction false} QueryOfAppend(prefix: string, query: string)
    requires '?' !in prefix
    ensures QueryOf(prefix + "?" + query) == Some(query)
    decreases |prefix|
  {
    if |prefix| == 0 {
      assert prefix + "?" + query == "?" + query;
    } else {
      assert (prefix + "?" + query)[1..] == prefix[1..] + "?" + query;
      QueryOfAppend(prefix[1..], query);
    }
  }

  lemma {:induction false} QueryOfAbsent(url: string)
    requires '?' !in url
    ensures QueryOf(url) == None
    decreases |url|
  {
    if |url| > 0 {
      QueryOfAbsent(url[1..]);
    }
  }

  lemma BaseGraphUrlPlain()
    ensures '?' !in BaseGraphUrl + "/"
  {
  }

  /** The upper-casing makes the method's spelling irrelevant: `'post'`
      builds exactly the request `'POST'` does. */
  lemma NewRequestCaseInsensitive(verb: string, endpoint: string, params: Params, graphVersion: string, accessToken: string)
    ensures NewRequest(verb, endpoint, params, graphVersion, accessToken)
         == NewRequest(ToUpper(verb), endpoint, params, graphVersion, accessToken)
  {
    ToUpperIdempotent(verb);
  }

  /** A non-POST request carries its parameters in the URL: the query after
      the `?` reads back as exactly the token-merged parameters, in order,
      even when they are empty. */
  lemma GetUrlCarriesParams(verb: string, endpoint: string, params: Params, graphVersion: string, accessToken: string)
    requires ToUpper(verb) != MethodPost
    requires '?' !in graphVersion + endpoint
    ensures var r := NewRequest(verb, endpoint, params, graphVersion, accessToken);
      QueryOf(GetUrl(r)).Some? &&
      ParseQuery(QueryOf(GetUrl(r)).value) == Some(WithToken(params, accessToken))
  {
    var ps := WithToken(params, accessToken);
    var prefix := GraphUrl(graphVersion, endpoint);
    assert !Truthy("");
    assert GetUrl(NewRequest(verb, endpoint, params, graphVersion, accessToken)) == prefix + "?" + BuildQuery(ps);
    GraphUrlPlain(graphVersion, endpoint);
    QueryOfAppend(prefix, BuildQuery(ps));
    ParseBuildQuery(ps);
  }

  /** A node's endpoint `/{id}{edge}` adds no `?` to a version and id that
      hold none, when the edge holds none. */
  lemma NodeEndpointPlain(graphVersion: string, id: string, edge: string)
    requires '?' !in graphVersion + id && '?' !in edge
    ensures '?' !in graphVersion + ("/" + id + edge)
  {
    assert '?' !in graphVersion && '?' !in id;
    assert '?' !in "/" + id;
  }

  /** A Graph URL holds no `?` when the version and endpoint hold none. */
  lemma GraphUrlPlain(graphVersion: string, endpoint: string)
    requires '?' !in graphVersion + endpoint
    ensures '?' !in GraphUrl(graphVersion, endpoint)
  {
    assert GraphUrl(graphVersion, endpoint) == (BaseGraphUrl + "/") + (graphVersion + endpoint);
    BaseGraphUrlPlain();
  }

  /** A POST request has no query: its URL is the bare Graph URL, and its
      body is the encoded token-merged parameters. */
  lemma PostCarriesParamsInBody(verb: string, endpoint: string, params: Params, graphVersion: string, accessToken: string)
    requires ToUpper(verb) == MethodPost
    requires '?' !in graphVersion + endpoint
    ensures var r := NewRequest(verb, endpoint, params, graphVersion, accessToken);
      GetUrl(r) == GraphUrl(graphVersion, endpoint) &&
      QueryOf(GetUrl(r)) == None &&
      ParseQuery(GetUrlBody(r).1) == Some(WithToken(params, accessToken))
  {
    GraphUrlPlain(graphVersion, endpoint);
    QueryOfAbsent(GraphUrl(graphVersion, endpoint));
  }
}
