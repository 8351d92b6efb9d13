/** The client core (`Instagram`): its configuration, the request helpers
    `get` / `post` / `delete`, custom requests, and cursor pagination.

    The HTTP transport is a parameter: a function from the request sent to
    the decoded response. The client's state is a value that each operation
    returns updated, together with the response. */
module Instagram {
  import opened Maybe
  import opened Strings
  import opened Assoc
  import opened UrlEncoding
  import opened GraphParams
  import opened JsonValue
  import opened GraphRequest

  const DefaultGraphVersion: string := "v14.0"
  const Paging: string := "paging"
  const Cursors: string := "cursors"
  const PagingNextLink: string := "paging_next_link"
  const PagingPreviousLink: string := "paging_previous_link"

  /** A configuration array of strings, as passed to the constructors. */
  type Config = Pairs<string>

  /** The state an `Instagram` object carries between calls. */
  datatype Client = Client(
    graphVersion: string,
    accessToken: string,
    request: Option<Request>,
    pagingNextLink: Json,
    pagingPreviousLink: Json)

  /** The transport: what the Graph API answers to a request. */
  type Transport = Request -> Members

  /** A response together with the client state after the call. */
  datatype Outcome = Outcome(client: Client, response: Members)

  datatype Verb = GET | POST | DELETE {
    function Name(): string {
      match this
      case GET => MethodGet
      case POST => MethodPost
      case DELETE => MethodDelete
    }
  }

  /** The method names are already upper-case. */
  lemma VerbNameUpper(v: Verb)
    ensures ToUpper(v.Name()) == v.Name()
  {
    match v
    case GET => assert ToUpper("GET") == "GET";
    case POST => assert ToUpper("POST") == "POST";
    case DELETE => assert ToUpper("DELETE") == "DELETE";
  }

  /** The argument of `get` / `post` / `delete`: an endpoint and, when the
      `params` entry is set, the parameters. */
  datatype Args = Args(endpoint: string, params: Option<Params>)

  /** A call a resource wrapper makes: the helper it uses and its argument. */
  datatype ApiCall = ApiCall(verb: Verb, args: Args)

  /** `$config[k]` when it is set, `default` otherwise. */
  function ConfigOr(config: Config, k: string, default: string): (r: string)
    ensures HasKey(config, k) ==> Some(r) == Get(config, k)
    ensures !HasKey(config, k) ==> r == default
  {
    Get(config, k).GetOr(default)
  }

  /** The constructor: access token and graph version from the
      configuration, defaulting to "" and `v14.0`; no request yet and empty
      paging links. */
  function NewClient(config: Config): (c: Client)
    ensures HasKey(config, "access_token") ==> Some(c.accessToken) == Get(config, "access_token")
    ensures !HasKey(config, "access_token") ==> c.accessToken == ""
    ensures HasKey(config, "graph_version") ==> Some(c.graphVersion) == Get(config, "graph_version")
    ensures !HasKey(config, "graph_version") ==> c.graphVersion == DefaultGraphVersion
    ensures c.request == None && c.pagingNextLink == JStr("") && c.pagingPreviousLink == JStr("")
  {
    Client(
      ConfigOr(config, "graph_version", DefaultGraphVersion),
      ConfigOr(config, "access_token", ""),
      None, JStr(""), JStr(""))
  }

  /** `setPrevNextLinks`: `paging.next` and `paging.previous`, or "" when
      not set, are written into the response as `paging_next_link` and
      `paging_previous_link` and kept as the client's links. */
  function SetPrevNextLinks(c: Client, response: Members): (r: Outcome)
    ensures r.client == c.(pagingNextLink := IssetOr(response, [Paging, Next], JStr("")),
                            pagingPreviousLink := IssetOr(response, [Paging, Previous], JStr("")))
    ensures Get(r.response, PagingNextLink) == Some(r.client.pagingNextLink)
    ensures Get(r.response, PagingPreviousLink) == Some(r.client.pagingPreviousLink)
    ensures forall k :: k != PagingNextLink && k != PagingPreviousLink ==> Get(r.response, k) == Get(response, k)
  {
    var next := IssetOr(response, [Paging, Next], JStr(""));
    var previous := IssetOr(response, [Paging, Previous], JStr(""));
    var r1 := Put(response, PagingNextLink, next);
    var r2 := Put(r1, PagingPreviousLink, previous);
    SetPrevNextLinksFacts(response, next, previous);
    Outcome(c.(pagingNextLink := next, pagingPreviousLink := previous), r2)
  }

  lemma SetPrevNextLinksFacts(response: Members, next: Json, previous: Json)
    ensures var r := Put(Put(response, PagingNextLink, next), PagingPreviousLink, previous);
      && Get(r, PagingNextLink) == Some(next)
      && Get(r, PagingPreviousLink) == Some(previous)
      && forall k :: k != PagingNextLink && k != PagingPreviousLink ==> Get(r, k) == Get(response, k)
  {
    var r1 := Put(response, PagingNextLink, next);
    GetPut(response, PagingNextLink, next, PagingNextLink);
    GetPut(r1, PagingPreviousLink, previous, PagingNextLink);
    GetPut(r1, PagingPreviousLink, previous, PagingPreviousLink);
    forall k | k != PagingNextLink && k != PagingPreviousLink
      ensures Get(Put(r1, PagingPreviousLink, previous), k) == Get(response, k)
    {
      GetPut(response, PagingNextLink, next, k);
      GetPut(r1, PagingPreviousLink, previous, k);
    }
  }

  /** Setting the links again changes nothing: the paging the links come
      from is not touched by setting them. */
  lemma SetPrevNextLinksIdempotent(c: Client, response: Members)
    ensures var o := SetPrevNextLinks(c, response);
      SetPrevNextLinks(o.client, o.response).client == o.client
  {
    var o := SetPrevNextLinks(c, response);
    assert Get(o.response, Paging) == Get(response, Paging);
    LookupSameHead(o.response, response, [Paging, Next]);
    LookupSameHead(o.response, response, [Paging, Previous]);
  }

  /** A path reads the same in two responses that agree on its first key. */
  lemma LookupSameHead(m1: Members, m2: Members, path: seq<string>)
    requires |path| > 0 && Get(m1, path[0]) == Get(m2, path[0])
    ensures Lookup(m1, path) == Lookup(m2, path)
  {
  }

  /** `sendRequest`: build the request from the client's version and token,
      send it, and set the paging links from the response. */
  function SendRequest(c: Client, verb: string, endpoint: string, params: Params, send: Transport): (r: Outcome)
    ensures var req := NewRequest(verb, endpoint, params, c.graphVersion, c.accessToken);
      r == SetPrevNextLinks(c.(request := Some(req)), send(req))
    ensures HasKey(r.response, PagingNextLink) && HasKey(r.response, PagingPreviousLink)
  {
    var req := NewRequest(verb, endpoint, params, c.graphVersion, c.accessToken);
    SetPrevNextLinks(c.(request := Some(req)), send(req))
  }

  /** `get` / `post` / `delete`: the helper's method to the argument's
      endpoint, with the argument's parameters or an empty array. */
  function Perform(c: Client, call: ApiCall, send: Transport): (r: Outcome)
    ensures r == SendRequest(c, call.verb.Name(), call.args.endpoint, call.args.params.GetOr([]), send)
    ensures r.client.request.Some? && r.client.request.value.verb == call.verb.Name()
    ensures r.client.request.value.endpoint == call.args.endpoint
    ensures call.verb != POST ==> r.client.request.value.params == WithToken(call.args.params.GetOr([]), c.accessToken)
    ensures call.verb == POST ==> r.client.request.value.params == call.args.params.GetOr([])
  {
    VerbNameUpper(call.verb);
    SendRequest(c, call.verb.Name(), call.args.endpoint, call.args.params.GetOr([]), send)
  }

  /** `sendCustomRequest(customUrl)`: a GET request whose URL is
      `customUrl` when PHP counts it as true, and otherwise the version's
      Graph URL with an empty query. The response to it supplies the new
      paging links. */
  function SendCustomRequest(c: Client, customUrl: string, send: Transport): (r: Outcome)
    ensures r.client.request.Some? && r.client.request.value.verb == MethodGet
    ensures GetUrl(r.client.request.value) ==
      if Truthy(customUrl) then customUrl else GraphUrl(c.graphVersion, "") + "?"
    ensures Truthy(customUrl) ==> r.client.request.value.params == []
    ensures HasKey(r.response, PagingNextLink) && HasKey(r.response, PagingPreviousLink)
    ensures r.client.graphVersion == c.graphVersion && r.client.accessToken == c.accessToken
    ensures r.client.pagingNextLink == IssetOr(send(r.client.request.value), [Paging, Next], JStr(""))
    ensures r.client.pagingPreviousLink == IssetOr(send(r.client.request.value), [Paging, Previous], JStr(""))
  {
    assert ToUpper(MethodGet) == MethodGet;
    assert !Truthy("");
    assert BuildQuery([]) == "";
    var req := SetUrl(NewRequest(MethodGet, "", [], "", ""), c.graphVersion, customUrl);
    SetPrevNextLinks(c.(request := Some(req)), send(req))
  }

  /** A non-empty custom URL is sent verbatim, by GET, with no parameters or
      token added. */
  lemma SendCustomRequestVerbatim(c: Client, customUrl: string, send: Transport)
    requires Truthy(customUrl)
    ensures var req := SendCustomRequest(c, customUrl, send).client.request;
      req.Some? && req.value.verb == MethodGet && GetUrl(req.value) == customUrl &&
      req.value.params == [] && req.value.accessToken == ""
  {
    assert ToUpper(MethodGet) == MethodGet;
    var r0 := NewRequest(MethodGet, "", [], "", "");
    assert !Truthy("");
    assert r0.params == WithToken([], "");
    var r1 := SetUrl(r0, c.graphVersion, customUrl);
    assert r1 == r0.(url := customUrl);
    assert SendCustomRequest(c, customUrl, send).client.request == Some(r1);
  }

  /** The URL `sendCustomRequest` is handed for a held link: the link's
      text when PHP counts the link as true, and "" when it does not, so
      that an empty array falls back to the bare Graph URL like "" and null
      do. A true non-string link stands for its string cast. */
  function CustomUrlOf(link: Json): (u: string)
    ensures Truthy(u) <==> JsonTruthy(link)
    ensures link.JStr? && Truthy(link.s) ==> u == link.s
    ensures !JsonTruthy(link) ==> u == ""
  {
    PhpStringTruthy(link);
    if JsonTruthy(link) then PhpString(link) else ""
  }

  /** The link `getPage(page)` follows: the held next link for "next", the
      held previous link for any other page. */
  function HeldLink(c: Client, page: string): Json {
    if Next == page then c.pagingNextLink else c.pagingPreviousLink
  }

  /** `getPage(page)`: a GET of the held link. A link PHP counts as true is
      the whole URL; any other link (an unset "", null, `false`, or an
      empty array) leaves the custom URL unset, so the request goes to the
      Graph URL of the version with an empty query. */
  function GetPage(c: Client, page: string, send: Transport): (r: Outcome)
    ensures r == SendCustomRequest(c, CustomUrlOf(HeldLink(c, page)), send)
    ensures r.client.request.Some? && r.client.request.value.verb == MethodGet
    ensures HeldLink(c, page).JStr? && Truthy(HeldLink(c, page).s) ==>
      GetUrl(r.client.request.value) == HeldLink(c, page).s
    ensures JsonTruthy(HeldLink(c, page)) ==> GetUrl(r.client.request.value) == PhpString(HeldLink(c, page))
    ensures !JsonTruthy(HeldLink(c, page)) ==> GetUrl(r.client.request.value) == GraphUrl(c.graphVersion, "") + "?"
  {
    var u := CustomUrlOf(HeldLink(c, page));
    CustomRequestUrl(c, u, send);
    SendCustomRequest(c, u, send)
  }

  lemma CustomRequestUrl(c: Client, customUrl: string, send: Transport)
    ensures var req := SendCustomRequest(c, customUrl, send).client.request;
      req.Some? && req.value.verb == MethodGet &&
      GetUrl(req.value) == if Truthy(customUrl) then customUrl else GraphUrl(c.graphVersion, "") + "?"
  {
    if Truthy(customUrl) {
      SendCustomRequestVerbatim(c, customUrl, send);
    } else {
      SendCustomRequestBare(c, customUrl, send);
    }
  }

  /** A custom URL PHP counts as false leaves the Graph URL of the version
      alone, with no endpoint, followed by `?` and the empty query. */
  lemma SendCustomRequestBare(c: Client, customUrl: string, send: Transport)
    requires !Truthy(customUrl)
    ensures var req := SendCustomRequest(c, customUrl, send).client.request;
      req.Some? && req.value.verb == MethodGet && GetUrl(req.value) == GraphUrl(c.graphVersion, "") + "?"
  {
    assert ToUpper(MethodGet) == MethodGet;
    assert !Truthy("");
    assert BuildQuery([]) == "";
  }

  /** The paging key a cursor type fills: `next` for "after", `previous` for
      any other type. */
  function PagingOrder(cursorType: string): string {
    if After == cursorType then Next else Previous
  }

  /** The GET request for the same endpoint with the cursor added under its
      type, as the query writes it (`false` as "0"). `isset` has already
      ruled out a null cursor. */
  function CursorRequest(c: Client, cursorType: string, cursor: Json, endpoint: string, params: Params): Request
    requires !cursor.JNull?
  {
    NewRequest(MethodGet, endpoint, Put(params, cursorType, QueryText(cursor)), c.graphVersion, c.accessToken)
  }

  /** `calcLinkFromCursor(type, response, endpoint, params)`: when
      `paging.cursors[type]` is set, the URL of the GET request for the same
      endpoint with the cursor as the `type` parameter becomes
      `paging.next` (type "after") or `paging.previous` (any other type).
      Otherwise the response is unchanged. */
  function CalcLinkFromCursor(c: Client, cursorType: string, response: Members, endpoint: string, params: Params): (r: Members)
    ensures !Isset(response, [Paging, Cursors, cursorType]) ==> r == response
    ensures Isset(response, [Paging, Cursors, cursorType]) ==>
      var req := CursorRequest(c, cursorType, Lookup(response, [Paging, Cursors, cursorType]).value, endpoint, params);
      Lookup(r, [Paging, PagingOrder(cursorType)]) == Some(JStr(GetUrl(req)))
    ensures forall k :: k != Paging ==> Get(r, k) == Get(response, k)
    ensures forall k :: k != PagingOrder(cursorType) ==> Lookup(r, [Paging, k]) == Lookup(response, [Paging, k])
  {
    if Isset(response, [Paging, Cursors, cursorType]) then
      var cursor := Lookup(response, [Paging, Cursors, cursorType]).value;
      var req := CursorRequest(c, cursorType, cursor, endpoint, params);
      assert [Paging, Cursors, cursorType][1..] == [Cursors, cursorType];
      assert Isset(response, [Paging]) && Get(response, Paging).value.JObj?;
      PutNested(response, Paging, PagingOrder(cursorType), JStr(GetUrl(req)))
    else response
  }

  /** The link `calcLinkFromCursor` writes is a GET URL of the same endpoint,
      version and token whose query reads back as the caller's parameters
      with the cursor assigned under its type, then the token. */
  lemma CursorLinkCarriesCursor(c: Client, cursorType: string, cursor: Json, endpoint: string, params: Params)
    requires !cursor.JNull?
    requires '?' !in c.graphVersion + endpoint
    ensures var url := GetUrl(CursorRequest(c, cursorType, cursor, endpoint, params));
      QueryOf(url).Some? &&
      ParseQuery(QueryOf(url).value) == Some(WithToken(Put(params, cursorType, QueryText(cursor)), c.accessToken))
  {
    assert ToUpper(MethodGet) == MethodGet;
    GetUrlCarriesParams(MethodGet, endpoint, Put(params, cursorType, QueryText(cursor)), c.graphVersion, c.accessToken);
  }

  /** The GET query of a call that sends one `fields` value reads back as
      that value and the token, whatever the value holds. */
  lemma FieldsQueryReadsBack(c: Client, endpoint: string, fields: string, send: Transport)
    requires '?' !in c.graphVersion + endpoint
    ensures var req := Perform(c, ApiCall(GET, Args(endpoint, Some([(FieldsKey, fields)]))), send).client.request.value;
      QueryOf(GetUrl(req)).Some? &&
      ParseQuery(QueryOf(GetUrl(req)).value) == Some(WithToken([(FieldsKey, fields)], c.accessToken))
  {
    PerformSendsParams(c, ApiCall(GET, Args(endpoint, Some([(FieldsKey, fields)]))), send);
  }

  /** Where a helper call's parameters travel: for GET and DELETE the URL's
      query reads back as the parameters with the token merged in; a POST
      has no query and its body reads back as those parameters. */
  lemma PerformSendsParams(c: Client, call: ApiCall, send: Transport)
    requires '?' !in c.graphVersion + call.args.endpoint
    ensures var req := Perform(c, call, send).client.request.value;
      call.verb != POST ==>
        QueryOf(GetUrl(req)).Some? &&
        ParseQuery(QueryOf(GetUrl(req)).value) == Some(WithToken(call.args.params.GetOr([]), c.accessToken))
    ensures var req := Perform(c, call, send).client.request.value;
      call.verb == POST ==>
        QueryOf(GetUrl(req)) == None &&
        ParseQuery(GetUrlBody(req).1) == Some(WithToken(call.args.params.GetOr([]), c.accessToken))
  {
    VerbNameUpper(call.verb);
    var ps := call.args.params.GetOr([]);
    if call.verb == POST {
      PostCarriesParamsInBody(call.verb.Name(), call.args.endpoint, ps, c.graphVersion, c.accessToken);
    } else {
      GetUrlCarriesParams(call.verb.Name(), call.args.endpoint, ps, c.graphVersion, c.accessToken);
    }
  }
}
