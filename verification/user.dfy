/** The Instagram user node (`User`): the account's own fields, and its
    Facebook pages with cursor pagination in both directions. */
module GraphUser {
  import opened Maybe
  import opened Strings
  import opened Assoc
  import opened UrlEncoding
  import opened GraphParams
  import opened JsonValue
  import opened GraphRequest
  import opened GraphFields
  import opened Instagram

  const UserAccountsEndpoint: string := "me/accounts"

  const UserFields: seq<string> :=
    ["biography", "id", "ig_id", "followers_count", "follows_count", "media_count",
     "name", "profile_picture_url", "username", "website"]

  /** A client bound to one Instagram user id. */
  datatype UserNode = UserNode(client: Client, userId: string)

  /** The constructor: the client's configuration, and `user_id` or "". */
  function NewUser(config: Config): (u: UserNode)
    ensures u.client == NewClient(config)
    ensures HasKey(config, UserId) ==> Some(u.userId) == Get(config, UserId)
    ensures !HasKey(config, UserId) ==> u.userId == ""
  {
    UserNode(NewClient(config), ConfigOr(config, UserId, ""))
  }

  lemma UserFieldsAreNames()
    ensures FieldNames(UserFields)
  {
    UserFieldsHeadAreNames();
    UserFieldsTailAreNames();
  }

  lemma UserFieldsHeadAreNames()
    ensures FieldName("biography") && FieldName("id") && FieldName("ig_id")
    ensures FieldName("followers_count") && FieldName("follows_count")
  {
  }

  lemma UserFieldsTailAreNames()
    ensures FieldName("media_count") && FieldName("name") && FieldName("profile_picture_url")
    ensures FieldName("username") && FieldName("website")
  {
  }

  /** `getSelf(params)`: a GET of the user node, with the user fields
      comma-joined as `fields` unless the caller gave parameters. */
  function GetSelfCall(u: UserNode, params: Params): (call: ApiCall)
    ensures call.verb == GET && call.args.endpoint == "/" + u.userId
    ensures call.args.params.Some?
    ensures |params| > 0 ==> call.args.params.value == params
    ensures |params| == 0 ==>
      Keys(call.args.params.value) == [FieldsKey] && Split(Get(call.args.params.value, FieldsKey).value, ',') == UserFields
  {
    UserFieldsAreNames();
    NamesArePlain(UserFields);
    GetFieldsParamSplit(UserFields);
    ApiCall(GET, Args("/" + u.userId, Some(ParamsOr(params, GetFieldsParam(Names(UserFields), true).value))))
  }

  /** The paging keys of a response that `calcLinkFromCursor` reads. */
  function CursorPath(cursorType: string): seq<string> {
    [Paging, Cursors, cursorType]
  }

  /** `getUserPages(params)`: GET `/me/accounts` with the caller's
      parameters; then the next link from the `after` cursor and the
      previous link from the `before` cursor, each built from the caller's
      parameters; then the links are set. */
  function GetUserPages(u: UserNode, params: Params, send: Transport): (r: Outcome)
    ensures r.client.request.Some?
    ensures var req := r.client.request.value;
      req.verb == MethodGet && req.endpoint == "/" + UserAccountsEndpoint &&
      req.params == WithToken(params, u.client.accessToken)
    ensures var raw := send(r.client.request.value);
      r.client.pagingNextLink ==
        if Isset(raw, CursorPath(After)) then
          JStr(GetUrl(CursorRequest(u.client, After, Lookup(raw, CursorPath(After)).value, "/" + UserAccountsEndpoint, params)))
        else IssetOr(raw, [Paging, Next], JStr(""))
    ensures var raw := send(r.client.request.value);
      r.client.pagingPreviousLink ==
        if Isset(raw, CursorPath(Before)) then
          JStr(GetUrl(CursorRequest(u.client, Before, Lookup(raw, CursorPath(Before)).value, "/" + UserAccountsEndpoint, params)))
        else IssetOr(raw, [Paging, Previous], JStr(""))
  {
    var endpoint := "/" + UserAccountsEndpoint;
    var o := Perform(u.client, ApiCall(GET, Args(endpoint, Some(params))), send);
    var r1 := CalcLinkFromCursor(o.client, After, o.response, endpoint, params);
    var r2 := CalcLinkFromCursor(o.client, Before, r1, endpoint, params);
    // The links `sendRequest` adds sit outside `paging`.
    assert Get(o.response, Paging) == Get(send(o.client.request.value), Paging);
    assert o.client.graphVersion == u.client.graphVersion && o.client.accessToken == u.client.accessToken;
    NextLinkFromRaw(o.client, endpoint, params, o.response, send(o.client.request.value), r1, r2);
    PreviousLinkFromRaw(o.client, endpoint, params, o.response, send(o.client.request.value), r1, r2);
    SetPrevNextLinks(o.client, r2)
  }

  /** The next link after the `after` and then the `before` cursor links,
      read off a raw response whose `paging` the response shares. */
  lemma NextLinkFromRaw(c: Client, endpoint: string, params: Params, response: Members, raw: Members, r1: Members, r2: Members)
    requires Get(response, Paging) == Get(raw, Paging)
    requires r1 == CalcLinkFromCursor(c, After, response, endpoint, params)
    requires r2 == CalcLinkFromCursor(c, Before, r1, endpoint, params)
    ensures IssetOr(r2, [Paging, Next], JStr("")) ==
      if Isset(raw, CursorPath(After)) then JStr(GetUrl(CursorRequest(c, After, Lookup(raw, CursorPath(After)).value, endpoint, params)))
      else IssetOr(raw, [Paging, Next], JStr(""))
  {
    LookupSameHead(response, raw, CursorPath(After));
    LookupSameHead(response, raw, [Paging, Next]);
    // The before link leaves the next link alone.
    assert Lookup(r2, [Paging, Next]) == Lookup(r1, [Paging, Next]);
  }

  /** The previous link after the `after` and then the `before` cursor
      links, read off a raw response whose `paging` the response shares. */
  lemma PreviousLinkFromRaw(c: Client, endpoint: string, params: Params, response: Members, raw: Members, r1: Members, r2: Members)
    requires Get(response, Paging) == Get(raw, Paging)
    requires r1 == CalcLinkFromCursor(c, After, response, endpoint, params)
    requires r2 == CalcLinkFromCursor(c, Before, r1, endpoint, params)
    ensures IssetOr(r2, [Paging, Previous], JStr("")) ==
      if Isset(raw, CursorPath(Before)) then JStr(GetUrl(CursorRequest(c, Before, Lookup(raw, CursorPath(Before)).value, endpoint, params)))
      else IssetOr(raw, [Paging, Previous], JStr(""))
  {
    LookupSameHead(response, raw, CursorPath(Before));
    LookupSameHead(response, raw, [Paging, Previous]);
    // The after link leaves the cursors and the previous link alone.
    assert Lookup(r1, [Paging, Cursors]) == Lookup(response, [Paging, Cursors]);
    LookupSamePrefix(r1, response, [Paging, Cursors], [Before]);
    assert [Paging, Cursors] + [Before] == CursorPath(Before);
  }

  /** Each link starts again from the caller's parameters: the previous link
      carries the `before` cursor and, unless the caller supplied one, no
      `after` cursor. */
  lemma PreviousLinkHasNoAfterCursor(c: Client, cursor: Json, params: Params)
    requires !cursor.JNull?
    requires !HasKey(params, After)
    requires '?' !in c.graphVersion
    ensures var url := GetUrl(CursorRequest(c, Before, cursor, "/" + UserAccountsEndpoint, params));
      QueryOf(url).Some? && ParseQuery(QueryOf(url).value).Some? &&
      Get(ParseQuery(QueryOf(url).value).value, Before) == Some(QueryText(cursor)) &&
      !HasKey(ParseQuery(QueryOf(url).value).value, After)
  {
    var endpoint := "/" + UserAccountsEndpoint;
    assert '?' !in c.graphVersion + endpoint;
    CursorLinkCarriesCursor(c, Before, cursor, endpoint, params);
    var ps := Put(params, Before, QueryText(cursor));
    GetPut(params, Before, QueryText(cursor), Before);
    GetPut(params, Before, QueryText(cursor), After);
    assert Get(WithToken(ps, c.accessToken), After) == Get(ps, After);
    assert Get(WithToken(ps, c.accessToken), Before) == Get(ps, Before);
  }
}
