/** Media the user is tagged in (`User\Tags`). */
module UserTags {
  import opened Maybe
  import opened Strings
  import opened Assoc
  import opened UrlEncoding
  import opened GraphParams
  import opened FieldExpr
  import opened GraphFields
  import opened Instagram
  import opened GraphUser

  const TagsEndpoint: string := "tags"

  /** `getParams(params)`: the caller's parameters, or `fields` asking for
      the media fields and, under `children`, the children fields. */
  function GetParams(params: Params): (r: Params)
    ensures |params| > 0 ==> r == params
    ensures |params| == 0 ==> Keys(r) == [FieldsKey]
    ensures |params| == 0 ==>
      Get(r, FieldsKey) == Some(RenderList(ListWithEdgeTree(MediaFields, "children", ChildrenFields)))
  {
    MediaWithChildrenRenders();
    FieldsParamReads(MediaWithChildren());
    ParamsOr(params, FieldsParam(MediaWithChildren()))
  }

  /** The default `fields` value is brace-balanced one level deep. */
  lemma DefaultParamsBalanced()
    ensures Balanced(Get(GetParams([]), FieldsKey).value)
    ensures HasDepth(Get(GetParams([]), FieldsKey).value, 1)
  {
    MediaWithChildrenShape();
  }

  /** `getSelf(params)`: GET `/{user-id}/tags`. */
  function GetSelfCall(u: UserNode, params: Params): (call: ApiCall)
    ensures call.verb == GET && call.args.endpoint == "/" + u.userId + "/" + TagsEndpoint
    ensures call.args.params == Some(GetParams(params))
  {
    ApiCall(GET, Args("/" + u.userId + "/" + TagsEndpoint, Some(GetParams(params))))
  }
}

/** The top media of a hashtag (`Hashtag\TopMedia`). */
module HashtagTopMedia {
  import opened Maybe
  import opened Strings
  import opened Assoc
  import opened UrlEncoding
  import opened GraphParams
  import opened GraphRequest
  import opened FieldExpr
  import opened GraphFields
  import opened Instagram

  const TopMediaEndpoint: string := "top_media"

  /** The hashtag id, which the `Hashtag` parent class holds, and the
      configured `user_id`, `None` when the configuration lacks it (PHP reads
      null). */
  datatype TopMedia = TopMedia(client: Client, hashtagId: string, userId: Option<string>)

  function NewTopMedia(config: Config, hashtagId: string): (t: TopMedia)
    ensures t.client == NewClient(config) && t.hashtagId == hashtagId
    ensures t.userId == Get(config, UserId)
  {
    TopMedia(NewClient(config), hashtagId, Get(config, UserId))
  }

  /** `getParams(params)`: the caller's parameters as they are, or `fields`
      asking for the media fields with their children, then `user_id`.
      `http_build_query` drops a null value, so an unset user id leaves the
      key out. */
  function GetParams(t: TopMedia, params: Params): (r: Params)
    ensures |params| > 0 ==> r == params
    ensures |params| == 0 ==> Keys(r) == [FieldsKey] + (if t.userId.Some? then [UserId] else [])
    ensures |params| == 0 ==>
      Get(r, FieldsKey) == Some(RenderList(ListWithEdgeTree(MediaFields, "children", ChildrenFields)))
    ensures |params| == 0 ==> Get(r, UserId) == t.userId
  {
    MediaWithChildrenRenders();
    FieldsThenUser(MediaWithChildren(), t.userId);
    ParamsOr(params, DefaultParams(MediaWithChildren(), t.userId))
  }

  function DefaultParams(fields: string, userId: Option<string>): Params {
    [(FieldsKey, fields)] + (if userId.Some? then [(UserId, userId.value)] else [])
  }

  lemma FieldsThenUser(fields: string, userId: Option<string>)
    ensures Keys(DefaultParams(fields, userId)) == [FieldsKey] + (if userId.Some? then [UserId] else [])
    ensures Get(DefaultParams(fields, userId), FieldsKey) == Some(fields)
    ensures Get(DefaultParams(fields, userId), UserId) == userId
  {
    var tail: Params := if userId.Some? then [(UserId, userId.value)] else [];
    GetCons(FieldsKey, fields, tail, FieldsKey);
    GetCons(FieldsKey, fields, tail, UserId);
    if userId.Some? {
      assert tail == [(UserId, userId.value)] + [];
      GetCons(UserId, userId.value, [], UserId);
    }
  }

  /** `getSelf(params)`: GET `/{hashtag-id}/top_media`. */
  function GetSelfCall(t: TopMedia, params: Params): (call: ApiCall)
    ensures call.verb == GET && call.args.endpoint == "/" + t.hashtagId + "/" + TopMediaEndpoint
    ensures call.args.params == Some(GetParams(t, params))
  {
    ApiCall(GET, Args("/" + t.hashtagId + "/" + TopMediaEndpoint, Some(GetParams(t, params))))
  }

  /** The query reads back as the parameters with the token merged in. */
  lemma QueryReadsBack(t: TopMedia, params: Params, send: Transport)
    requires '?' !in t.client.graphVersion + t.hashtagId
    ensures var req := Perform(t.client, GetSelfCall(t, params), send).client.request.value;
      QueryOf(GetUrl(req)).Some? &&
      ParseQuery(QueryOf(GetUrl(req)).value) == Some(WithToken(GetParams(t, params), t.client.accessToken))
  {
    var endpoint := "/" + t.hashtagId + "/" + TopMediaEndpoint;
    assert t.client.graphVersion + endpoint == (t.client.graphVersion + "/") + t.hashtagId + ("/" + TopMediaEndpoint);
    assert '?' !in t.client.graphVersion + endpoint;
    PerformSendsParams(t.client, GetSelfCall(t, params), send);
  }

  /** Hence the default query names the user exactly when one is
      configured, and a caller's parameters never gain a user id. */
  lemma UserIdInQuery(t: TopMedia, params: Params)
    ensures |params| == 0 ==> Get(WithToken(GetParams(t, params), t.client.accessToken), UserId) == t.userId
    ensures |params| > 0 ==> Get(WithToken(GetParams(t, params), t.client.accessToken), UserId) == Get(params, UserId)
  {
    TokenKeepsUserId(GetParams(t, params), t.client.accessToken);
  }

  lemma TokenKeepsUserId(ps: Params, token: string)
    ensures Get(WithToken(ps, token), UserId) == Get(ps, UserId)
  {
  }
}

/** The children of a carousel (`Media\Children`). */
module MediaChildren {
  import opened Maybe
  import opened Strings
  import opened Assoc
  import opened UrlEncoding
  import opened GraphParams
  import opened GraphFields
  import opened Instagram
  import opened MediaNode

  const ChildrenEndpoint: string := "children"

  /** The parameters: the caller's, or `fields` holding the children fields
      comma-joined. */
  function GetParams(params: Params): (r: Params)
    ensures |params| > 0 ==> r == params
    ensures |params| == 0 ==> Keys(r) == [FieldsKey] && Split(Get(r, FieldsKey).value, ',') == ChildrenFields
  {
    DefaultListsAreNames();
    NamesArePlain(ChildrenFields);
    GetFieldsParamSplit(ChildrenFields);
    ParamsOr(params, GetFieldsParam(GetDefaultMediaChildrenFields(false), true).value)
  }

  /** `getSelf(params)`: GET `/{media-id}/children`. */
  function GetSelfCall(m: MediaObj, params: Params): (call: ApiCall)
    ensures call.verb == GET && call.args.endpoint == "/" + m.mediaId + "/" + ChildrenEndpoint
    ensures call.args.params == Some(GetParams(params))
  {
    ApiCall(GET, Args("/" + m.mediaId + "/" + ChildrenEndpoint, Some(GetParams(params))))
  }
}

/** The user's live media (`User\LiveMedia`). */
module UserLiveMedia {
  import opened Maybe
  import opened Strings
  import opened Assoc
  import opened UrlEncoding
  import opened GraphParams
  import opened GraphFields
  import opened Instagram
  import opened GraphUser

  const LiveMediaEndpoint: string := "live_media"

  /** The parameters: the caller's, or `fields` holding the media fields
      comma-joined, and nothing else (no time window). */
  function GetParams(params: Params): (r: Params)
    ensures |params| > 0 ==> r == params
    ensures |params| == 0 ==> Keys(r) == [FieldsKey] && Split(Get(r, FieldsKey).value, ',') == MediaFields
  {
    DefaultListsAreNames();
    NamesArePlain(MediaFields);
    GetFieldsParamSplit(MediaFields);
    ParamsOr(params, GetFieldsParam(GetDefaultMediaFields(false), true).value)
  }

  /** `getSelf(params)`: GET `/{user-id}/live_media`. */
  function GetSelfCall(u: UserNode, params: Params): (call: ApiCall)
    ensures call.verb == GET && call.args.endpoint == "/" + u.userId + "/" + LiveMediaEndpoint
    ensures call.args.params == Some(GetParams(params))
  {
    ApiCall(GET, Args("/" + u.userId + "/" + LiveMediaEndpoint, Some(GetParams(params))))
  }
}

/** A media container's publishing status (`Container\Container`). */
module ContainerNode {
  import opened Maybe
  import opened Strings
  import opened Assoc
  import opened UrlEncoding
  import opened GraphParams
  import opened GraphFields
  import opened Instagram

  const ContainerFields: seq<string> := ["id", "status", "status_code"]

  /** A client bound to one container id; a missing `container_id` reads as
      null, which concatenates as "". */
  datatype Container = Container(client: Client, containerId: string)

  function NewContainer(config: Config): (c: Container)
    ensures c.client == NewClient(config)
    ensures HasKey(config, "container_id") ==> Some(c.containerId) == Get(config, "container_id")
    ensures !HasKey(config, "container_id") ==> c.containerId == ""
  {
    Container(NewClient(config), ConfigOr(config, "container_id", ""))
  }

  /** The parameters: the caller's, or `fields` naming the id, the status
      and the status code. */
  function GetParams(params: Params): (r: Params)
    ensures |params| > 0 ==> r == params
    ensures |params| == 0 ==> Keys(r) == [FieldsKey] && Split(Get(r, FieldsKey).value, ',') == ContainerFields
  {
    assert FieldNames(ContainerFields);
    NamesArePlain(ContainerFields);
    GetFieldsParamSplit(ContainerFields);
    ParamsOr(params, GetFieldsParam(Names(ContainerFields), true).value)
  }

  /** `getSelf(params)`: GET `/{container-id}`. */
  function GetSelfCall(c: Container, params: Params): (call: ApiCall)
    ensures call.verb == GET && call.args.endpoint == "/" + c.containerId
    ensures call.args.params == Some(GetParams(params))
  {
    ApiCall(GET, Args("/" + c.containerId, Some(GetParams(params))))
  }
}

/** A Facebook page and its Instagram business account (`Page\Page`). */
module PageNode {
  import opened Maybe
  import opened Strings
  import opened Assoc
  import opened UrlEncoding
  import opened GraphParams
  import opened Instagram

  const InstagramBusinessAccount: string := "instagram_business_account"

  /** A client bound to one page id; a missing `page_id` reads as null,
      which concatenates as "". */
  datatype Page = Page(client: Client, pageId: string)

  function NewPage(config: Config): (p: Page)
    ensures p.client == NewClient(config)
    ensures HasKey(config, "page_id") ==> Some(p.pageId) == Get(config, "page_id")
    ensures !HasKey(config, "page_id") ==> p.pageId == ""
  {
    Page(NewClient(config), ConfigOr(config, "page_id", ""))
  }

  /** The parameters: the caller's, or `fields` naming only the linked
      Instagram business account. */
  function GetParams(params: Params): (r: Params)
    ensures |params| > 0 ==> r == params
    ensures |params| == 0 ==> Keys(r) == [FieldsKey] && Get(r, FieldsKey) == Some(InstagramBusinessAccount)
  {
    ParamsOr(params, GetFieldsParam(Names([InstagramBusinessAccount]), true).value)
  }

  /** `getSelf(params)`: GET `/{page-id}`. */
  function GetSelfCall(p: Page, params: Params): (call: ApiCall)
    ensures call.verb == GET && call.args.endpoint == "/" + p.pageId
    ensures call.args.params == Some(GetParams(params))
  {
    ApiCall(GET, Args("/" + p.pageId, Some(GetParams(params))))
  }
}

/** Looking up a hashtag's id by name (`HashtagSearch\HashtagSearch`). */
module HashtagSearchNode {
  import opened Maybe
  import opened Strings
  import opened Assoc
  import opened UrlEncoding
  import opened GraphParams
  import opened GraphRequest
  import opened Instagram

  const SearchEndpoint: string := "ig_hashtag_search"

  /** The configured `user_id`, `None` when the configuration lacks it. */
  datatype HashtagSearch = HashtagSearch(client: Client, userId: Option<string>)

  function NewHashtagSearch(config: Config): (h: HashtagSearch)
    ensures h.client == NewClient(config) && h.userId == Get(config, UserId)
  {
    HashtagSearch(NewClient(config), Get(config, UserId))
  }

  /** The search parameters: `user_id`, then `q` holding the name as given.
      `http_build_query` drops a null user id. */
  function SearchParams(h: HashtagSearch, hashtagName: string): (r: Params)
    ensures Keys(r) == (if h.userId.Some? then [UserId] else []) + [Q]
    ensures Get(r, UserId) == h.userId
    ensures Get(r, Q) == Some(hashtagName)
  {
    match h.userId
    case Some(id) => [(UserId, id), (Q, hashtagName)]
    case None => [(Q, hashtagName)]
  }

  /** `getSelf(hashtagName)`: GET `/ig_hashtag_search`. */
  function GetSelfCall(h: HashtagSearch, hashtagName: string): (call: ApiCall)
    ensures call.verb == GET && call.args.endpoint == "/" + SearchEndpoint
    ensures call.args.params == Some(SearchParams(h, hashtagName))
  {
    ApiCall(GET, Args("/" + SearchEndpoint, Some(SearchParams(h, hashtagName))))
  }

  /** Any name, `#`, `&` and `=` included, reads back intact from the
      query as `q`. */
  lemma NameInQuery(h: HashtagSearch, hashtagName: string, send: Transport)
    requires '?' !in h.client.graphVersion
    ensures var req := Perform(h.client, GetSelfCall(h, hashtagName), send).client.request.value;
      QueryOf(GetUrl(req)).Some? &&
      ParseQuery(QueryOf(GetUrl(req)).value) == Some(WithToken(SearchParams(h, hashtagName), h.client.accessToken)) &&
      Get(ParseQuery(QueryOf(GetUrl(req)).value).value, Q) == Some(hashtagName)
  {
    assert '?' !in "/" + SearchEndpoint;
    assert '?' !in h.client.graphVersion + ("/" + SearchEndpoint);
    PerformSendsParams(h.client, GetSelfCall(h, hashtagName), send);
    var ps := SearchParams(h, hashtagName);
    if Truthy(h.client.accessToken) {
      assert Get(WithToken(ps, h.client.accessToken), Q) == Get(ps, Q);
    }
  }
}

/** Publishing a media container (`User\MediaPublish`). */
module UserMediaPublish {
  import opened Maybe
  import opened Strings
  import opened Assoc
  import opened UrlEncoding
  import opened GraphParams
  import opened GraphRequest
  import opened Instagram
  import opened GraphUser

  const PublishEndpoint: string := "media_publish"

  /** `create(containerId)`: POST `/{user-id}/media_publish` with exactly
      `creation_id`. */
  function CreateCall(u: UserNode, containerId: string): (call: ApiCall)
    ensures call.verb == POST && call.args.endpoint == "/" + u.userId + "/" + PublishEndpoint
    ensures call.args.params == Some([(CreationId, containerId)])
  {
    ApiCall(POST, Args("/" + u.userId + "/" + PublishEndpoint, Some([(CreationId, containerId)])))
  }

  /** The container id and the token travel in the body; the URL has no
      query. */
  lemma CreateBody(u: UserNode, containerId: string, send: Transport)
    requires '?' !in u.client.graphVersion + u.userId
    ensures var req := Perform(u.client, CreateCall(u, containerId), send).client.request.value;
      QueryOf(GetUrl(req)) == None &&
      ParseQuery(GetUrlBody(req).1) == Some(WithToken([(CreationId, containerId)], u.client.accessToken))
  {
    var endpoint := "/" + u.userId + "/" + PublishEndpoint;
    assert u.client.graphVersion + endpoint == (u.client.graphVersion + "/") + u.userId + ("/" + PublishEndpoint);
    assert '?' !in u.client.graphVersion + endpoint;
    PerformSendsParams(u.client, CreateCall(u, containerId), send);
  }
}

/** Replying where the user is mentioned (`User\Mentions`). */
module UserMentions {
  import opened Maybe
  import opened Strings
  import opened Assoc
  import opened UrlEncoding
  import opened GraphParams
  import opened GraphRequest
  import opened Instagram
  import opened GraphUser

  const MentionsEndpoint: string := "mentions"

  /** `replyToMedia(params)`: POST `/{user-id}/mentions` with the caller's
      parameters as they are. */
  function ReplyToMediaCall(u: UserNode, params: Params): (call: ApiCall)
    ensures call.verb == POST && call.args.endpoint == "/" + u.userId + "/" + MentionsEndpoint
    ensures call.args.params == Some(params)
  {
    ApiCall(POST, Args("/" + u.userId + "/" + MentionsEndpoint, Some(params)))
  }

  /** `replyToComment(params)`: the same POST. */
  function ReplyToCommentCall(u: UserNode, params: Params): (call: ApiCall)
    ensures call.verb == POST && call.args.endpoint == "/" + u.userId + "/" + MentionsEndpoint
    ensures call.args.params == Some(params)
  {
    ApiCall(POST, Args("/" + u.userId + "/" + MentionsEndpoint, Some(params)))
  }

  /** The caller's parameters, whatever they hold, read back from the body
      with the token merged in, for either reply. */
  lemma ReplyBody(u: UserNode, params: Params, toComment: bool, send: Transport)
    requires '?' !in u.client.graphVersion + u.userId
    ensures var call := if toComment then ReplyToCommentCall(u, params) else ReplyToMediaCall(u, params);
      var req := Perform(u.client, call, send).client.request.value;
      QueryOf(GetUrl(req)) == None &&
      ParseQuery(GetUrlBody(req).1) == Some(WithToken(params, u.client.accessToken))
  {
    var endpoint := "/" + u.userId + "/" + MentionsEndpoint;
    assert u.client.graphVersion + endpoint == (u.client.graphVersion + "/") + u.userId + ("/" + MentionsEndpoint);
    assert '?' !in u.client.graphVersion + endpoint;
    PerformSendsParams(u.client, if toComment then ReplyToCommentCall(u, params) else ReplyToMediaCall(u, params), send);
  }
}

/** The user's stories (`User\Stories`). */
module UserStories {
  import opened Maybe
  import opened Strings
  import opened Assoc
  import opened UrlEncoding
  import opened GraphParams
  import opened GraphRequest
  import opened Instagram
  import opened GraphUser

  const StoriesEndpoint: string := "stories"

  /** `getSelf(params)`: GET `/{user-id}/stories` with no parameters; the
      caller's are accepted and dropped. */
  function GetSelfCall(u: UserNode, params: Params): (call: ApiCall)
    ensures call.verb == GET && call.args.endpoint == "/" + u.userId + "/" + StoriesEndpoint
    ensures call.args.params.None?
  {
    ApiCall(GET, Args("/" + u.userId + "/" + StoriesEndpoint, None))
  }

  /** Whatever the caller passes, the query holds the token and nothing
      else. */
  lemma QueryIgnoresParams(u: UserNode, params: Params, send: Transport)
    requires '?' !in u.client.graphVersion + u.userId
    ensures var req := Perform(u.client, GetSelfCall(u, params), send).client.request.value;
      QueryOf(GetUrl(req)).Some? &&
      ParseQuery(QueryOf(GetUrl(req)).value) == Some(WithToken([], u.client.accessToken))
  {
    var endpoint := "/" + u.userId + "/" + StoriesEndpoint;
    assert u.client.graphVersion + endpoint == (u.client.graphVersion + "/") + u.userId + ("/" + StoriesEndpoint);
    assert '?' !in u.client.graphVersion + endpoint;
    PerformSendsParams(u.client, GetSelfCall(u, params), send);
  }
}
