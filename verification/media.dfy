/** A media object (`Media\Media`): reading it and switching its comments
    on or off. */
module MediaNode {
  import opened Maybe
  import opened Strings
  import opened Assoc
  import opened UrlEncoding
  import opened GraphParams
  import opened FieldExpr
  import opened GraphRequest
  import opened GraphFields
  import opened Instagram

  /** A client bound to one media id. The configuration's `media_id` is read
      without a default; a missing one reads as null, which concatenates as
      "". */
  datatype MediaObj = MediaObj(client: Client, mediaId: string)

  function NewMedia(config: Config): (m: MediaObj)
    ensures m.client == NewClient(config)
    ensures HasKey(config, "media_id") ==> Some(m.mediaId) == Get(config, "media_id")
    ensures !HasKey(config, "media_id") ==> m.mediaId == ""
  {
    MediaObj(NewClient(config), ConfigOr(config, "media_id", ""))
  }

  /** `getParams(params)`: the caller's parameters, or `fields` holding the
      default media field string. */
  function GetParams(params: Params): (r: Params)
    ensures |params| > 0 ==> r == params
    ensures |params| == 0 ==> Keys(r) == [FieldsKey] && Get(r, FieldsKey) == Some(DefaultMediaFieldsString())
  {
    ParamsOr(params, FieldsParam(DefaultMediaFieldsString()))
  }

  /** The default `fields` value is a brace-balanced expression two levels
      deep: media fields, `children{…}`, `comments{…,replies{…}}`. */
  lemma DefaultParamsBalanced(params: Params)
    requires |params| == 0
    ensures Balanced(Get(GetParams(params), FieldsKey).value)
    ensures HasDepth(Get(GetParams(params), FieldsKey).value, 2)
  {
    DefaultMediaFieldsStringShape();
  }

  /** `getSelf(params)`: GET `/{media-id}`. */
  function GetSelfCall(m: MediaObj, params: Params): (call: ApiCall)
    ensures call.verb == GET && call.args.endpoint == "/" + m.mediaId
    ensures call.args.params == Some(GetParams(params))
  {
    ApiCall(GET, Args("/" + m.mediaId, Some(GetParams(params))))
  }

  /** `setCommentsEnabled(enabled)`: POST `/{media-id}` with exactly
      `comment_enabled`. */
  function SetCommentsEnabledCall(m: MediaObj, enabled: bool): (call: ApiCall)
    ensures call.verb == POST && call.args.endpoint == "/" + m.mediaId
    ensures call.args.params.Some? && Keys(call.args.params.value) == [CommentEnabled]
    ensures Truthy(Get(call.args.params.value, CommentEnabled).value) == enabled
  {
    ApiCall(POST, Args("/" + m.mediaId, Some([(CommentEnabled, BoolParam(enabled))])))
  }

  /** The switch travels in the POST body, after which comes the token. */
  lemma SetCommentsEnabledBody(m: MediaObj, enabled: bool, send: Transport)
    requires '?' !in m.client.graphVersion + m.mediaId
    ensures var req := Perform(m.client, SetCommentsEnabledCall(m, enabled), send).client.request.value;
      QueryOf(GetUrl(req)) == None &&
      ParseQuery(GetUrlBody(req).1) == Some(WithToken([(CommentEnabled, BoolParam(enabled))], m.client.accessToken))
  {
    assert m.client.graphVersion + ("/" + m.mediaId) == (m.client.graphVersion + "/") + m.mediaId;
    assert '?' !in m.client.graphVersion + ("/" + m.mediaId);
    PerformSendsParams(m.client, SetCommentsEnabledCall(m, enabled), send);
  }
}

/** The user's media (`User\Media`): creating a media container, with the
    media type inferred from the parameters, and listing the media. */
module UserMedia {
  import opened Maybe
  import opened Strings
  import opened Assoc
  import opened UrlEncoding
  import opened GraphParams
  import opened GraphFields
  import opened Instagram
  import opened GraphUser
  import MediaNode

  const MediaEndpoint: string := "media"

  /** `MediaTypes::VIDEO`, as the endpoint's documentation writes it. */
  const MediaTypeVideo: string := "VIDEO"

  /** `MediaTypes::CAROUSEL`, whose value this model does not fix. */
  const MediaTypeCarousel: string

  /** The parameters `create(params)` posts. A video without a media type
      becomes VIDEO; otherwise children make the container a CAROUSEL,
      replacing any media type given; otherwise the parameters go as they
      are. Every other key keeps its value and place. */
  function CreateParams(params: Params): (r: Params)
    ensures HasKey(params, VideoUrl) && !HasKey(params, MediaType) ==> Get(r, MediaType) == Some(MediaTypeVideo)
    ensures !(HasKey(params, VideoUrl) && !HasKey(params, MediaType)) && HasKey(params, Children) ==>
      Get(r, MediaType) == Some(MediaTypeCarousel)
    ensures !(HasKey(params, VideoUrl) && !HasKey(params, MediaType)) && !HasKey(params, Children) ==> r == params
    ensures forall k :: k != MediaType ==> Get(r, k) == Get(params, k)
    ensures Keys(r) == if !HasKey(params, MediaType) && (HasKey(params, VideoUrl) || HasKey(params, Children))
                       then Keys(params) + [MediaType] else Keys(params)
  {
    if HasKey(params, VideoUrl) && !HasKey(params, MediaType) then
      PutFacts(params, MediaType, MediaTypeVideo);
      Put(params, MediaType, MediaTypeVideo)
    else if HasKey(params, Children) then
      PutFacts(params, MediaType, MediaTypeCarousel);
      Put(params, MediaType, MediaTypeCarousel)
    else params
  }

  lemma PutFacts(ps: Params, k: string, v: string)
    ensures Get(Put(ps, k, v), k) == Some(v)
    ensures forall j :: j != k ==> Get(Put(ps, k, v), j) == Get(ps, j)
    ensures Keys(Put(ps, k, v)) == if HasKey(ps, k) then Keys(ps) else Keys(ps) + [k]
  {
    GetPut(ps, k, v, k);
    forall j | j != k ensures Get(Put(ps, k, v), j) == Get(ps, j) {
      GetPut(ps, k, v, j);
    }
    KeysPut(ps, k, v);
  }

  /** A media type the caller gives survives exactly when no children are
      given, or when it already is CAROUSEL. */
  lemma CallerMediaTypeSurvives(params: Params)
    requires HasKey(params, MediaType)
    ensures Get(CreateParams(params), MediaType) == Get(params, MediaType) <==>
      !HasKey(params, Children) || Get(params, MediaType) == Some(MediaTypeCarousel)
  {
  }

  /** Inferring again changes nothing, unless both a video and children are
      given. */
  lemma CreateParamsStable(params: Params)
    requires !(HasKey(params, VideoUrl) && HasKey(params, Children))
    ensures CreateParams(CreateParams(params)) == CreateParams(params)
  {
    var r := CreateParams(params);
    if HasKey(params, Children) && !HasKey(params, VideoUrl) {
      assert Get(r, Children) == Get(params, Children) && Get(r, VideoUrl) == Get(params, VideoUrl);
      PutPresent(r, MediaType, MediaTypeCarousel);
    } else if HasKey(params, VideoUrl) && !HasKey(params, MediaType) {
      assert Get(r, Children) == Get(params, Children);
    }
  }

  /** With both a video and children, a second inference turns the VIDEO
      container the first one made into a CAROUSEL (when the two types
      differ). */
  lemma CreateParamsVideoAndChildren(video: string, children: string)
    requires MediaTypeCarousel != MediaTypeVideo
    ensures var ps := [(VideoUrl, video), (Children, children)];
      Get(CreateParams(ps), MediaType) == Some(MediaTypeVideo) &&
      Get(CreateParams(CreateParams(ps)), MediaType) == Some(MediaTypeCarousel)
  {
    var ps := [(VideoUrl, video), (Children, children)];
    assert ps[0].0 == VideoUrl && ps[1].0 == Children;
    assert HasKey(ps, VideoUrl) && HasKey(ps, Children);
    assert !HasKey(ps, MediaType);
    var r := CreateParams(ps);
    assert Get(r, Children) == Get(ps, Children);
  }

  /** `create(params)`: POST `/{user-id}/media` with the inferred
      parameters; parameters PHP counts as false are an empty array. */
  function CreateCall(u: UserNode, params: Params): (call: ApiCall)
    ensures call.verb == POST && call.args.endpoint == "/" + u.userId + "/" + MediaEndpoint
    ensures call.args.params == Some(CreateParams(params))
  {
    ApiCall(POST, Args("/" + u.userId + "/" + MediaEndpoint, Some(CreateParams(params))))
  }

  /** `getParams(params)`: the same parameters the media object uses. */
  function GetParams(params: Params): (r: Params)
    ensures |params| > 0 ==> r == params
    ensures |params| == 0 ==> Keys(r) == [FieldsKey] && Get(r, FieldsKey) == Some(DefaultMediaFieldsString())
  {
    ParamsOr(params, FieldsParam(DefaultMediaFieldsString()))
  }

  /** The user's media listing asks for the fields the media object asks
      for. */
  lemma GetParamsAsMediaNode(params: Params)
    ensures GetParams(params) == MediaNode.GetParams(params)
  {
  }

  /** `getSelf(params)`: GET `/{user-id}/media`. */
  function GetSelfCall(u: UserNode, params: Params): (call: ApiCall)
    ensures call.verb == GET && call.args.endpoint == "/" + u.userId + "/" + MediaEndpoint
    ensures call.args.params == Some(GetParams(params))
  {
    ApiCall(GET, Args("/" + u.userId + "/" + MediaEndpoint, Some(GetParams(params))))
  }
}
