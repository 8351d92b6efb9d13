/** The metric names the insights requests ask for (`Request\Metric`). */
module GraphMetric {
  const CarouselAlbumEngagement: string := "carousel_album_engagement"
  const CarouselAlbumImpressions: string := "carousel_album_impressions"
  const CarouselAlbumReach: string := "carousel_album_reach"
  const CarouselAlbumSaved: string := "carousel_album_saved"
  const CarouselAlbumVideoViews: string := "carousel_album_video_views"
  const Engagement: string := "engagement"
  const Exits: string := "exits"
  const Impressions: string := "impressions"
  const Reach: string := "reach"
  const Replies: string := "replies"
  const Saved: string := "saved"
  const TapsBack: string := "taps_back"
  const TapsForward: string := "taps_forward"
  const VideoViews: string := "video_views"

  // The media types the insights table is keyed by, lower-cased.
  const MediaTypeCarouselAlbum: string := "carousel_album"
  const MediaTypeImage: string := "image"
  const MediaTypeStory: string := "story"
  const MediaTypeVideo: string := "video"
}

/** A media object's insights (`Media\Insights`): the metrics asked for
    depend on the media type the configuration names. */
module MediaInsights {
  import opened Maybe
  import opened Strings
  import opened Assoc
  import opened UrlEncoding
  import opened GraphParams
  import opened GraphRequest
  import opened GraphFields
  import opened Instagram
  import opened GraphMetric
  import opened MediaNode

  const InsightsEndpoint: string := "insights"

  const CarouselMetrics: seq<string> :=
    [Impressions, Reach, CarouselAlbumEngagement, CarouselAlbumImpressions, CarouselAlbumReach,
     CarouselAlbumSaved, CarouselAlbumVideoViews, Engagement, VideoViews, Saved]
  const VideoMetrics: seq<string> := [Impressions, Reach, Engagement, VideoViews, Saved]
  const StoryMetrics: seq<string> := [Impressions, Reach, Exits, Replies, TapsForward, TapsBack]

  /** The metrics table: carousel albums, videos and stories have a row;
      images, and any other type, have none. */
  function MetricsFor(mediaType: string): (r: Option<seq<string>>)
    ensures r.Some? <==> mediaType == MediaTypeCarouselAlbum || mediaType == MediaTypeVideo || mediaType == MediaTypeStory
    ensures mediaType == MediaTypeImage ==> r.None?
    ensures r.Some? ==> |r.value| >= 5 && r.value[0] == Impressions && r.value[1] == Reach
  {
    if mediaType == MediaTypeCarouselAlbum then Some(CarouselMetrics)
    else if mediaType == MediaTypeVideo then Some(VideoMetrics)
    else if mediaType == MediaTypeStory then Some(StoryMetrics)
    else None
  }

  /** Every metric in the table is a plain name. */
  lemma MetricsAreNames(mediaType: string)
    requires MetricsFor(mediaType).Some?
    ensures FieldNames(MetricsFor(mediaType).value)
  {
    TableIsNames();
  }

  lemma TableIsNames()
    ensures FieldNames(CarouselMetrics) && FieldNames(VideoMetrics) && FieldNames(StoryMetrics)
  {
    SharedMetricsAreNames();
    CarouselOnlyMetricsAreNames();
    StoryOnlyMetricsAreNames();
  }

  lemma SharedMetricsAreNames()
    ensures FieldName(Impressions) && FieldName(Reach) && FieldName(Engagement)
    ensures FieldName(VideoViews) && FieldName(Saved)
  {
  }

  lemma CarouselOnlyMetricsAreNames()
    ensures FieldName(CarouselAlbumEngagement) && FieldName(CarouselAlbumImpressions)
    ensures FieldName(CarouselAlbumReach) && FieldName(CarouselAlbumSaved) && FieldName(CarouselAlbumVideoViews)
  {
    CarouselReachMetricsAreNames();
  }

  lemma CarouselReachMetricsAreNames()
    ensures FieldName(CarouselAlbumReach) && FieldName(CarouselAlbumSaved) && FieldName(CarouselAlbumVideoViews)
  {
  }

  lemma StoryOnlyMetricsAreNames()
    ensures FieldName(Exits) && FieldName(Replies) && FieldName(TapsForward) && FieldName(TapsBack)
  {
  }

  /** An insights object: the media it reads, and the media type lower-cased
      (a missing `media_type` reads as null, which lower-cases to ""). */
  datatype InsightsNode = InsightsNode(media: MediaObj, mediaType: string)

  function NewInsights(config: Config): (n: InsightsNode)
    ensures n.media == NewMedia(config)
    ensures n.mediaType == ToLower(ConfigOr(config, MediaType, ""))
  {
    InsightsNode(NewMedia(config), ToLower(ConfigOr(config, MediaType, "")))
  }

  /** A media type written in capitals, as the Graph API reports it
      (`CAROUSEL_ALBUM`, `VIDEO`, `STORY`), selects the same row as its
      lower-case spelling. */
  lemma MediaTypeCaseInsensitive(config: Config, mediaType: string)
    requires Get(config, MediaType) == Some(ToUpper(mediaType))
    requires forall i :: 0 <= i < |mediaType| ==> !IsUpperAscii(mediaType[i])
    ensures NewInsights(config).mediaType == mediaType
    ensures MetricsFor(NewInsights(config).mediaType) == MetricsFor(mediaType)
  {
    LowerUpper(mediaType);
  }

  lemma LowerUpper(s: string)
    requires forall i :: 0 <= i < |s| ==> !IsUpperAscii(s[i])
    ensures ToLower(ToUpper(s)) == s
  {
    var u := ToUpper(s);
    forall i | 0 <= i < |s| ensures ToLower(u)[i] == s[i] {
      if IsLowerAscii(s[i]) {
        assert IsUpperAscii(u[i]);
      }
    }
  }

  /** `getParams(params)`: the caller's parameters, or `metric` holding the
      media type's metrics comma-joined. A type without a row has no
      metrics to join: PHP 8 rejects `implode` of null with a `TypeError`,
      modelled as `None`. */
  function GetParams(n: InsightsNode, params: Params): (r: Option<Params>)
    ensures r.None? <==> |params| == 0 && MetricsFor(n.mediaType).None?
    ensures |params| > 0 ==> r == Some(params)
    ensures r.Some? && |params| == 0 ==>
      Keys(r.value) == [Metric] && Get(r.value, Metric) == Some(CommaImplodeArray(MetricsFor(n.mediaType).value))
  {
    if |params| > 0 then Some(params)
    else match MetricsFor(n.mediaType)
      case Some(metrics) => Some([(Metric, CommaImplodeArray(metrics))])
      case None => None
  }

  /** The default `metric` value splits back into the media type's row. */
  lemma DefaultMetricsSplit(n: InsightsNode)
    requires MetricsFor(n.mediaType).Some?
    ensures GetParams(n, []).Some?
    ensures Split(Get(GetParams(n, []).value, Metric).value, ',') == MetricsFor(n.mediaType).value
  {
    var metrics := MetricsFor(n.mediaType).value;
    MetricsAreNames(n.mediaType);
    NamesArePlain(metrics);
    CommaImplodeSplit(metrics);
  }

  /** `getSelf(params)`: GET `/{media-id}/insights`, or nothing when the
      parameters cannot be built. */
  function GetSelfCall(n: InsightsNode, params: Params): (call: Option<ApiCall>)
    ensures call.Some? <==> GetParams(n, params).Some?
    ensures call.Some? ==> call.value.verb == GET && call.value.args.endpoint == "/" + n.media.mediaId + "/" + InsightsEndpoint
    ensures call.Some? ==> call.value.args.params == GetParams(n, params)
  {
    match GetParams(n, params)
    case Some(ps) => Some(ApiCall(GET, Args("/" + n.media.mediaId + "/" + InsightsEndpoint, Some(ps))))
    case None => None
  }

  /** The insights request's query reads back as the metrics and the
      token. */
  lemma InsightsQuery(n: InsightsNode, send: Transport)
    requires MetricsFor(n.mediaType).Some?
    requires '?' !in n.media.client.graphVersion + n.media.mediaId
    ensures GetSelfCall(n, []).Some?
    ensures var req := Perform(n.media.client, GetSelfCall(n, []).value, send).client.request.value;
      QueryOf(GetUrl(req)).Some? &&
      ParseQuery(QueryOf(GetUrl(req)).value) ==
        Some(WithToken([(Metric, CommaImplodeArray(MetricsFor(n.mediaType).value))], n.media.client.accessToken))
  {
    var c := n.media.client;
    var endpoint := "/" + n.media.mediaId + "/" + InsightsEndpoint;
    assert c.graphVersion + endpoint == (c.graphVersion + "/") + n.media.mediaId + ("/" + InsightsEndpoint);
    assert '?' !in c.graphVersion + endpoint;
    PerformSendsParams(c, GetSelfCall(n, []).value, send);
  }
}

/** A user's insights (`User\Insights`): impressions and reach by day. */
module UserInsights {
  import opened Maybe
  import opened Strings
  import opened Assoc
  import opened UrlEncoding
  import opened GraphParams
  import opened GraphFields
  import opened Instagram
  import opened GraphUser
  import opened GraphMetric

  const InsightsEndpoint: string := "insights"

  const UserMetrics: seq<string> := [Impressions, Reach]

  /** `Period::DAY`, whose value this model does not fix. */
  const PeriodDay: string

  /** `getParams(params)`: the caller's parameters, or `metric` with the
      user metrics comma-joined followed by `period` set to a day. */
  function GetParams(params: Params): (r: Params)
    ensures |params| > 0 ==> r == params
    ensures |params| == 0 ==> Keys(r) == [Metric, Period]
    ensures |params| == 0 ==> Split(Get(r, Metric).value, ',') == UserMetrics
    ensures |params| == 0 ==> Get(r, Period) == Some(PeriodDay)
  {
    CommaImplodeSplit(UserMetrics);
    ParamsOr(params, [(Metric, CommaImplodeArray(UserMetrics)), (Period, PeriodDay)])
  }

  /** `getSelf(params)`: GET `/{user-id}/insights`. */
  function GetSelfCall(u: UserNode, params: Params): (call: ApiCall)
    ensures call.verb == GET && call.args.endpoint == "/" + u.userId + "/" + InsightsEndpoint
    ensures call.args.params == Some(GetParams(params))
  {
    ApiCall(GET, Args("/" + u.userId + "/" + InsightsEndpoint, Some(GetParams(params))))
  }
}
