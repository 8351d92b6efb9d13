# Instagram Graph API client: request construction and pagination, in Dafny

This project models the core of a PHP client for the Instagram Graph API:

- how a request is built (method, endpoint, parameters, token, URL or POST body);
- the default `fields` expressions the node and edge classes ask for;
- cursor pagination: the flat cursors of the user's pages, and the nested
  cursors of business discovery, whose links are made by splicing the cursor
  into the `fields` expression;
- the access-token life cycle (code exchange, long-lived exchange, the
  long-lived test);
- the Facebook login dialog URL.

Everything is a pure function over immutable values. An object's state is a
datatype, and an operation returns the new state together with the response.
The HTTP transport (`Instagram.Transport`) is a parameter: a function from the
request sent to the decoded JSON response. The clock is a parameter `now`.

Conventions the model follows from the PHP code:

- PHP truthiness. Exactly `""` and `"0"` are false strings, and exactly the
  empty array is a false array. The token merge and the custom-URL test use
  truthiness, so a token `"0"` is not sent. A decoded JSON value is true or
  false the same way (`JsonValue.JsonTruthy`): null, `false`, 0, `""`, `"0"`
  and the empty array are false.
- Parameters are ordered arrays (`Assoc.Pairs`). Assigning a key updates it in
  place when present and appends it otherwise.
- `http_build_query` is modelled concretely (`UrlEncoding.BuildQuery`, using
  PHP's `urlencode`). It is proved invertible (`UrlEncoding.ParseBuildQuery`),
  so a URL's query can be read back as exactly the parameters that built it.
- `str_replace` replaces every occurrence (`Strings.StrReplace`). The
  business-discovery splice replaces every `media{` in a default expression
  that is rebuilt for each link.
  `BusinessDiscovery.SpliceDefaultCount` proves the rebuilt expression holds
  exactly one `media{` when the username holds no `{`.
- A configuration key the code reads without `isset` reads as null when it is
  missing. Null concatenates as `""`, and the model uses `""`. An `isset`
  default is modelled as written.
- The parameter keys `before`, `client_id`, `client_secret`, `redirect_uri`,
  `code`, `state`, `scope`, `response_type`, `input_token`, `grant_type` and
  `fb_exchange_token` are written as literal names (`GraphParams`). The code
  refers to them as `Params` constants, but `Request/Params.php` does not
  declare them. The names are the ones in the endpoint formats of
  `AccessToken.php` (lines 35-37) and in the Graph API's documentation.

Modules follow the source classes:

| file | modules | classes |
|---|---|---|
| maybe.dfy, strings.dfy, assoc.dfy, json.dfy | `Maybe`, `Strings`, `Assoc`, `JsonValue` | PHP values and string built-ins |
| urlencoding.dfy | `UrlEncoding` | `urlencode`, `http_build_query` |
| params.dfy, fields.dfy, fieldexpr.dfy | `GraphParams`, `GraphFields`, `FieldExpr` | `Request\Params`, `Request\Fields`, field expressions as trees |
| request.dfy | `GraphRequest` | `Request\Request` |
| instagram.dfy | `Instagram` | `Instagram` |
| user.dfy, businessdiscovery.dfy | `GraphUser`, `BusinessDiscovery` | `User\User`, `User\BusinessDiscovery` |
| accesstoken.dfy, facebooklogin.dfy | `AccessTokens`, `FacebookLogin` | `AccessToken`, `FacebookLogin` |
| media.dfy, insights.dfy, comments.dfy | `MediaNode`, `UserMedia`, `MediaInsights`, `UserInsights`, `CommentNode`, `MediaComments`, `CommentReplies`, `MentionedComment` | `Media\Media`, `User\Media`, both `Insights`, `Comment\Comment`, `Media\Comments`, `Comment\Replies`, `User\MentionedComment` |
| edges.dfy | `UserTags`, `HashtagTopMedia`, `MediaChildren`, `UserLiveMedia`, `ContainerNode`, `PageNode`, `HashtagSearchNode`, `UserMediaPublish`, `UserMentions`, `UserStories` | the remaining edge classes |

## Model

| member | source | states |
|---|---|---|
| GraphRequest.NewRequest | src/Instagram/Request/Request.php:98-113 | the stored method is the upper-cased argument; endpoint and token are kept as given |
| GraphRequest.NewRequestCaseInsensitive | src/Instagram/Request/Request.php:100 | `'post'` builds exactly the request `'POST'` does, for every spelling of every method |
| GraphRequest.SetUrl | src/Instagram/Request/Request.php:122-133 | a true custom URL is the whole URL, with no query and no token; otherwise the URL is the Graph host, the version and the endpoint; for every method but POST it is followed by `?` and the token-merged parameters, even when they are empty |
| GraphRequest.WithToken | src/Instagram/Request/Request.php:152-159 | a true token sets `access_token`, in place when present and appended last otherwise; every other key keeps its value; a false token leaves the parameters unchanged |
| GraphRequest.WithTokenIdempotent | src/Instagram/Request/Request.php:152-159 | merging the token a second time changes nothing |
| GraphRequest.GetParams | src/Instagram/Request/Request.php:152-159 | `getParams` returns the token-merged parameters and stores them back into the request |
| GraphRequest.GetParamsIdempotent | src/Instagram/Request/Request.php:152-159 | a second `getParams` returns the same parameters and leaves the request as the first left it |
| GraphRequest.GetPostParams | src/Instagram/Request/Request.php:175-183 | a POST request yields its token-merged parameters; any other method yields the empty array and an unchanged request |
| GraphRequest.GetUrlBody | src/Instagram/Request/Request.php:140-145 | the body decodes to the request's parameters after `getPostParams` has run |
| GraphRequest.GetUrlCarriesParams | src/Instagram/Request/Request.php:124-131 | for a non-POST request, the query after the URL's `?` reads back as exactly the token-merged parameters, in order |
| GraphRequest.PostCarriesParamsInBody | src/Instagram/Request/Request.php:124-145 | a POST URL is the bare Graph URL with no `?`; its body reads back as the token-merged parameters |
| GraphRequest.QueryOfAppend | src/Instagram/Request/Request.php:131 | the `?` that `setUrl` appends is the one that starts the query, when the prefix holds none |
| GraphRequest.GraphUrlPlain | src/Instagram/Request/Request.php:124 | the Graph URL of a version and endpoint without `?` holds no `?` |
| UrlEncoding.UrlDecodeEncode | src/Instagram/Request/Request.php:131 | `urlencode` loses nothing: decoding gives the string back |
| UrlEncoding.UrlEncodeInjective | src/Instagram/Request/Request.php:131 | different strings encode differently |
| UrlEncoding.UrlEncodePlain | src/Instagram/Request/Request.php:131 | a string of letters, digits, `-`, `_` and `.` is encoded as itself |
| UrlEncoding.UrlEncodeAvoids | src/Instagram/Request/Request.php:131 | an encoded string never holds `&`, `=`, `?` or `#`, so it cannot break the query's structure |
| UrlEncoding.ParseBuildQuery | src/Instagram/Request/Request.php:131 | `http_build_query` is invertible: parsing the query gives back every key and value, in order |
| UrlEncoding.BuildQueryInjective | src/Instagram/Request/Request.php:131 | different parameter arrays give different queries |
| UrlEncoding.BuildQueryAvoids | src/Instagram/Request/Request.php:131 | a query never holds `?` or `#` |
| UrlEncoding.DecodeUtf8Encode | src/Instagram/Request/Request.php:131 | the UTF-8 bytes that `urlencode` escapes decode back to the string |
| Instagram.NewClient | src/Instagram/Instagram.php:85-94 | the token defaults to `""` and the graph version to `v14.0`; a fresh client holds no request and empty links |
| Instagram.VerbNameUpper | src/Instagram/Request/Request.php:51-61 | the three method names are already upper case, so the request stores them unchanged |
| Instagram.SendRequest | src/Instagram/Instagram.php:146-161 | the request is built from the client's version and token, kept as the client's last request, and its response gets both paging-link keys |
| Instagram.Perform | src/Instagram/Instagram.php:102-136 | `get`, `post` and `delete` send GET, POST and DELETE to the endpoint, with the empty array when no parameters are given; a non-POST request carries the token-merged parameters |
| Instagram.PerformSendsParams | src/Instagram/Instagram.php:102-136 | a call's parameters and the token travel in the URL's query for GET and DELETE, and in the body with no query for POST |
| Instagram.FieldsQueryReadsBack | src/Instagram/Instagram.php:102-107 | a GET with a one-entry `fields` array sends a query that reads back as that entry and the token |
| Instagram.SetPrevNextLinks | src/Instagram/Instagram.php:209-213 | both the response's link keys and the client's held links become `paging.next` / `paging.previous` when set, and `""` otherwise; no other response key changes |
| Instagram.SetPrevNextLinksIdempotent | src/Instagram/Instagram.php:209-213 | setting the links again from the updated response leaves the client as it is |
| Instagram.SendCustomRequest | src/Instagram/Instagram.php:169-187 | a GET whose URL is the custom URL, with no parameters, when that URL is true, and the version's Graph URL with an empty query otherwise; the client's links become the `paging.next`/`paging.previous` of the response to that request, and the response carries both link keys |
| Instagram.SendCustomRequestVerbatim | src/Instagram/Instagram.php:169-177 | a true custom URL is sent verbatim as a GET, with no parameters and no token |
| Instagram.CustomUrlOf | src/Instagram/Request/Request.php:124-126 | the custom URL counts as true exactly when the held JSON link does; a true string link is used as it is, and a false one (`""`, `"0"`, null, `false`, 0, an empty array) gives no custom URL |
| Instagram.SendCustomRequestBare | src/Instagram/Request/Request.php:124-131 | a false custom URL gives a GET of the version's Graph URL followed by `?` and the empty query |
| Instagram.CustomRequestUrl | src/Instagram/Instagram.php:169-177 | the URL sent is the custom URL when it is true, and the bare Graph URL with an empty query otherwise |
| Instagram.GetPage | src/Instagram/Instagram.php:195-201 | a GET of the held next link for `"next"` and of the held previous link otherwise: a true string link is the exact URL sent, and a false link (including an empty array) sends the version's Graph URL with an empty query |
| Instagram.CalcLinkFromCursor | src/Instagram/Instagram.php:234-248 | without `paging.cursors[type]` the response is unchanged; with it, `paging.next` (for `after`) or `paging.previous` (otherwise) becomes the URL of the same request carrying the cursor; nothing else changes |
| Instagram.CursorLinkCarriesCursor | src/Instagram/Instagram.php:237-246 | a cursor link's query reads back as the caller's parameters with the cursor set under its type, then the token |
| JsonValue.PhpStringTruthy | src/Instagram/Request/Request.php:124 | casting a decoded value to a string keeps its truth, except that an empty array becomes the true text `Array` |
| JsonValue.QueryText | src/Instagram/Instagram.php:237-246 | the text `http_build_query` writes for a value: `true` as `1`, `false` as `0`, a string as itself; it equals the string cast exactly when the value is not `false`, and keeps the value's truth |
| JsonValue.IssetOr | src/Instagram/Instagram.php:211 | `isset(a[k1][k2]) ? a[k1][k2] : default`: the value at the path when it is set and not null, the default otherwise |
| JsonValue.PutNested | src/Instagram/Instagram.php:246 | assigning `a[k1][k2]` sets that path and leaves every other top-level key and every other key under `k1` unchanged |
| JsonValue.DigitsValueOf | src/Instagram/AccessToken/AccessToken.php:247 | the decimal text of a number reads back as that number |
| GraphParams.CommaImplodeArray | src/Instagram/Request/Params.php:86-89 | the empty list joins to `""` and a one-element list to its element |
| GraphParams.CommaImplodeSplit | src/Instagram/Request/Params.php:86-89 | the comma join loses nothing: splitting it gives the list back when it is non-empty and comma-free |
| GraphParams.GetFieldsParam | src/Instagram/Request/Params.php:74-78 | exactly one key, `fields`: the comma join of a list when imploding, the string as it is when not; the other two combinations have no string value |
| GraphParams.GetFieldsParamSplit | src/Instagram/Request/Params.php:74-78 | the `fields` value of a joined list splits back into the list |
| GraphParams.ParamsOr | src/Instagram/Media/Media.php:111-119 | non-empty caller parameters replace every default; empty ones give the defaults |
| GraphParams.BoolParam | src/Instagram/Media/Media.php:93 | the string written for a boolean is true in PHP exactly when the boolean is |
| Strings.SplitJoin | src/Instagram/Request/Params.php:88 | `explode` undoes `implode` for a non-empty list of separator-free parts |
| Strings.JoinSplit | src/Instagram/Request/Params.php:88 | `implode` undoes `explode` for every string |
| Strings.ToUpperIdempotent | src/Instagram/Request/Request.php:100 | upper-casing twice is upper-casing once |
| Strings.ToLowerIdempotent | src/Instagram/Media/Insights.php:100 | lower-casing twice is lower-casing once |
| Strings.ReplaceConcat | src/Instagram/User/BusinessDiscovery.php:139 | `str_replace` works piecewise on two strings when no match straddles the seam |
| Strings.CountConcat | src/Instagram/User/BusinessDiscovery.php:139 | the number of matches adds up over two strings when no match straddles the seam |
| Strings.CountZeroIffNoMatch | src/Instagram/User/BusinessDiscovery.php:139 | the match count is zero exactly when the pattern occurs nowhere |
| Strings.ReplaceWithoutMatch | src/Instagram/User/BusinessDiscovery.php:139 | a string without a match is left unchanged |
| Strings.ReplaceAtFront | src/Instagram/User/BusinessDiscovery.php:139 | a match at the front is replaced, and the scan resumes after it |
| Assoc.GetPut | src/Instagram/Request/Request.php:154 | after `a[k] = v`, `k` reads `v` and every other key reads as before |
| Assoc.KeysPut | src/Instagram/Request/Request.php:154 | `a[k] = v` keeps the key order and appends `k` when it is new |
| Assoc.PutPresent | src/Instagram/User/Media.php:84 | assigning a key the value it already holds changes nothing |
| Assoc.PutDistinct | src/Instagram/Request/Request.php:154 | assignment keeps the keys distinct |
| GraphFields.DefaultFieldsShape | src/Instagram/Request/Fields.php:92-108 | each default list is the comma join when the flag is set, which splits back into the list, and the list itself when it is clear |
| GraphFields.DefaultFieldsRoundTrip | src/Instagram/Request/Fields.php:92-172 | the comment, media, children and replies strings split back into their ten, nine, three and ten names, in the declared order |
| GraphFields.GetDefaultRepliesFields | src/Instagram/Request/Fields.php:156-172 | the replies fields are the comment fields, element for element |
| GraphFields.DefaultListsAreNames | src/Instagram/Request/Fields.php:41-84 | every default field is a plain name: lower-case letters and underscores, so no comma or brace |
| GraphFields.MediaFieldsStringRenders | src/Instagram/Request/Fields.php:179-191 | the media field string is the rendering of a tree: media fields, `children{…}`, and `comments{…,replies{…}}` |
| GraphFields.MediaFieldsStringShape | src/Instagram/Request/Fields.php:179-191 | for any lists of plain names, that string is brace-balanced with nesting depth 2 |
| GraphFields.DefaultMediaFieldsStringShape | src/Instagram/Request/Fields.php:179-191 | `getDefaultMediaFieldsString()` is brace-balanced with depth 2 |
| GraphFields.ListWithEdgeShape | src/Instagram/Comment/Comment.php:96-100 | a list followed by one edge over a list is brace-balanced with depth 1 |
| GraphFields.CommentsWithRepliesShape | src/Instagram/Comment/Comment.php:96-100 | comment fields, then `replies{` comment fields `}`, is that tree's rendering and balanced with depth 1 |
| GraphFields.MediaWithChildrenShape | src/Instagram/User/Tags.php:107-111 | media fields, then `children{` children fields `}`, is that tree's rendering and balanced with depth 1 |
| FieldExpr.RenderLeaves | src/Instagram/Request/Fields.php:180 | a list of names renders as their comma join |
| FieldExpr.RenderBalanced | src/Instagram/Request/Fields.php:179-191 | a field tree whose names hold no braces renders brace-balanced, nested as deep as the tree |
| FieldExpr.BalancedIff | src/Instagram/Request/Fields.php:179-191 | balance is equivalent to net brace count zero with no prefix going below zero |
| GraphUser.NewUser | src/Instagram/User/User.php:77-83 | the user id defaults to `""` |
| GraphUser.UserFieldsAreNames | src/Instagram/User/User.php:58-69 | the ten user fields are plain names |
| GraphUser.GetSelfCall | src/Instagram/User/User.php:91-102 | GET `/{user-id}`; caller parameters replace the default, which is `fields` splitting back into the ten user fields in declared order |
| GraphUser.GetUserPages | src/Instagram/User/User.php:110-130 | GET `/me/accounts` with the caller's parameters; the held next link comes from the `after` cursor and the previous link from the `before` cursor, each built from the caller's parameters, or else the API's own links or `""` |
| GraphUser.NextLinkFromRaw | src/Instagram/User/User.php:120-126 | after both cursor passes, the next link depends only on the raw response's `after` cursor and `paging.next` |
| GraphUser.PreviousLinkFromRaw | src/Instagram/User/User.php:120-126 | after both cursor passes, the previous link depends only on the raw response's `before` cursor and `paging.previous` |
| GraphUser.PreviousLinkHasNoAfterCursor | src/Instagram/User/User.php:120-123 | the previous link carries the `before` cursor and never an `after` the caller did not pass |
| BusinessDiscovery.NewDiscovery | src/Instagram/User/BusinessDiscovery.php:55-97 | the username comes from the configuration (`""` when missing); the profile and media field lists are the declared ones |
| BusinessDiscovery.DiscoveryFieldsAreNames | src/Instagram/User/BusinessDiscovery.php:55-83 | the ten profile fields and eleven media fields are plain names |
| BusinessDiscovery.GetParams | src/Instagram/User/BusinessDiscovery.php:200-218 | caller parameters are returned unchanged; the default is one `fields` entry holding the discovery expression, not imploded again |
| BusinessDiscovery.DefaultExpressionText | src/Instagram/User/BusinessDiscovery.php:205-213 | the default expression is `business_discovery.username(u){` profile fields `,media{` media fields `,children{` children fields `}}}` |
| BusinessDiscovery.DefaultExpressionRenders | src/Instagram/User/BusinessDiscovery.php:205-213 | that expression is the rendering of a three-level field tree |
| BusinessDiscovery.DefaultExpressionBalanced | src/Instagram/User/BusinessDiscovery.php:205-213 | it is brace-balanced with depth 3 when the username holds no braces |
| BusinessDiscovery.DiscoveryTreeShape | src/Instagram/User/BusinessDiscovery.php:205-213 | for any plain field lists and any media modifier, the expression renders its tree, and is balanced with depth 3 when username and modifier hold no braces |
| BusinessDiscovery.ReplaceValues | src/Instagram/User/BusinessDiscovery.php:139 | `str_replace` on an array replaces in every value and keeps every key in place |
| BusinessDiscovery.CursorSnippet | src/Instagram/User/BusinessDiscovery.php:136 | the replacement is `media.<type>(<cursor>){`: the media edge with a cursor modifier |
| BusinessDiscovery.SpliceDefaultCount | src/Instagram/User/BusinessDiscovery.php:139 | the default expression holds one `media{` plus those in the username, exactly one when the username has no `{`; the splice rewrites the username's occurrences and the media edge and nothing else |
| BusinessDiscovery.SpliceDefaultText | src/Instagram/User/BusinessDiscovery.php:136-139 | with a `{`-free username, the splice gives the default expression with the media edge opened as `media.<type>(<cursor>){` |
| BusinessDiscovery.SpliceDefaultRenders | src/Instagram/User/BusinessDiscovery.php:136-139 | the spliced expression is the rendering of the same tree with a cursor modifier on the media edge |
| BusinessDiscovery.SpliceDefaultBalanced | src/Instagram/User/BusinessDiscovery.php:136-139 | the spliced expression stays balanced with depth 3 when neither username nor cursor holds a brace |
| BusinessDiscovery.SpliceDiscoveryText | src/Instagram/User/BusinessDiscovery.php:139 | splicing any discovery expression with brace-free field joins changes only the username and the media edge |
| BusinessDiscovery.SplicedParams | src/Instagram/User/BusinessDiscovery.php:133-139 | a link's parameters are the rebuilt default with the cursor spliced in: one `fields` entry, never the caller's parameters |
| BusinessDiscovery.CursorLinkQuery | src/Instagram/User/BusinessDiscovery.php:142-148 | a paging link's query reads back as the spliced `fields` and then the token |
| BusinessDiscovery.CursorLinkTarget | src/Instagram/User/BusinessDiscovery.php:142-145 | a paging link targets `/{user-id}/`, with a trailing slash, where the first request targets `/{user-id}` |
| BusinessDiscovery.CalcNextLink | src/Instagram/User/BusinessDiscovery.php:130-170 | a nested `before` cursor sets `paging.previous` and a nested `after` cursor sets `paging.next` to the spliced links; without nested cursors nothing changes; no key outside `paging` and no other key under `paging` (such as `cursors`) changes |
| BusinessDiscovery.NestedLink | src/Instagram/User/BusinessDiscovery.php:130-170 | the link read after `calcNextLink` is the spliced link when the nested cursor is set, and otherwise the API's top-level link or `""` |
| BusinessDiscovery.LinksFromNestedCursors | src/Instagram/User/BusinessDiscovery.php:115-118 | the links set after the call depend only on the raw response's nested cursors and top-level links |
| BusinessDiscovery.GetSelf | src/Instagram/User/BusinessDiscovery.php:105-122 | GET `/{user-id}` with `getParams(params)`; the held links become the spliced links, or the API's own links, or `""` |
| BusinessDiscovery.GetMediaPage | src/Instagram/User/BusinessDiscovery.php:178-192 | a GET of the held next or previous link: a true link is sent as its text and a false one (including an empty array) as the version's Graph URL with an empty query; then the links are set from that page's nested cursors |
| AccessTokens.NewToken | src/Instagram/AccessToken/AccessToken.php:94-112 | `app_id`, `app_secret`, `value` and `user_id` default to `""` and the expiry to 0 |
| AccessTokens.SetDataFromResponse | src/Instagram/AccessToken/AccessToken.php:241-249 | without `access_token` nothing changes; with it the value becomes the token and the expiry becomes `now + expires_in`, or 0 without `expires_in` |
| AccessTokens.SetDataFromResponseIdempotent | src/Instagram/AccessToken/AccessToken.php:241-249 | applying the same response twice at the same time equals applying it once |
| AccessTokens.LongLivedEarlier | src/Instagram/AccessToken/AccessToken.php:212-215 | a token long lived now was long lived at every earlier time |
| AccessTokens.FreshTokenLongLived | src/Instagram/AccessToken/AccessToken.php:212-248 | a token without `expires_in` is long lived forever (expiry 0); one with a non-negative `expires_in` is long lived now exactly when it exceeds two hours, strictly |
| AccessTokens.DebugCall | src/Instagram/AccessToken/AccessToken.php:119-132 | GET `/debug_token` with exactly `input_token` set to the token's value as the query writes it (a string as itself, `false` as `0`), and no `input_token` for a null value |
| AccessTokens.Exchange | src/Instagram/AccessToken/AccessToken.php:141-188 | a token exchange GETs `/oauth/access_token` with the given parameters and the client's token merged in |
| AccessTokens.ExchangeReadsRawToken | src/Instagram/AccessToken/AccessToken.php:153-156 | the new token state reads `access_token` from the raw response; without one the state is unchanged |
| AccessTokens.GetAccessTokenFromCode | src/Instagram/AccessToken/AccessToken.php:141-160 | the code exchange sends the code-exchange parameters through `Exchange` |
| AccessTokens.CodeExchangeQuery | src/Instagram/AccessToken/AccessToken.php:141-153 | its query reads back with `client_id`, `client_secret`, `redirect_uri`, `code` first, in that order |
| AccessTokens.GetLongLivedAccessToken | src/Instagram/AccessToken/AccessToken.php:168-188 | the long-lived exchange sends its parameters through `Exchange` |
| AccessTokens.LongLivedQuery | src/Instagram/AccessToken/AccessToken.php:168-181 | its query reads back with `client_id`, `client_secret`, `fb_exchange_token`, `grant_type` first, in that order |
| AccessTokens.ExchangeQuery | src/Instagram/AccessToken/AccessToken.php:141-181 | an exchange query keeps the four parameters in order and their values, with only the token added |
| AccessTokens.GetPermissionsCall | src/Instagram/AccessToken/AccessToken.php:195-205 | GET `/{user-id}/permissions` with no parameters |
| AccessTokens.RevokePermissionsCall | src/Instagram/AccessToken/AccessToken.php:223-233 | DELETE the permissions endpoint followed by `/` and the permission name |
| AccessTokens.RevokeAllTrailingSlash | src/Instagram/AccessToken/AccessToken.php:223-229 | the default empty name leaves a trailing slash after the permissions endpoint, and the request carries only the token |
| FacebookLogin.NewLogin | src/Instagram/FacebookLogin/FacebookLogin.php:66-75 | the application id is read without a default: missing means null |
| FacebookLogin.DialogParams | src/Instagram/FacebookLogin/FacebookLogin.php:86-92 | `client_id`, `redirect_uri`, `state`, `scope`, `response_type` in that order; `state` is kept even when empty; a null application id drops `client_id` |
| FacebookLogin.GetLoginDialogUrl | src/Instagram/FacebookLogin/FacebookLogin.php:95 | the URL is the authorization host, the graph version, `dialog/oauth`, `?`, and the encoded parameters |
| FacebookLogin.LoginDialogQuery | src/Instagram/FacebookLogin/FacebookLogin.php:85-96 | the query reads back as exactly the dialog parameters, and carries no access token |
| FacebookLogin.LoginDialogScope | src/Instagram/FacebookLogin/FacebookLogin.php:90 | the scope splits back into the permissions asked for |
| MediaNode.NewMedia | src/Instagram/Media/Media.php:56-62 | the media id comes from `media_id`, `""` when missing |
| MediaNode.GetParams | src/Instagram/Media/Media.php:110-120 | caller parameters unchanged; the default is one `fields` entry holding the default media field string |
| MediaNode.DefaultParamsBalanced | src/Instagram/Media/Media.php:115 | the default `fields` value is balanced with depth 2 |
| MediaNode.GetSelfCall | src/Instagram/Media/Media.php:70-81 | GET `/{media-id}` with `getParams(params)` |
| MediaNode.SetCommentsEnabledCall | src/Instagram/Media/Media.php:89-102 | POST `/{media-id}` with exactly `comment_enabled`, true in PHP exactly when enabled |
| MediaNode.SetCommentsEnabledBody | src/Instagram/Media/Media.php:89-98 | the switch and the token travel in the body; the URL has no query |
| UserMedia.CreateParams | src/Instagram/User/Media.php:75-85 | a video without a media type becomes VIDEO; otherwise children make it CAROUSEL, overwriting any given type; otherwise nothing changes; every other key keeps its value and place |
| UserMedia.CallerMediaTypeSurvives | src/Instagram/User/Media.php:81-85 | a given media type survives exactly when no children are given or it already is CAROUSEL |
| UserMedia.CreateParamsStable | src/Instagram/User/Media.php:81-85 | inferring twice equals inferring once, unless both a video and children are given |
| UserMedia.CreateParamsVideoAndChildren | src/Instagram/User/Media.php:81-85 | with both a video and children, the first inference gives VIDEO and a second gives CAROUSEL |
| UserMedia.CreateCall | src/Instagram/User/Media.php:75-92 | POST `/{user-id}/media` with the inferred parameters |
| UserMedia.GetParams | src/Instagram/User/Media.php:119-129 | caller parameters unchanged; the default is `fields` holding the default media field string |
| UserMedia.GetParamsAsMediaNode | src/Instagram/User/Media.php:119-129 | the user's media listing asks for exactly what the media node asks for |
| UserMedia.GetSelfCall | src/Instagram/User/Media.php:100-111 | GET `/{user-id}/media` with `getParams(params)` |
| MediaInsights.MetricsFor | src/Instagram/Media/Insights.php:59-87 | only carousel albums, videos and stories have metrics; images have none; every row starts with impressions and reach |
| MediaInsights.MetricsAreNames | src/Instagram/Media/Insights.php:59-87 | every metric in the table is a plain name |
| MediaInsights.NewInsights | src/Instagram/Media/Insights.php:95-101 | the media type is the configured one lower-cased |
| MediaInsights.MediaTypeCaseInsensitive | src/Instagram/Media/Insights.php:100 | a media type written in capitals selects the same row as its lower-case spelling |
| MediaInsights.GetParams | src/Instagram/Media/Insights.php:128-138 | caller parameters unchanged; otherwise `metric` holding the type's row comma-joined; a type without a row has no default (PHP 8 rejects `implode(null)`) |
| MediaInsights.DefaultMetricsSplit | src/Instagram/Media/Insights.php:133 | the default `metric` splits back into the type's row, in order |
| MediaInsights.GetSelfCall | src/Instagram/Media/Insights.php:109-120 | GET `/{media-id}/insights` exactly when the parameters can be built |
| MediaInsights.InsightsQuery | src/Instagram/Media/Insights.php:109-137 | the default request's query reads back as the metrics and the token |
| UserInsights.GetParams | src/Instagram/User/Insights.php:100-113 | caller parameters unchanged; otherwise `metric` splitting into impressions and reach, then `period` set to a day |
| UserInsights.GetSelfCall | src/Instagram/User/Insights.php:81-92 | GET `/{user-id}/insights` with `getParams(params)` |
| CommentNode.NewComment | src/Instagram/Comment/Comment.php:58-64 | the comment id comes from `comment_id`, `""` when missing |
| CommentNode.GetParams | src/Instagram/Comment/Comment.php:91-105 | caller parameters unchanged; the default `fields` is comment fields then `replies{` comment fields `}` |
| CommentNode.DefaultParamsBalanced | src/Instagram/Comment/Comment.php:96-100 | that default is balanced with depth 1 |
| CommentNode.GetSelfCall | src/Instagram/Comment/Comment.php:72-83 | GET `/{comment-id}` with `getParams(params)` |
| CommentNode.SetHideCall | src/Instagram/Comment/Comment.php:113-126 | POST `/{comment-id}` with exactly `hide`, true in PHP exactly when hiding |
| CommentNode.SetHideBody | src/Instagram/Comment/Comment.php:113-122 | the flag and the token travel in the body |
| CommentNode.RemoveCall | src/Instagram/Comment/Comment.php:133-143 | DELETE `/{comment-id}` with no parameters |
| CommentNode.RemoveQuery | src/Instagram/Comment/Comment.php:133-139 | the DELETE's query reads back as the token alone |
| MediaComments.CreateCall | src/Instagram/Media/Comments.php:68-81 | POST `/{media-id}/comments` with exactly `message` |
| MediaComments.CreateBody | src/Instagram/Media/Comments.php:68-77 | the message and the token travel in the body |
| MediaComments.GetSelfCall | src/Instagram/Media/Comments.php:89-122 | GET `/{media-id}/comments` with the comment node's default fields |
| MediaComments.CreateAndListSameEdge | src/Instagram/Media/Comments.php:70-91 | creating and listing comments use the same edge |
| CommentReplies.CreateCall | src/Instagram/Comment/Replies.php:68-81 | POST `/{comment-id}/replies` with exactly `message` |
| CommentReplies.CreateBody | src/Instagram/Comment/Replies.php:68-77 | the message and the token travel in the body |
| CommentReplies.GetParams | src/Instagram/Comment/Replies.php:92 | caller parameters unchanged; the default `fields` splits back into the comment fields |
| CommentReplies.GetSelfCallAsWritten | src/Instagram/Comment/Replies.php:89-100 | as written, GET `/{comment-id}/` followed by an unassigned property, which reads as `""` |
| CommentReplies.GetSelfAsWrittenMissesEdge | src/Instagram/Comment/Replies.php:70-91 | the as-written listing misses the edge replies are created on, by exactly `replies` |
| CommentReplies.GetSelfCall | src/Instagram/Comment/Replies.php:89-100 | corrected: GET `/{comment-id}/replies` with the same parameters |
| CommentReplies.GetSelfReadsCreatedEdge | src/Instagram/Comment/Replies.php:70-91 | the corrected listing reads the edge replies are created on |
| MentionedComment.NewMentioned | src/Instagram/User/MentionedComment.php:56-62 | the comment id comes from `comment_id`, `""` when missing |
| MentionedComment.ExpressionShape | src/Instagram/User/MentionedComment.php:94-99 | the default expression renders a two-level tree, balanced with depth 2 when the comment id holds no braces |
| MentionedComment.GetParams | src/Instagram/User/MentionedComment.php:89-104 | caller parameters unchanged; the default is one `fields` entry holding that expression |
| MentionedComment.GetSelfCall | src/Instagram/User/MentionedComment.php:70-81 | GET `/{user-id}/`, with a trailing slash |
| MentionedComment.GetSelfCallSendsExpression | src/Instagram/User/MentionedComment.php:70-99 | without caller parameters the call sends exactly `mentioned_comment.comment_id(id){…}` as `fields` |
| UserTags.GetParams | src/Instagram/User/Tags.php:102-116 | caller parameters unchanged; the default `fields` is media fields then `children{` children fields `}`, not the class's own list |
| UserTags.DefaultParamsBalanced | src/Instagram/User/Tags.php:107-111 | that default is balanced with depth 1 |
| UserTags.GetSelfCall | src/Instagram/User/Tags.php:83-94 | GET `/{user-id}/tags` with `getParams(params)` |
| HashtagTopMedia.NewTopMedia | src/Instagram/Hashtag/TopMedia.php:61-67 | the user id is read without a default: missing means null |
| HashtagTopMedia.GetParams | src/Instagram/Hashtag/TopMedia.php:94-111 | caller parameters unchanged, with no user id added; the default is `fields` then `user_id` |
| HashtagTopMedia.GetSelfCall | src/Instagram/Hashtag/TopMedia.php:75-86 | GET `/{hashtag-id}/top_media` with `getParams(params)` |
| HashtagTopMedia.QueryReadsBack | src/Instagram/Hashtag/TopMedia.php:75-82 | the query reads back as `getParams(params)` and the token |
| HashtagTopMedia.UserIdInQuery | src/Instagram/Hashtag/TopMedia.php:94-106 | the sent `user_id` is the configured one for the defaults and the caller's own otherwise |
| MediaChildren.GetParams | src/Instagram/Media/Children.php:70 | caller parameters unchanged; the default `fields` splits into `id`, `media_type`, `media_url` |
| MediaChildren.GetSelfCall | src/Instagram/Media/Children.php:67-78 | GET `/{media-id}/children` |
| UserLiveMedia.GetParams | src/Instagram/User/LiveMedia.php:70 | caller parameters unchanged; the default is only `fields`, splitting into the nine media fields, with no `since` or `until` |
| UserLiveMedia.GetSelfCall | src/Instagram/User/LiveMedia.php:67-78 | GET `/{user-id}/live_media` |
| ContainerNode.NewContainer | src/Instagram/Container/Container.php:65-71 | the container id comes from `container_id`, `""` when missing |
| ContainerNode.GetParams | src/Instagram/Container/Container.php:53-82 | caller parameters unchanged; the default `fields` splits into `id`, `status`, `status_code` |
| ContainerNode.GetSelfCall | src/Instagram/Container/Container.php:79-90 | GET `/{container-id}` |
| PageNode.NewPage | src/Instagram/Page/Page.php:63-69 | the page id comes from `page_id`, `""` when missing |
| PageNode.GetParams | src/Instagram/Page/Page.php:53-80 | caller parameters unchanged; the default `fields` is `instagram_business_account` |
| PageNode.GetSelfCall | src/Instagram/Page/Page.php:77-88 | GET `/{page-id}` |
| HashtagSearchNode.NewHashtagSearch | src/Instagram/HashtagSearch/HashtagSearch.php:60-66 | the user id is read without a default: missing means null |
| HashtagSearchNode.SearchParams | src/Instagram/HashtagSearch/HashtagSearch.php:77-80 | exactly `user_id` then `q`, holding the configured id and the name verbatim; a null id is dropped by the query builder |
| HashtagSearchNode.GetSelfCall | src/Instagram/HashtagSearch/HashtagSearch.php:74-88 | GET `/ig_hashtag_search` with those parameters |
| HashtagSearchNode.NameInQuery | src/Instagram/HashtagSearch/HashtagSearch.php:74-84 | the query reads back as those parameters and the token, with `q` the hashtag name |
| UserMediaPublish.CreateCall | src/Instagram/User/MediaPublish.php:66-79 | POST `/{user-id}/media_publish` with exactly `creation_id` |
| UserMediaPublish.CreateBody | src/Instagram/User/MediaPublish.php:66-75 | `creation_id` and the token travel in the body, not the URL |
| UserMentions.ReplyToMediaCall | src/Instagram/User/Mentions.php:66-77 | POST `/{user-id}/mentions` with the caller's parameters verbatim |
| UserMentions.ReplyToCommentCall | src/Instagram/User/Mentions.php:85-96 | the same method, endpoint and parameters as a reply to media |
| UserMentions.ReplyBody | src/Instagram/User/Mentions.php:66-96 | both replies send the caller's parameters and the token in the body |
| UserStories.GetSelfCall | src/Instagram/User/Stories.php:65-75 | GET `/{user-id}/stories` with no parameters, whatever the caller passes |
| UserStories.QueryIgnoresParams | src/Instagram/User/Stories.php:65-71 | the query reads back as the token alone |

## Left out

- `Request\Curl`: the HTTP transfer, TLS options and `json_decode` are the transport parameter.
- The `debug` key every response gets (a reference to the client object). It has no content to state.
- The clock. `time()` is the parameter `now`.
- `setAccessToken`: the token is fixed when the client is built.
- `MediaTypes::CAROUSEL`, `Period::DAY` and `ResponseTypes::CODE` are constants whose values are not part of this model. They are left open, so every property holds for any value. VIDEO and the `fb_exchange_token` grant type are the values the endpoint documentation gives.
- `Request\Metric` and `Request\Scope` are constant tables only. The metric names the insights table uses are restated in `GraphMetric`.
- `Hashtag\Hashtag`, the parent of `TopMedia`, is not part of this model. The hashtag id is a parameter of `HashtagTopMedia.NewTopMedia`.
- The class inheritance is modelled by composition: each object holds the client it extends.
- `http_build_query` on nested arrays: parameters are string-valued. Where a decoded JSON value becomes a parameter, a boolean is written as `1` or `0` (`JsonValue.QueryText`) and a null value is left out.
- Instagram.GetPage: a held link that is true but not a string (a non-zero number, `true`, a non-empty array) is stored by PHP as the URL itself and converted when the request is sent. The model sends its string cast, which for an array is `Array`. The Graph API's paging links are strings.
- BusinessDiscovery.GetMediaPage: the same as `Instagram.GetPage` for a true link that is not a string.
- Instagram.CalcLinkFromCursor: a cursor that is an array is written as `Array`. PHP's `http_build_query` would expand it into bracketed keys (`after[0]=…`), and parameters are string-valued here. Every other cursor is written as the query writes it.
- AccessTokens.DebugCall: a token value that is an array is written as `Array`, where `http_build_query` would expand it into bracketed keys. A token value is a string from the configuration or the `access_token` of a response.
- `GraphParams.GetFieldsParam`: a list passed with `commaImplode` false would become a nested array, and a string with `commaImplode` true makes `implode` fail. Both are `None`. No source call does either.
- The `$fields` list declared in `User\Tags` is never read, so it is not modelled.
- JsonValue.PutNested: assigning under a key whose value is not an array is a PHP error, or a string offset write. The model replaces that value with a fresh object. A decoded JSON list under the key (for example a `paging` that is a list) is a PHP array, to which PHP would add the key; the model replaces the list with a fresh object too.
- AccessTokens.NewToken: `expires_at` is passed separately as an integer, because configurations are string arrays here.
- AccessTokens.SetDataFromResponse: an `expires_in` that is not a number, a boolean or a digit string gives `None`, instead of PHP's warning or `TypeError`.
- AccessTokens.ExchangeQuery: states the first four keys and every value, not the position of the appended token.
- Strings are sequences of Unicode characters, and `urlencode` is applied to their UTF-8 bytes (`UrlEncoding.DecodeUtf8Encode`). PHP strings are bytes, so a byte string that is not valid UTF-8 cannot be represented.
- `strtolower` and `strtoupper` change ASCII letters only (`Strings.ToLower`, `Strings.ToUpper`). This is their locale-independent behaviour from PHP 8.2 on; an older PHP under a single-byte locale could also change other bytes.
- Decoded numbers are integers (`JsonValue.Json`'s `JNum`). A float in a response, such as an `expires_in` or a cursor of `1.5`, cannot be represented.
- An undeclared `Params` constant is an `Error` in PHP 8. The model uses the literal key names listed above instead.
- Integer width: `expiresAt` and `now` are unbounded. A 64-bit overflow of `time() + expires_in` is not modelled.
- MentionedComment.GetSelfCallSendsExpression: the read-back of this expression from the URL is stated in two steps. The call's parameters are this lemma; the query of any one-entry `fields` request is `Instagram.FieldsQueryReadsBack`.
- The undefined property in `Comment\Replies::getSelf` is modelled as PHP reads it, as null concatenating to `""`, not as a free parameter. See the finding below.

## Findings

| source | as written | input that shows it | evidently intended | confidence | as-written member | corrected member |
|---|---|---|---|---|---|---|
| src/Instagram/Comment/Replies.php:91 | the endpoint is `'/' . commentId . '/' . $this->endpoint`, a property no class in the chain assigns; it reads as null, so the endpoint is `/{comment-id}/` | comment id `c1`: `getSelf` GETs `/c1/`, the comment node itself, while `create` POSTs to `/c1/replies` | `'/' . commentId . '/' . self::ENDPOINT`, that is `/c1/replies` | high; not executed | CommentReplies.GetSelfCallAsWritten, CommentReplies.GetSelfAsWrittenMissesEdge | CommentReplies.GetSelfCall, CommentReplies.GetSelfReadsCreatedEdge |
