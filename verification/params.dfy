/** The request-parameter vocabulary of the client (`Params`): the parameter
    names it uses and its two helpers, the comma join of a list and the
    one-entry `fields` parameter. */
module GraphParams {
  import opened Maybe
  import opened Strings
  import opened Assoc
  import opened UrlEncoding

  const AccessTokenKey: string := "access_token"
  const After: string := "after"
  const Children: string := "children"
  const CommentEnabled: string := "comment_enabled"
  const CreationId: string := "creation_id"
  const FieldsKey: string := "fields"
  const Hide: string := "hide"
  const MediaType: string := "media_type"
  const Message: string := "message"
  const Metric: string := "metric"
  const Next: string := "next"
  const Period: string := "period"
  const Previous: string := "previous"
  const Q: string := "q"
  const UserId: string := "user_id"
  const VideoUrl: string := "video_url"

  // Keys the client uses without declaring them among its constants; these
  // are the names the Graph API documents for the endpoints concerned.
  const Before: string := "before"
  const ClientId: string := "client_id"
  const ClientSecret: string := "client_secret"
  const RedirectUri: string := "redirect_uri"
  const Code: string := "code"
  const State: string := "state"
  const Scope: string := "scope"
  const ResponseType: string := "response_type"
  const InputToken: string := "input_token"
  const FbExchangeToken: string := "fb_exchange_token"
  const GrantType: string := "grant_type"

  /** A `fields` argument as the client passes it: a PHP list of field names
      or an already written expression string. */
  datatype FieldsInput = Names(names: seq<string>) | Text(text: string)

  /** `commaImplodeArray`: the elements joined with commas, in order. */
  function CommaImplodeArray(xs: seq<string>): (r: string)
    ensures |xs| == 0 ==> r == ""
    ensures |xs| == 1 ==> r == xs[0]
  {
    Join(",", xs)
  }

  /** The comma join loses nothing: splitting it on commas gives the list
      back, when the list is non-empty and no element holds a comma. */
  lemma CommaImplodeSplit(xs: seq<string>)
    requires |xs| >= 1
    requires forall k :: 0 <= k < |xs| ==> ',' !in xs[k]
    ensures Split(CommaImplodeArray(xs), ',') == xs
  {
    SplitJoin(xs, ',');
  }

  /** `getFieldsParam(fields, commaImplode)`: an array whose one key is
      `fields`. With the flag set, a list is comma-joined; with it clear, a
      string is passed through. The other two combinations are `None`:
      imploding a string is a PHP type error, and passing a list through
      would make the parameter a nested array, which these string-valued
      parameters do not represent. */
  function GetFieldsParam(fields: FieldsInput, commaImplode: bool): (r: Option<Params>)
    ensures r.Some? <==> fields.Names? == commaImplode
    ensures r.Some? ==> Keys(r.value) == [FieldsKey]
    ensures r.Some? && fields.Text? ==> Get(r.value, FieldsKey) == Some(fields.text)
    ensures r.Some? && fields.Names? ==> Get(r.value, FieldsKey) == Some(CommaImplodeArray(fields.names))
  {
    match fields
    case Names(xs) =>
      if commaImplode then Some([(FieldsKey, CommaImplodeArray(xs))]) else None
    case Text(s) =>
      if commaImplode then None else Some([(FieldsKey, s)])
  }

  /** The `fields` value of a joined list splits back into the list. */
  lemma GetFieldsParamSplit(xs: seq<string>)
    requires |xs| >= 1
    requires forall k :: 0 <= k < |xs| ==> ',' !in xs[k]
    ensures GetFieldsParam(Names(xs), true).Some?
    ensures Split(Get(GetFieldsParam(Names(xs), true).value, FieldsKey).value, ',') == xs
  {
    CommaImplodeSplit(xs);
  }
  /** `$params ? $params : $defaults`: PHP counts an array as true exactly
      when it is non-empty, so any caller parameter replaces every default. */
  function ParamsOr(params: Params, defaults: Params): (r: Params)
    ensures |params| > 0 ==> r == params
    ensures |params| == 0 ==> r == defaults
  {
    if |params| > 0 then params else defaults
  }

  /** The one-entry `fields` parameter holding `text` as it is. */
  function FieldsParam(text: string): (r: Params)
    ensures GetFieldsParam(Text(text), false) == Some(r)
  {
    [(FieldsKey, text)]
  }

  /** The `fields` parameter holds the text under its one key. */
  lemma FieldsParamReads(text: string)
    ensures Keys(FieldsParam(text)) == [FieldsKey]
    ensures Get(FieldsParam(text), FieldsKey) == Some(text)
  {
  }

  /** A boolean parameter as `http_build_query` writes it: "1" or "0". */
  function BoolParam(b: bool): (r: string)
    ensures Truthy(r) == b
  {
    if b then "1" else "0"
  }
}
