/** A comment (`Comment\Comment`): reading it with its replies, hiding it,
    deleting it. */
module CommentNode {
  import opened Maybe
  import opened Strings
  import opened Assoc
  import opened UrlEncoding
  import opened GraphParams
  import opened GraphRequest
  import opened FieldExpr
  import opened GraphFields
  import opened Instagram

  /** A client bound to one comment id; a missing `comment_id` reads as
      null, which concatenates as "". */
  datatype CommentObj = CommentObj(client: Client, commentId: string)

  function NewComment(config: Config): (c: CommentObj)
    ensures c.client == NewClient(config)
    ensures HasKey(config, "comment_id") ==> Some(c.commentId) == Get(config, "comment_id")
    ensures !HasKey(config, "comment_id") ==> c.commentId == ""
  {
    CommentObj(NewClient(config), ConfigOr(config, "comment_id", ""))
  }

  /** `getParams(params)`: the caller's parameters, or `fields` asking for
      the comment fields and, under `replies`, the comment fields again. */
  function GetParams(params: Params): (r: Params)
    ensures |params| > 0 ==> r == params
    ensures |params| == 0 ==> Keys(r) == [FieldsKey]
    ensures |params| == 0 ==>
      Get(r, FieldsKey) == Some(RenderList(ListWithEdgeTree(CommentFields, "replies", CommentFields)))
  {
    CommentsWithRepliesRenders();
    FieldsParamReads(CommentsWithReplies());
    ParamsOr(params, FieldsParam(CommentsWithReplies()))
  }

  /** The default `fields` value is brace-balanced one level deep. */
  lemma DefaultParamsBalanced()
    ensures Balanced(Get(GetParams([]), FieldsKey).value)
    ensures HasDepth(Get(GetParams([]), FieldsKey).value, 1)
  {
    CommentsWithRepliesShape();
  }

  /** `getSelf(params)`: GET `/{comment-id}`. */
  function GetSelfCall(c: CommentObj, params: Params): (call: ApiCall)
    ensures call.verb == GET && call.args.endpoint == "/" + c.commentId
    ensures call.args.params == Some(GetParams(params))
  {
    ApiCall(GET, Args("/" + c.commentId, Some(GetParams(params))))
  }

  /** `setHide(hide)`: POST `/{comment-id}` with exactly `hide`. */
  function SetHideCall(c: CommentObj, hidden: bool): (call: ApiCall)
    ensures call.verb == POST && call.args.endpoint == "/" + c.commentId
    ensures call.args.params.Some? && Keys(call.args.params.value) == [Hide]
    ensures Truthy(Get(call.args.params.value, Hide).value) == hidden
  {
    ApiCall(POST, Args("/" + c.commentId, Some([(Hide, BoolParam(hidden))])))
  }

  /** The flag travels in the POST body, followed by the token. */
  lemma SetHideBody(c: CommentObj, hidden: bool, send: Transport)
    requires '?' !in c.client.graphVersion + c.commentId
    ensures var req := Perform(c.client, SetHideCall(c, hidden), send).client.request.value;
      QueryOf(GetUrl(req)) == None &&
      ParseQuery(GetUrlBody(req).1) == Some(WithToken([(Hide, BoolParam(hidden))], c.client.accessToken))
  {
    assert c.client.graphVersion + ("/" + c.commentId) == (c.client.graphVersion + "/") + c.commentId;
    assert '?' !in c.client.graphVersion + ("/" + c.commentId);
    PerformSendsParams(c.client, SetHideCall(c, hidden), send);
  }

  /** `remove()`: DELETE `/{comment-id}`, with no parameters of its own. */
  function RemoveCall(c: CommentObj): (call: ApiCall)
    ensures call.verb == DELETE && call.args.endpoint == "/" + c.commentId
    ensures call.args.params.GetOr([]) == []
  {
    ApiCall(DELETE, Args("/" + c.commentId, None))
  }

  /** The delete request's query carries the token and nothing else. */
  lemma RemoveQuery(c: CommentObj, send: Transport)
    requires '?' !in c.client.graphVersion + c.commentId
    ensures var req := Perform(c.client, RemoveCall(c), send).client.request.value;
      req.verb == MethodDelete &&
      QueryOf(GetUrl(req)).Some? &&
      ParseQuery(QueryOf(GetUrl(req)).value) == Some(WithToken([], c.client.accessToken))
  {
    assert c.client.graphVersion + ("/" + c.commentId) == (c.client.graphVersion + "/") + c.commentId;
    assert '?' !in c.client.graphVersion + ("/" + c.commentId);
    PerformSendsParams(c.client, RemoveCall(c), send);
    VerbNameUpper(DELETE);
  }
}

/** The comments on a media object (`Media\Comments`): posting one and
    listing them. */
module MediaComments {
  import opened Maybe
  import opened Strings
  import opened Assoc
  import opened UrlEncoding
  import opened GraphParams
  import opened GraphRequest
  import opened Instagram
  import opened MediaNode
  import CommentNode

  const CommentsEndpoint: string := "comments"

  /** `create(message)`: POST `/{media-id}/comments` with exactly
      `message`. */
  function CreateCall(m: MediaObj, message: string): (call: ApiCall)
    ensures call.verb == POST && call.args.endpoint == "/" + m.mediaId + "/" + CommentsEndpoint
    ensures call.args.params == Some([(Message, message)])
  {
    ApiCall(POST, Args("/" + m.mediaId + "/" + CommentsEndpoint, Some([(Message, message)])))
  }

  /** Any message, whatever characters it holds, reads back intact from the
      POST body. */
  lemma CreateBody(m: MediaObj, message: string, send: Transport)
    requires '?' !in m.client.graphVersion + m.mediaId
    ensures var req := Perform(m.client, CreateCall(m, message), send).client.request.value;
      QueryOf(GetUrl(req)) == None &&
      ParseQuery(GetUrlBody(req).1) == Some(WithToken([(Message, message)], m.client.accessToken))
  {
    var endpoint := "/" + m.mediaId + "/" + CommentsEndpoint;
    assert m.client.graphVersion + endpoint == (m.client.graphVersion + "/") + m.mediaId + ("/" + CommentsEndpoint);
    assert '?' !in m.client.graphVersion + endpoint;
    PerformSendsParams(m.client, CreateCall(m, message), send);
  }

  /** `getSelf(params)`: GET `/{media-id}/comments`, with the parameters a
      comment is read with (the class repeats the comment's `getParams`). */
  function GetSelfCall(m: MediaObj, params: Params): (call: ApiCall)
    ensures call.verb == GET && call.args.endpoint == "/" + m.mediaId + "/" + CommentsEndpoint
    ensures call.args.params == Some(CommentNode.GetParams(params))
  {
    ApiCall(GET, Args("/" + m.mediaId + "/" + CommentsEndpoint, Some(CommentNode.GetParams(params))))
  }

  /** Posting a comment and listing the comments address the same edge. */
  lemma CreateAndListSameEdge(m: MediaObj, message: string, params: Params)
    ensures CreateCall(m, message).args.endpoint == GetSelfCall(m, params).args.endpoint
  {
  }
}

/** The replies to a comment (`Comment\Replies`): posting one and listing
    them. */
module CommentReplies {
  import opened Maybe
  import opened Strings
  import opened Assoc
  import opened UrlEncoding
  import opened GraphParams
  import opened GraphRequest
  import opened GraphFields
  import opened Instagram
  import opened CommentNode

  const RepliesEndpoint: string := "replies"

  /** `create(message)`: POST `/{comment-id}/replies` with exactly
      `message`. */
  function CreateCall(c: CommentObj, message: string): (call: ApiCall)
    ensures call.verb == POST && call.args.endpoint == "/" + c.commentId + "/" + RepliesEndpoint
    ensures call.args.params == Some([(Message, message)])
  {
    ApiCall(POST, Args("/" + c.commentId + "/" + RepliesEndpoint, Some([(Message, message)])))
  }

  /** Any reply text reads back intact from the POST body. */
  lemma CreateBody(c: CommentObj, message: string, send: Transport)
    requires '?' !in c.client.graphVersion + c.commentId
    ensures var req := Perform(c.client, CreateCall(c, message), send).client.request.value;
      QueryOf(GetUrl(req)) == None &&
      ParseQuery(GetUrlBody(req).1) == Some(WithToken([(Message, message)], c.client.accessToken))
  {
    var endpoint := "/" + c.commentId + "/" + RepliesEndpoint;
    assert c.client.graphVersion + endpoint == (c.client.graphVersion + "/") + c.commentId + ("/" + RepliesEndpoint);
    assert '?' !in c.client.graphVersion + endpoint;
    PerformSendsParams(c.client, CreateCall(c, message), send);
  }

  /** The listing's parameters: the caller's, or `fields` holding the comment
      fields comma-joined. */
  function GetParams(params: Params): (r: Params)
    ensures |params| > 0 ==> r == params
    ensures |params| == 0 ==> Keys(r) == [FieldsKey] && Split(Get(r, FieldsKey).value, ',') == CommentFields
  {
    DefaultListsAreNames();
    NamesArePlain(CommentFields);
    GetFieldsParamSplit(CommentFields);
    ParamsOr(params, GetFieldsParam(GetDefaultCommentFields(false), true).value)
  }

  /** `getSelf(params)` as written: the endpoint is built from
      `$this->endpoint`, a property the class never declares or sets. PHP
      reads it as null, so the edge name is empty and the request reads the
      comment node `/{comment-id}/` instead of its replies. */
  function GetSelfCallAsWritten(c: CommentObj, params: Params): (call: ApiCall)
    ensures call.verb == GET && call.args.endpoint == "/" + c.commentId + "/"
    ensures call.args.params == Some(GetParams(params))
  {
    var undeclared := "";
    ApiCall(GET, Args("/" + c.commentId + "/" + undeclared, Some(GetParams(params))))
  }

  /** As written, listing replies misses the edge replies are posted to, for
      every comment. */
  lemma GetSelfAsWrittenMissesEdge(c: CommentObj, message: string, params: Params)
    ensures GetSelfCallAsWritten(c, params).args.endpoint != CreateCall(c, message).args.endpoint
    ensures GetSelfCallAsWritten(c, params).args.endpoint + RepliesEndpoint == CreateCall(c, message).args.endpoint
  {
    var e := GetSelfCallAsWritten(c, params).args.endpoint;
    assert |e| < |CreateCall(c, message).args.endpoint|;
  }

  /** `getSelf(params)` with the class's own `replies` edge:
      GET `/{comment-id}/replies`. */
  function GetSelfCall(c: CommentObj, params: Params): (call: ApiCall)
    ensures call.verb == GET && call.args.endpoint == "/" + c.commentId + "/" + RepliesEndpoint
    ensures call.args.params == Some(GetParams(params))
  {
    ApiCall(GET, Args("/" + c.commentId + "/" + RepliesEndpoint, Some(GetParams(params))))
  }

  /** Corrected, listing replies reads the edge replies are posted to, and
      differs from the as-written call in the endpoint only. */
  lemma GetSelfReadsCreatedEdge(c: CommentObj, message: string, params: Params)
    ensures GetSelfCall(c, params).args.endpoint == CreateCall(c, message).args.endpoint
    ensures GetSelfCall(c, params).args.params == GetSelfCallAsWritten(c, params).args.params
    ensures GetSelfCall(c, params).args.endpoint == GetSelfCallAsWritten(c, params).args.endpoint + RepliesEndpoint
  {
  }
}

/** A comment the user is mentioned in (`User\MentionedComment`), read
    through the user node with a `mentioned_comment` field expression. */
module MentionedComment {
  import opened Maybe
  import opened Strings
  import opened Assoc
  import opened UrlEncoding
  import opened GraphParams
  import opened GraphRequest
  import opened FieldExpr
  import opened GraphFields
  import opened Instagram
  import opened GraphUser

  const MentionedCommentField: string := "mentioned_comment"
  const CommentIdKey: string := "comment_id"
  const RepliesField: string := "replies"

  /** The user node and the id of the comment; a missing `comment_id` reads
      as null, which concatenates as "". */
  datatype Mentioned = Mentioned(user: UserNode, commentId: string)

  function NewMentioned(config: Config): (m: Mentioned)
    ensures m.user == NewUser(config)
    ensures HasKey(config, CommentIdKey) ==> Some(m.commentId) == Get(config, CommentIdKey)
    ensures !HasKey(config, CommentIdKey) ==> m.commentId == ""
  {
    Mentioned(NewUser(config), ConfigOr(config, CommentIdKey, ""))
  }

  /** The expression as the client concatenates it. */
  function Expression(commentId: string): string {
    MentionedCommentField + "." + CommentIdKey + "(" + commentId + "){" +
      GetDefaultCommentFields(true).text + "," +
      RepliesField + "{" +
        GetDefaultRepliesFields(true).text +
      "}" +
    "}"
  }

  /** The same expression as a tree: the `mentioned_comment` edge with the
      comment id as its modifier, over the comment fields and a `replies`
      edge over the replies fields. */
  function ExpressionTree(commentId: string): Field {
    Edge(MentionedCommentField, Modifier(CommentIdKey, commentId), ListWithEdgeTree(CommentFields, RepliesField, RepliesFields))
  }

  /** The expression is the tree's rendering; with a brace-free comment id it
      is brace-balanced two levels deep. */
  lemma ExpressionShape(commentId: string)
    ensures Expression(commentId) == Render(ExpressionTree(commentId))
    ensures BraceFree(commentId) ==> Balanced(Expression(commentId)) && HasDepth(Expression(commentId), 2)
  {
    ExpressionRenders(commentId);
    if BraceFree(commentId) {
      var t := ExpressionTree(commentId);
      ExpressionTreeClean(commentId);
      RenderMeasures(t);
      BalancedIff(Render(t));
    }
  }

  lemma ExpressionRenders(commentId: string)
    ensures Expression(commentId) == Render(ExpressionTree(commentId))
  {
    ListWithEdgeRenders(CommentFields, RepliesField, RepliesFields);
    ReassociateMentioned(commentId, CommaImplodeArray(CommentFields), CommaImplodeArray(RepliesFields));
  }

  lemma ReassociateMentioned(commentId: string, comments: string, replies: string)
    ensures MentionedCommentField + "." + CommentIdKey + "(" + commentId + "){" + comments + "," + RepliesField + "{" + replies + "}" + "}"
      == MentionedCommentField + ("." + CommentIdKey + "(" + commentId + ")") + "{"
         + (comments + "," + RepliesField + "{" + replies + "}") + "}"
  {
  }

  lemma ExpressionTreeClean(commentId: string)
    requires BraceFree(commentId)
    ensures Clean(ExpressionTree(commentId)) && Depth(ExpressionTree(commentId)) == 2
  {
    ExpressionNamesPlain();
    assert BraceFree(ModifierText(Modifier(CommentIdKey, commentId)));
    EdgeOverListWithEdgeClean(MentionedCommentField, Modifier(CommentIdKey, commentId), CommentFields, RepliesField, RepliesFields);
  }

  lemma ExpressionNamesPlain()
    ensures BraceFree(MentionedCommentField) && BraceFree(CommentIdKey) && FieldName(RepliesField)
    ensures FieldNames(CommentFields) && FieldNames(RepliesFields)
  {
    DefaultListsAreNames();
  }

  /** `getParams(params)`: the caller's parameters, or `fields` holding the
      expression. */
  function GetParams(m: Mentioned, params: Params): (r: Params)
    ensures |params| > 0 ==> r == params
    ensures |params| == 0 ==> Keys(r) == [FieldsKey] && Get(r, FieldsKey) == Some(Render(ExpressionTree(m.commentId)))
  {
    ExpressionRenders(m.commentId);
    FieldsParamReads(Expression(m.commentId));
    ParamsOr(params, FieldsParam(Expression(m.commentId)))
  }

  /** `getSelf(params)`: GET `/{user-id}/`, the user node itself. */
  function GetSelfCall(m: Mentioned, params: Params): (call: ApiCall)
    ensures call.verb == GET && call.args.endpoint == "/" + m.user.userId + "/"
    ensures call.args.params == Some(GetParams(m, params))
  {
    ApiCall(GET, Args("/" + m.user.userId + "/", Some(GetParams(m, params))))
  }

  /** Without parameters the call sends the expression as its only field;
      `Instagram.FieldsQueryReadsBack` then reads it back intact, comment id
      and braces included, from the request's query. */
  lemma GetSelfCallSendsExpression(m: Mentioned)
    ensures GetSelfCall(m, []) == ApiCall(GET, Args("/" + m.user.userId + "/", Some([(FieldsKey, Expression(m.commentId))])))
  {
  }
}
