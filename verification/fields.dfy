/** The default field lists the client requests (`Fields`) and the media
    field expression built from them. */
module GraphFields {
  import opened Strings
  import opened FieldExpr
  import opened GraphParams

  /** Graph API field names are lower-case ASCII words joined by `_`. */
  predicate NameChar(c: char) { ('a' <= c <= 'z') || c == '_' }

  predicate FieldName(s: string) {
    |s| > 0 && forall k :: 0 <= k < |s| ==> NameChar(s[k])
  }

  predicate FieldNames(xs: seq<string>) {
    forall i :: 0 <= i < |xs| ==> FieldName(xs[i])
  }

  const CommentFields: seq<string> :=
    ["from", "hidden", "id", "like_count", "media", "parent_id", "text", "timestamp", "user", "username"]

  const MediaFields: seq<string> :=
    ["id", "caption", "comments_count", "like_count", "media_type", "media_url", "permalink", "timestamp", "thumbnail_url"]

  const ChildrenFields: seq<string> := ["id", "media_type", "media_url"]

  const RepliesFields: seq<string> :=
    ["from", "hidden", "id", "like_count", "media", "parent_id", "text", "timestamp", "user", "username"]

  /** Every default list is made of field names. */
  lemma DefaultListsAreNames()
    ensures FieldNames(CommentFields) && FieldNames(MediaFields)
    ensures FieldNames(ChildrenFields) && FieldNames(RepliesFields)
  {
    CommentFieldsAreNames();
    MediaFieldsAreNames();
    assert FieldNames(ChildrenFields);
  }

  lemma CommentFieldsAreNames()
    ensures FieldNames(CommentFields) && FieldNames(RepliesFields)
  {
    assert FieldNames(CommentFields);
    assert RepliesFields == CommentFields;
  }

  lemma MediaFieldsAreNames()
    ensures FieldNames(MediaFields)
  {
    MediaFieldsHeadAreNames();
    MediaFieldsTailAreNames();
  }

  lemma MediaFieldsHeadAreNames()
    ensures FieldName("id") && FieldName("caption") && FieldName("comments_count") && FieldName("like_count")
  {
  }

  lemma MediaFieldsTailAreNames()
    ensures FieldName("media_type") && FieldName("media_url") && FieldName("permalink")
    ensures FieldName("timestamp") && FieldName("thumbnail_url")
  {
  }

  /** A field name holds no comma and no brace. */
  lemma NamesArePlain(xs: seq<string>)
    requires FieldNames(xs)
    ensures forall i :: 0 <= i < |xs| ==> ',' !in xs[i] && BraceFree(xs[i])
  {
    forall i | 0 <= i < |xs| ensures ',' !in xs[i] && BraceFree(xs[i]) {
      assert forall k :: 0 <= k < |xs[i]| ==> NameChar(xs[i][k]);
    }
  }

  /** The join of field names is brace-free. */
  lemma JoinBraceFree(xs: seq<string>)
    requires FieldNames(xs)
    ensures BraceFree(Join(",", xs))
  {
    NamesArePlain(xs);
    JoinAvoids(",", xs, '{');
    JoinAvoids(",", xs, '}');
  }

  /** A `getDefault*Fields` result: the comma join of `list` when the flag is
      set, the list itself otherwise. */
  function DefaultFields(list: seq<string>, commaImplode: bool): FieldsInput {
    if commaImplode then Text(CommaImplodeArray(list)) else Names(list)
  }

  /** The flag decides the shape, and the joined text names exactly the
      listed fields, in order. */
  lemma DefaultFieldsShape(list: seq<string>, commaImplode: bool)
    requires |list| >= 1 && FieldNames(list)
    ensures DefaultFields(list, commaImplode).Text? <==> commaImplode
    ensures commaImplode ==> Split(DefaultFields(list, commaImplode).text, ',') == list
    ensures !commaImplode ==> DefaultFields(list, commaImplode).names == list
  {
    NamesArePlain(list);
    if commaImplode {
      CommaImplodeSplit(list);
    }
  }

  function GetDefaultCommentFields(commaImplode: bool): FieldsInput {
    DefaultFields(CommentFields, commaImplode)
  }

  function GetDefaultMediaFields(commaImplode: bool): FieldsInput {
    DefaultFields(MediaFields, commaImplode)
  }

  function GetDefaultMediaChildrenFields(commaImplode: bool): FieldsInput {
    DefaultFields(ChildrenFields, commaImplode)
  }

  /** The replies list is a list of its own, yet the same as the comment
      list, element for element. */
  function GetDefaultRepliesFields(commaImplode: bool): (r: FieldsInput)
    ensures r == GetDefaultCommentFields(commaImplode)
  {
    DefaultFields(RepliesFields, commaImplode)
  }

  /** Each default list, joined, splits back into the list. */
  lemma DefaultFieldsRoundTrip(commaImplode: bool)
    requires commaImplode
    ensures Split(GetDefaultCommentFields(commaImplode).text, ',') == CommentFields
    ensures Split(GetDefaultMediaFields(commaImplode).text, ',') == MediaFields
    ensures Split(GetDefaultMediaChildrenFields(commaImplode).text, ',') == ChildrenFields
    ensures Split(GetDefaultRepliesFields(commaImplode).text, ',') == RepliesFields
  {
    DefaultListsAreNames();
    DefaultFieldsShape(CommentFields, true);
    DefaultFieldsShape(MediaFields, true);
    DefaultFieldsShape(ChildrenFields, true);
  }

  /** `getDefaultMediaFieldsString`: the media fields, then `children{…}`,
      then `comments{…}` whose last entry is `replies{…}`. */
  function DefaultMediaFieldsString(): string {
    MediaFieldsString(MediaFields, ChildrenFields, CommentFields, RepliesFields)
  }

  /** The shape of that string, over any four lists. */
  function MediaFieldsString(media: seq<string>, children: seq<string>, comments: seq<string>, replies: seq<string>): string {
    CommaImplodeArray(media) + ",children{" + CommaImplodeArray(children) + "},comments{"
      + CommaImplodeArray(comments) + ",replies{" + CommaImplodeArray(replies) + "}}"
  }

  /** The field tree `MediaFieldsString` writes out. */
  function MediaFieldsTree(media: seq<string>, children: seq<string>, comments: seq<string>, replies: seq<string>): seq<Field> {
    Leaves(media) + [
      Edge("children", NoModifier, Leaves(children)),
      Edge("comments", NoModifier, Leaves(comments) + [Edge("replies", NoModifier, Leaves(replies))])
    ]
  }

  /** An edge over plain names renders as `name{a,b,…}`. */
  lemma RenderEdgeOverNames(name: string, names: seq<string>)
    ensures Render(Edge(name, NoModifier, Leaves(names))) == name + "{" + CommaImplodeArray(names) + "}"
  {
    RenderLeaves(names);
  }

  /** The `comments{…,replies{…}}` edge. */
  lemma RenderCommentsEdge(comments: seq<string>, replies: seq<string>)
    requires |comments| > 0
    ensures Render(Edge("comments", NoModifier, Leaves(comments) + [Edge("replies", NoModifier, Leaves(replies))]))
      == "comments{" + CommaImplodeArray(comments) + ",replies{" + CommaImplodeArray(replies) + "}}"
  {
    ListWithEdgeRenders(comments, "replies", replies);
    ReassociateCommentsEdge(CommaImplodeArray(comments), CommaImplodeArray(replies));
  }

  lemma ReassociateCommentsEdge(jc: string, jr: string)
    ensures "comments" + ModifierText(NoModifier) + "{" + (jc + "," + "replies" + "{" + jr + "}") + "}"
      == "comments{" + jc + ",replies{" + jr + "}}"
  {
    assert ModifierText(NoModifier) == "";
  }

  lemma Reassociate(jm: string, jch: string, jco: string, jr: string)
    ensures jm + ",children{" + jch + "},comments{" + jco + ",replies{" + jr + "}}"
         == jm + "," + ("children{" + jch + "}" + "," + ("comments{" + jco + ",replies{" + jr + "}}"))
  {
  }

  /** The string is the rendering of the tree. */
  lemma MediaFieldsStringRenders(media: seq<string>, children: seq<string>, comments: seq<string>, replies: seq<string>)
    requires |media| > 0 && |comments| > 0
    ensures MediaFieldsString(media, children, comments, replies) == RenderList(MediaFieldsTree(media, children, comments, replies))
  {
    var r := Edge("replies", NoModifier, Leaves(replies));
    var co := Edge("comments", NoModifier, Leaves(comments) + [r]);
    var ch := Edge("children", NoModifier, Leaves(children));
    RenderCommentsEdge(comments, replies);
    RenderEdgeOverNames("children", children);
    RenderLeaves(media);
    RenderListConcat(Leaves(media), [ch, co]);
    RenderPair(ch, co);
    assert MediaFieldsTree(media, children, comments, replies) == Leaves(media) + [ch, co];
    var jm, jch, jco, jr := CommaImplodeArray(media), CommaImplodeArray(children), CommaImplodeArray(comments), CommaImplodeArray(replies);
    assert RenderList(Leaves(media) + [ch, co])
        == jm + "," + ("children{" + jch + "}" + "," + ("comments{" + jco + ",replies{" + jr + "}}"));
    Reassociate(jm, jch, jco, jr);
  }

  lemma RenderPair(a: Field, b: Field)
    ensures RenderList([a, b]) == Render(a) + "," + Render(b)
  {
    assert [a, b][1..] == [b];
  }

  /** An edge over field names, followed by clean fields, is clean and one
      level deeper than its field list. */
  lemma EdgeOverNames(name: string, m: Modifier, names: seq<string>, extra: seq<Field>)
    requires BraceFree(name) && BraceFree(ModifierText(m)) && FieldNames(names)
    requires forall i :: 0 <= i < |extra| ==> Clean(extra[i])
    ensures Clean(Edge(name, m, Leaves(names) + extra))
    ensures Depth(Edge(name, m, Leaves(names) + extra)) == 1 + Max(0, DepthList(extra))
  {
    NamesArePlain(names);
    LeavesClean(names);
    DepthListConcat(Leaves(names), extra);
    var leaves := Leaves(names);
    var sub := leaves + extra;
    forall i | 0 <= i < |sub| ensures Clean(sub[i]) {
      if i < |leaves| {
        assert sub[i] == leaves[i];
      } else {
        assert sub[i] == extra[i - |leaves|];
      }
    }
  }

  /** An edge over field names alone is clean and one level deep. */
  lemma NamesEdgeClean(name: string, names: seq<string>)
    requires BraceFree(name) && FieldNames(names)
    ensures Clean(Edge(name, NoModifier, Leaves(names)))
    ensures Depth(Edge(name, NoModifier, Leaves(names))) == 1
  {
    assert BraceFree(ModifierText(NoModifier));
    EdgeOverNames(name, NoModifier, names, []);
    assert Leaves(names) + [] == Leaves(names);
  }

  /** The `comments{…,replies{…}}` edge is clean and two levels deep. */
  lemma CommentsEdgeClean(comments: seq<string>, replies: seq<string>)
    requires FieldNames(comments) && FieldNames(replies)
    ensures Clean(Edge("comments", NoModifier, Leaves(comments) + [Edge("replies", NoModifier, Leaves(replies))]))
    ensures Depth(Edge("comments", NoModifier, Leaves(comments) + [Edge("replies", NoModifier, Leaves(replies))])) == 2
  {
    var r := Edge("replies", NoModifier, Leaves(replies));
    NamesEdgeClean("replies", replies);
    assert DepthList([r]) == 1 by {
      assert [r][1..] == [];
    }
    assert BraceFree(ModifierText(NoModifier));
    EdgeOverNames("comments", NoModifier, comments, [r]);
  }

  /** Over field names the tree is clean and two levels deep. */
  lemma MediaFieldsTreeClean(media: seq<string>, children: seq<string>, comments: seq<string>, replies: seq<string>)
    requires FieldNames(media) && FieldNames(children) && FieldNames(comments) && FieldNames(replies)
    ensures forall i :: 0 <= i < |MediaFieldsTree(media, children, comments, replies)| ==>
      Clean(MediaFieldsTree(media, children, comments, replies)[i])
    ensures DepthList(MediaFieldsTree(media, children, comments, replies)) == 2
  {
    var co := Edge("comments", NoModifier, Leaves(comments) + [Edge("replies", NoModifier, Leaves(replies))]);
    CommentsEdgeClean(comments, replies);
    var ch := Edge("children", NoModifier, Leaves(children));
    NamesEdgeClean("children", children);
    var edges := [ch, co];
    assert DepthList([co]) == 2 by {
      assert [co][1..] == [];
    }
    assert DepthList(edges) == 2 by {
      assert edges[1..] == [co];
      assert DepthList(edges) == Max(Depth(ch), DepthList([co]));
    }
    assert BraceFree(ModifierText(NoModifier));
    EdgeOverNames("media", NoModifier, media, edges);
    var top := Edge("media", NoModifier, Leaves(media) + edges);
    assert Clean(top);
    assert MediaFieldsTree(media, children, comments, replies) == top.sub;
  }

  /** Over field names the string is brace-balanced and nests two levels
      deep. */
  lemma MediaFieldsStringShape(media: seq<string>, children: seq<string>, comments: seq<string>, replies: seq<string>)
    requires |media| > 0 && |comments| > 0
    requires FieldNames(media) && FieldNames(children) && FieldNames(comments) && FieldNames(replies)
    ensures Balanced(MediaFieldsString(media, children, comments, replies))
    ensures HasDepth(MediaFieldsString(media, children, comments, replies), 2)
  {
    MediaFieldsStringRenders(media, children, comments, replies);
    MediaFieldsTreeClean(media, children, comments, replies);
    RenderBalanced(MediaFieldsTree(media, children, comments, replies));
  }

  /** Hence the default media field string renders the default lists as that
      tree, and is brace-balanced with depth two. */
  lemma DefaultMediaFieldsStringShape()
    ensures DefaultMediaFieldsString() == RenderList(MediaFieldsTree(MediaFields, ChildrenFields, CommentFields, RepliesFields))
    ensures Balanced(DefaultMediaFieldsString())
    ensures HasDepth(DefaultMediaFieldsString(), 2)
  {
    DefaultListsAreNames();
    MediaFieldsStringRenders(MediaFields, ChildrenFields, CommentFields, RepliesFields);
    MediaFieldsStringShape(MediaFields, ChildrenFields, CommentFields, RepliesFields);
  }

  // ---------------------------------------------------------------------------
  // A field list closed by one edge
  // ---------------------------------------------------------------------------

  /** `names,edge{sub}`: the shape of the comment expression
      (`…,replies{…}`) and of the tagged and top media expression
      (`…,children{…}`). */
  function ListWithEdge(names: seq<string>, edge: string, sub: seq<string>): string {
    CommaImplodeArray(names) + "," + edge + "{" + CommaImplodeArray(sub) + "}"
  }

  function ListWithEdgeTree(names: seq<string>, edge: string, sub: seq<string>): seq<Field> {
    Leaves(names) + [Edge(edge, NoModifier, Leaves(sub))]
  }

  /** The text is the rendering of the tree. */
  lemma ListWithEdgeRenders(names: seq<string>, edge: string, sub: seq<string>)
    requires |names| > 0
    ensures ListWithEdge(names, edge, sub) == RenderList(ListWithEdgeTree(names, edge, sub))
  {
    RenderEdgeOverNames(edge, sub);
    RenderLeaves(names);
    RenderListSnoc(Leaves(names), Edge(edge, NoModifier, Leaves(sub)));
  }

  /** Over field names the tree is clean and one level deep. */
  lemma ListWithEdgeClean(names: seq<string>, edge: string, sub: seq<string>)
    requires FieldNames(names) && FieldNames(sub) && FieldName(edge)
    ensures forall i :: 0 <= i < |ListWithEdgeTree(names, edge, sub)| ==> Clean(ListWithEdgeTree(names, edge, sub)[i])
    ensures DepthList(ListWithEdgeTree(names, edge, sub)) == 1
  {
    var e := Edge(edge, NoModifier, Leaves(sub));
    NamesArePlain([edge]);
    NamesEdgeClean(edge, sub);
    NamesArePlain(names);
    LeavesClean(names);
    DepthListConcat(Leaves(names), [e]);
    assert DepthList([e]) == 1 by {
      assert [e][1..] == [];
    }
    var tree := ListWithEdgeTree(names, edge, sub);
    forall i | 0 <= i < |tree| ensures Clean(tree[i]) {
      if i < |names| {
        assert tree[i] == Leaves(names)[i];
      } else {
        assert tree[i] == e;
      }
    }
  }

  /** Under an edge with a brace-free modifier, the tree is clean and two
      levels deep. */
  lemma EdgeOverListWithEdgeClean(name: string, m: Modifier, names: seq<string>, edge: string, sub: seq<string>)
    requires BraceFree(name) && BraceFree(ModifierText(m))
    requires FieldNames(names) && FieldNames(sub) && FieldName(edge)
    ensures Clean(Edge(name, m, ListWithEdgeTree(names, edge, sub)))
    ensures Depth(Edge(name, m, ListWithEdgeTree(names, edge, sub))) == 2
  {
    var e := Edge(edge, NoModifier, Leaves(sub));
    NamesArePlain([edge]);
    NamesEdgeClean(edge, sub);
    assert DepthList([e]) == 1 by {
      assert [e][1..] == [];
    }
    EdgeOverNames(name, m, names, [e]);
  }

  /** Hence the text is brace-balanced and one level deep. */
  lemma ListWithEdgeShape(names: seq<string>, edge: string, sub: seq<string>)
    requires |names| > 0 && FieldNames(names) && FieldNames(sub) && FieldName(edge)
    ensures Balanced(ListWithEdge(names, edge, sub)) && HasDepth(ListWithEdge(names, edge, sub), 1)
  {
    ListWithEdgeRenders(names, edge, sub);
    ListWithEdgeClean(names, edge, sub);
    RenderBalanced(ListWithEdgeTree(names, edge, sub));
  }

  /** `getDefaultCommentFields() . ',replies{' . getDefaultCommentFields() . '}'`. */
  function CommentsWithReplies(): string {
    GetDefaultCommentFields(true).text + "," + "replies" + "{" + GetDefaultCommentFields(true).text + "}"
  }

  /** `getDefaultMediaFields() . ',children{' . getDefaultMediaChildrenFields() . '}'`. */
  function MediaWithChildren(): string {
    GetDefaultMediaFields(true).text + "," + "children" + "{" + GetDefaultMediaChildrenFields(true).text + "}"
  }

  /** The comment expression lists the comment fields and, under `replies`,
      the comment fields again; it is brace-balanced one level deep. */
  lemma CommentsWithRepliesShape()
    ensures CommentsWithReplies() == RenderList(ListWithEdgeTree(CommentFields, "replies", CommentFields))
    ensures Balanced(CommentsWithReplies()) && HasDepth(CommentsWithReplies(), 1)
  {
    CommentFieldsAreNames();
    EdgeNamesAreNames();
    CommentsWithRepliesRenders();
    ListWithEdgeShape(CommentFields, "replies", CommentFields);
  }

  /** The comment expression renders the comment list with its replies edge. */
  lemma CommentsWithRepliesRenders()
    ensures CommentsWithReplies() == ListWithEdge(CommentFields, "replies", CommentFields)
    ensures CommentsWithReplies() == RenderList(ListWithEdgeTree(CommentFields, "replies", CommentFields))
  {
    ListWithEdgeRenders(CommentFields, "replies", CommentFields);
  }

  /** The media expression renders the media list with its children edge. */
  lemma MediaWithChildrenRenders()
    ensures MediaWithChildren() == ListWithEdge(MediaFields, "children", ChildrenFields)
    ensures MediaWithChildren() == RenderList(ListWithEdgeTree(MediaFields, "children", ChildrenFields))
  {
    ListWithEdgeRenders(MediaFields, "children", ChildrenFields);
  }

  /** The edges the default expressions nest under are plain names. */
  lemma EdgeNamesAreNames()
    ensures FieldName("replies") && FieldName("children") && FieldName("comments")
  {
  }

  /** The media expression lists the media fields and, under `children`,
      the children fields; it is brace-balanced one level deep. */
  lemma MediaWithChildrenShape()
    ensures MediaWithChildren() == RenderList(ListWithEdgeTree(MediaFields, "children", ChildrenFields))
    ensures Balanced(MediaWithChildren()) && HasDepth(MediaWithChildren(), 1)
  {
    DefaultListsAreNames();
    EdgeNamesAreNames();
    MediaWithChildrenRenders();
    ListWithEdgeShape(MediaFields, "children", ChildrenFields);
  }
}
