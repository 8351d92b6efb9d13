/** Business discovery (`BusinessDiscovery`): another account's profile and
    media, read through the user node with one nested field expression, and
    paged by splicing the media cursor into that expression as text. */
module BusinessDiscovery {
  import opened Maybe
  import opened Strings
  import opened Assoc
  import opened UrlEncoding
  import opened GraphParams
  import opened JsonValue
  import opened GraphRequest
  import opened FieldExpr
  import opened GraphFields
  import opened Instagram
  import opened GraphUser

  const BusinessDiscoveryField: string := "business_discovery"
  const MediaField: string := "media"
  const UsernameKey: string := "username"

  const ProfileFields: seq<string> :=
    ["username", "website", "name", "ig_id", "id", "profile_picture_url",
     "biography", "follows_count", "followers_count", "media_count"]

  const DiscoveryMediaFields: seq<string> :=
    ["id", "username", "caption", "like_count", "comments_count", "timestamp",
     "media_product_type", "media_type", "owner", "permalink", "media_url"]

  /** A user node asked about the account named `username`, with the
      profile and media field lists the object holds. */
  datatype Discovery = Discovery(user: UserNode, username: string, fields: seq<string>, mediaFields: seq<string>)

  /** The field lists are non-empty lists of field names. */
  predicate WellFormed(d: Discovery) {
    |d.fields| > 0 && |d.mediaFields| > 0 && FieldNames(d.fields) && FieldNames(d.mediaFields)
  }

  /** The constructor: the user node's configuration, `username` (which
      reads as "" when absent, PHP's null in a concatenation) and the
      default field lists; the result is well formed. */
  function NewDiscovery(config: Config): (d: Discovery)
    ensures d.user == NewUser(config)
    ensures HasKey(config, UsernameKey) ==> Some(d.username) == Get(config, UsernameKey)
    ensures !HasKey(config, UsernameKey) ==> d.username == ""
    ensures d.fields == ProfileFields && d.mediaFields == DiscoveryMediaFields
    ensures WellFormed(d)
  {
    DiscoveryFieldsAreNames();
    Discovery(NewUser(config), ConfigOr(config, UsernameKey, ""), ProfileFields, DiscoveryMediaFields)
  }

  lemma DiscoveryFieldsAreNames()
    ensures FieldNames(ProfileFields) && FieldNames(DiscoveryMediaFields)
  {
    ProfileFieldsAreNames();
    DiscoveryMediaFieldsAreNames();
  }

  lemma ProfileFieldsAreNames()
    ensures FieldNames(ProfileFields)
  {
    ProfileHeadAreNames();
    ProfileTailAreNames();
  }

  lemma ProfileHeadAreNames()
    ensures FieldName("username") && FieldName("website") && FieldName("name") && FieldName("ig_id") && FieldName("id")
  {
  }

  lemma ProfileTailAreNames()
    ensures FieldName("profile_picture_url") && FieldName("biography")
    ensures FieldName("follows_count") && FieldName("followers_count") && FieldName("media_count")
  {
  }

  lemma DiscoveryMediaFieldsAreNames()
    ensures FieldNames(DiscoveryMediaFields)
  {
    ProfileHeadAreNames();
    DiscoveryMediaHeadAreNames();
    DiscoveryMediaTailAreNames();
  }

  lemma DiscoveryMediaHeadAreNames()
    ensures FieldName("caption") && FieldName("like_count") && FieldName("comments_count") && FieldName("timestamp")
  {
  }

  lemma DiscoveryMediaTailAreNames()
    ensures FieldName("media_product_type") && FieldName("media_type") && FieldName("owner")
    ensures FieldName("permalink") && FieldName("media_url")
  {
  }

  // ---------------------------------------------------------------------------
  // The field expression
  // ---------------------------------------------------------------------------

  const DiscoveryHead: string := "business_discovery.username("

  /** Where the media edge opens: the text the cursor splice looks for. */
  const MediaOpen: string := "media{"

  /** The shape of the business discovery expression, over any username and
      joined field lists, with `open` where the media edge opens. */
  function DiscoveryText(username: string, open: string, jp: string, jm: string, jc: string): string {
    DiscoveryHead + username + "){" + jp + "," + open + jm + ",children{" + jc + "}}}"
  }

  /** The expression `getParams` writes. */
  function DefaultExpression(d: Discovery): string {
    DiscoveryText(d.username, MediaOpen, CommaImplodeArray(d.fields),
      CommaImplodeArray(d.mediaFields), GetDefaultMediaChildrenFields(true).text)
  }

  /** Its field tree, with `m` on the media edge. */
  function DefaultTree(d: Discovery, m: Modifier): Field {
    DiscoveryTree(d.username, m, d.fields, d.mediaFields, ChildrenFields)
  }

  /** The field tree of the expression, with `m` on the media edge. */
  function DiscoveryTree(username: string, m: Modifier, profile: seq<string>, media: seq<string>, children: seq<string>): Field {
    Edge(BusinessDiscoveryField, Modifier(UsernameKey, username), Leaves(profile) + [MediaEdge(m, media, children)])
  }

  lemma ReassociateDiscovery(u: string, mt: string, jp: string, jm: string, jc: string)
    ensures "business_discovery" + ("." + "username" + "(" + u + ")") + "{"
        + (jp + "," + ("media" + mt + "{" + (jm + "," + ("children" + "" + "{" + jc + "}")) + "}")) + "}"
      == DiscoveryText(u, "media" + mt + "{", jp, jm, jc)
  {
    var open := "media" + mt + "{";
    var inner := jm + "," + ("children" + "" + "{" + jc + "}");
    assert inner == jm + ",children{" + jc + "}";
    var me := open + inner + "}";
    assert me == open + jm + ",children{" + jc + "}}";
    var head := "business_discovery" + ("." + "username" + "(" + u + ")");
    assert head == DiscoveryHead + u + ")" by {
      assert "business_discovery" + "." + "username" + "(" == DiscoveryHead;
    }
    assert head + "{" + (jp + "," + me) + "}" == DiscoveryHead + u + "){" + jp + "," + open + jm + ",children{" + jc + "}}}";
  }

  /** The expression is the rendering of the tree. */
  lemma DiscoveryTreeRenders(username: string, m: Modifier, profile: seq<string>, media: seq<string>, children: seq<string>)
    requires |profile| > 0 && |media| > 0
    ensures Render(DiscoveryTree(username, m, profile, media, children))
         == DiscoveryText(username, "media" + ModifierText(m) + "{", CommaImplodeArray(profile), CommaImplodeArray(media), CommaImplodeArray(children))
  {
    var me := MediaEdge(m, media, children);
    MediaEdgeRenders(m, media, children);
    RenderListSnoc(Leaves(profile), me);
    RenderLeaves(profile);
    ReassociateDiscovery(username, ModifierText(m), CommaImplodeArray(profile), CommaImplodeArray(media), CommaImplodeArray(children));
  }

  /** The media edge of the tree. */
  function MediaEdge(m: Modifier, media: seq<string>, children: seq<string>): Field {
    Edge(MediaField, m, Leaves(media) + [Edge("children", NoModifier, Leaves(children))])
  }

  lemma MediaEdgeRenders(m: Modifier, media: seq<string>, children: seq<string>)
    requires |media| > 0
    ensures Render(MediaEdge(m, media, children))
         == "media" + ModifierText(m) + "{" + (CommaImplodeArray(media) + "," + ("children" + "" + "{" + CommaImplodeArray(children) + "}")) + "}"
  {
    var ch := Edge("children", NoModifier, Leaves(children));
    RenderEdgeOverNames("children", children);
    RenderListSnoc(Leaves(media), ch);
    RenderLeaves(media);
  }

  lemma MediaEdgeClean(m: Modifier, media: seq<string>, children: seq<string>)
    requires BraceFree(ModifierText(m)) && FieldNames(media) && FieldNames(children)
    ensures Clean(MediaEdge(m, media, children)) && Depth(MediaEdge(m, media, children)) == 2
  {
    EdgeNamesAreNames();
    assert BraceFree(MediaField);
    assert MediaEdge(m, media, children) == Edge(MediaField, m, ListWithEdgeTree(media, "children", children));
    EdgeOverListWithEdgeClean(MediaField, m, media, "children", children);
  }

  /** Over field names and a brace-free username and modifier, the tree is
      clean and three levels deep. */
  lemma DiscoveryTreeClean(username: string, m: Modifier, profile: seq<string>, media: seq<string>, children: seq<string>)
    requires BraceFree(username) && BraceFree(ModifierText(m))
    requires FieldNames(profile) && FieldNames(media) && FieldNames(children)
    ensures Clean(DiscoveryTree(username, m, profile, media, children))
    ensures Depth(DiscoveryTree(username, m, profile, media, children)) == 3
  {
    var me := MediaEdge(m, media, children);
    MediaEdgeClean(m, media, children);
    assert DepthList([me]) == 2 by {
      assert [me][1..] == [];
    }
    var um := Modifier(UsernameKey, username);
    assert BraceFree(ModifierText(um));
    EdgeOverNames(BusinessDiscoveryField, um, profile, [me]);
    assert DiscoveryTree(username, m, profile, media, children) == Edge(BusinessDiscoveryField, um, Leaves(profile) + [me]);
  }

  /** A tree over field names renders to the expression with `m` opening the
      media edge, and is brace-balanced three levels deep when the username
      and the modifier have no brace. */
  lemma DiscoveryTreeShape(username: string, m: Modifier, profile: seq<string>, media: seq<string>, children: seq<string>)
    requires |profile| > 0 && |media| > 0
    requires FieldNames(profile) && FieldNames(media) && FieldNames(children)
    ensures var text := DiscoveryText(username, "media" + ModifierText(m) + "{", CommaImplodeArray(profile), CommaImplodeArray(media), CommaImplodeArray(children));
      && text == Render(DiscoveryTree(username, m, profile, media, children))
      && (BraceFree(username) && BraceFree(ModifierText(m)) ==> Balanced(text) && HasDepth(text, 3))
  {
    DiscoveryTreeRenders(username, m, profile, media, children);
    if BraceFree(username) && BraceFree(ModifierText(m)) {
      var t := DiscoveryTree(username, m, profile, media, children);
      DiscoveryTreeClean(username, m, profile, media, children);
      RenderMeasures(t);
      BalancedIff(Render(t));
    }
  }

  lemma ChildrenFieldsFacts()
    ensures FieldNames(ChildrenFields)
    ensures GetDefaultMediaChildrenFields(true).text == CommaImplodeArray(ChildrenFields)
  {
    DefaultListsAreNames();
  }

  /** The default expression in the shape a rendered tree has. */
  lemma DefaultExpressionText(d: Discovery)
    ensures DefaultExpression(d) == DiscoveryText(d.username, "media" + ModifierText(NoModifier) + "{",
      CommaImplodeArray(d.fields), CommaImplodeArray(d.mediaFields), CommaImplodeArray(ChildrenFields))
  {
    ChildrenFieldsFacts();
    assert "media" + ModifierText(NoModifier) + "{" == MediaOpen;
  }

  /** The default expression renders the object's field lists under the
      username. */
  lemma DefaultExpressionRenders(d: Discovery)
    requires WellFormed(d)
    ensures DefaultExpression(d) == Render(DefaultTree(d, NoModifier))
  {
    ChildrenFieldsFacts();
    DefaultExpressionText(d);
    DiscoveryTreeShape(d.username, NoModifier, d.fields, d.mediaFields, ChildrenFields);
  }

  /** It is brace-balanced three levels deep when the username has no
      brace. */
  lemma DefaultExpressionBalanced(d: Discovery)
    requires WellFormed(d) && BraceFree(d.username)
    ensures Balanced(DefaultExpression(d)) && HasDepth(DefaultExpression(d), 3)
  {
    ChildrenFieldsFacts();
    DefaultExpressionText(d);
    assert BraceFree(ModifierText(NoModifier));
    DiscoveryTreeShape(d.username, NoModifier, d.fields, d.mediaFields, ChildrenFields);
  }

  /** `getParams(params)`: the caller's parameters when there are any,
      otherwise `fields` holding the default expression as it is. */
  function GetParams(d: Discovery, params: Params): (r: Params)
    ensures |params| > 0 ==> r == params
    ensures |params| == 0 ==> Keys(r) == [FieldsKey] && Get(r, FieldsKey) == Some(DefaultExpression(d))
  {
    ParamsOr(params, GetFieldsParam(Text(DefaultExpression(d)), false).value)
  }

  // ---------------------------------------------------------------------------
  // The cursor splice
  // ---------------------------------------------------------------------------

  /** `str_replace(pat, rep, $array)`: every value of the array rewritten,
      keys and order kept. */
  function ReplaceValues(pat: string, rep: string, ps: Params): (r: Params)
    ensures Keys(r) == Keys(ps)
    ensures forall i :: 0 <= i < |ps| ==> r[i].1 == StrReplace(pat, rep, ps[i].1)
  {
    seq(|ps|, i requires 0 <= i < |ps| => (ps[i].0, StrReplace(pat, rep, ps[i].1)))
  }

  /** `media.<type>(<cursor>){`: the media edge opened with the cursor. */
  function CursorSnippet(cursorType: string, cursor: Json): (r: string)
    ensures r == "media" + ModifierText(Modifier(cursorType, PhpString(cursor))) + "{"
  {
    MediaField + "." + cursorType + "(" + PhpString(cursor) + "){"
  }

  lemma SpliceMid(jp: string, snippet: string)
    requires BraceFree(jp)
    ensures StrReplace(MediaOpen, snippet, "){" + (jp + ",")) == "){" + (jp + ",")
    ensures CountMatches(MediaOpen, "){" + (jp + ",")) == 0
  {
    assert '{' !in jp + ",";
    NoStraddleByLastChar(MediaOpen, "){", jp + ",");
    ReplaceConcat(MediaOpen, snippet, "){", jp + ",");
    CountConcat(MediaOpen, "){", jp + ",");
    ReplaceWithoutLastChar(MediaOpen, snippet, jp + ",");
  }

  lemma SpliceTail(jm: string, jc: string, snippet: string)
    requires BraceFree(jm) && BraceFree(jc)
    ensures StrReplace(MediaOpen, snippet, jm + "," + "children{" + (jc + "}}}")) == jm + "," + "children{" + (jc + "}}}")
    ensures CountMatches(MediaOpen, jm + "," + "children{" + (jc + "}}}")) == 0
  {
    var p1 := jm + ",";
    var p2 := "children{";
    var q := jc + "}}}";
    assert '{' !in q;
    NoStraddleByLastChar(MediaOpen, p1 + p2, q);
    ReplaceConcat(MediaOpen, snippet, p1 + p2, q);
    CountConcat(MediaOpen, p1 + p2, q);
    ReplaceWithoutLastChar(MediaOpen, snippet, q);
    SpliceChildrenOpen(jm, snippet);
  }

  /** The media fields and the children edge's opening hold no occurrence. */
  lemma SpliceChildrenOpen(jm: string, snippet: string)
    requires BraceFree(jm)
    ensures StrReplace(MediaOpen, snippet, jm + "," + "children{") == jm + "," + "children{"
    ensures CountMatches(MediaOpen, jm + "," + "children{") == 0
  {
    var p1 := jm + ",";
    var p2 := "children{";
    assert p1[|p1| - 1] == ',' && '{' !in p1;
    CommaOutsidePattern();
    NoStraddleByBoundary(MediaOpen, p1, p2);
    ReplaceConcat(MediaOpen, snippet, p1, p2);
    CountConcat(MediaOpen, p1, p2);
    ReplaceWithoutLastChar(MediaOpen, snippet, p1);
    ChildrenOpenClean(snippet);
  }

  lemma CommaOutsidePattern()
    ensures ',' !in MediaOpen && |MediaOpen| > 0 && MediaOpen[|MediaOpen| - 1] == '{'
  {
  }

  /** The children edge's opening holds no occurrence. */
  lemma ChildrenOpenClean(snippet: string)
    ensures StrReplace(MediaOpen, snippet, "children{") == "children{"
    ensures CountMatches(MediaOpen, "children{") == 0
  {
    ReplaceWithoutFirstChar(MediaOpen, snippet, "children{");
  }

  /** The expression after the username. */
  function DiscoveryRest(open: string, jp: string, jm: string, jc: string): string {
    "){" + (jp + ",") + (open + (jm + "," + "children{" + (jc + "}}}")))
  }

  lemma DiscoveryTextSplit(u: string, open: string, jp: string, jm: string, jc: string)
    ensures DiscoveryText(u, open, jp, jm, jc) == DiscoveryHead + (u + DiscoveryRest(open, jp, jm, jc))
  {
  }

  /** After the username the pattern occurs once, where the media edge
      opens. */
  lemma SpliceRest(jp: string, jm: string, jc: string, snippet: string)
    requires BraceFree(jp) && BraceFree(jm) && BraceFree(jc)
    ensures StrReplace(MediaOpen, snippet, DiscoveryRest(MediaOpen, jp, jm, jc)) == DiscoveryRest(snippet, jp, jm, jc)
    ensures CountMatches(MediaOpen, DiscoveryRest(MediaOpen, jp, jm, jc)) == 1
  {
    var pat := MediaOpen;
    var tail := jm + "," + "children{" + (jc + "}}}");
    var mid := "){" + (jp + ",");
    // The profile fields end in `,`, which the pattern lacks.
    assert mid[|mid| - 1] == ',';
    NoStraddleByBoundary(pat, mid, pat + tail);
    ReplaceConcat(pat, snippet, mid, pat + tail);
    CountConcat(pat, mid, pat + tail);
    SpliceMid(jp, snippet);
    ReplaceAtFront(pat, snippet, tail);
    SpliceTail(jm, jc, snippet);
  }

  /** The head ends in `(`, which the pattern lacks, and holds no `{`, the
      pattern's last character. */
  lemma HeadMissesPattern()
    ensures |DiscoveryHead| > 0 && DiscoveryHead[|DiscoveryHead| - 1] !in MediaOpen
    ensures MediaOpen[|MediaOpen| - 1] !in DiscoveryHead
  {
    assert DiscoveryHead[|DiscoveryHead| - 1] == '(';
    assert BraceFree("business_discovery") && BraceFree(".username(");
    assert DiscoveryHead == "business_discovery" + ".username(";
  }

  /** `str_replace("media{", snippet, expression)` rewrites the media edge
      and whatever occurrences the username holds, and nothing else: the
      head, the profile fields and the media and children fields hold no
      occurrence, and none straddles two parts. */
  lemma SpliceDiscoveryText(u: string, jp: string, jm: string, jc: string, snippet: string)
    requires BraceFree(jp) && BraceFree(jm) && BraceFree(jc)
    ensures StrReplace(MediaOpen, snippet, DiscoveryText(u, MediaOpen, jp, jm, jc))
         == DiscoveryText(StrReplace(MediaOpen, snippet, u), snippet, jp, jm, jc)
    ensures CountMatches(MediaOpen, DiscoveryText(u, MediaOpen, jp, jm, jc)) == CountMatches(MediaOpen, u) + 1
  {
    var pat := MediaOpen;
    var rest := DiscoveryRest(pat, jp, jm, jc);
    DiscoveryTextSplit(u, pat, jp, jm, jc);
    DiscoveryTextSplit(StrReplace(pat, snippet, u), snippet, jp, jm, jc);
    HeadMissesPattern();
    NoStraddleByBoundary(pat, DiscoveryHead, u + rest);
    ReplaceConcat(pat, snippet, DiscoveryHead, u + rest);
    CountConcat(pat, DiscoveryHead, u + rest);
    ReplaceWithoutLastChar(pat, snippet, DiscoveryHead);
    SpliceAfterHead(u, jp, jm, jc, snippet);
  }

  /** The username and the rest: the username's occurrences, then the media
      edge. */
  lemma SpliceAfterHead(u: string, jp: string, jm: string, jc: string, snippet: string)
    requires BraceFree(jp) && BraceFree(jm) && BraceFree(jc)
    ensures StrReplace(MediaOpen, snippet, u + DiscoveryRest(MediaOpen, jp, jm, jc))
         == StrReplace(MediaOpen, snippet, u) + DiscoveryRest(snippet, jp, jm, jc)
    ensures CountMatches(MediaOpen, u + DiscoveryRest(MediaOpen, jp, jm, jc)) == CountMatches(MediaOpen, u) + 1
  {
    var pat := MediaOpen;
    var rest := DiscoveryRest(pat, jp, jm, jc);
    // The username is followed by `)`.
    assert rest[0] == ')';
    NoStraddleByBoundary(pat, u, rest);
    ReplaceConcat(pat, snippet, u, rest);
    CountConcat(pat, u, rest);
    SpliceRest(jp, jm, jc, snippet);
  }

  /** The splice of the default expression finds one occurrence more than
      the username holds, so exactly one when the username has no `{`. */
  lemma SpliceDefaultCount(d: Discovery, snippet: string)
    requires WellFormed(d)
    ensures CountMatches(MediaOpen, DefaultExpression(d)) == CountMatches(MediaOpen, d.username) + 1
    ensures '{' !in d.username ==> CountMatches(MediaOpen, DefaultExpression(d)) == 1
    ensures StrReplace(MediaOpen, snippet, DefaultExpression(d))
         == DiscoveryText(StrReplace(MediaOpen, snippet, d.username), snippet,
              CommaImplodeArray(d.fields), CommaImplodeArray(d.mediaFields), CommaImplodeArray(ChildrenFields))
  {
    ChildrenFieldsFacts();
    JoinBraceFree(d.fields);
    JoinBraceFree(d.mediaFields);
    JoinBraceFree(ChildrenFields);
    SpliceDiscoveryText(d.username, CommaImplodeArray(d.fields), CommaImplodeArray(d.mediaFields), CommaImplodeArray(ChildrenFields), snippet);
    if '{' !in d.username {
      ReplaceWithoutLastChar(MediaOpen, snippet, d.username);
    }
  }

  /** The spliced expression in the shape a rendered tree has. */
  lemma SpliceDefaultText(d: Discovery, cursorType: string, cursor: Json)
    requires WellFormed(d) && '{' !in d.username
    ensures StrReplace(MediaOpen, CursorSnippet(cursorType, cursor), DefaultExpression(d))
         == DiscoveryText(d.username, "media" + ModifierText(Modifier(cursorType, PhpString(cursor))) + "{",
              CommaImplodeArray(d.fields), CommaImplodeArray(d.mediaFields), CommaImplodeArray(ChildrenFields))
  {
    var snippet := CursorSnippet(cursorType, cursor);
    SpliceDefaultCount(d, snippet);
    ReplaceWithoutLastChar(MediaOpen, snippet, d.username);
  }

  /** When the username has no `{`, the spliced expression is the default
      tree with the cursor on the media edge. */
  lemma SpliceDefaultRenders(d: Discovery, cursorType: string, cursor: Json)
    requires WellFormed(d) && '{' !in d.username
    ensures StrReplace(MediaOpen, CursorSnippet(cursorType, cursor), DefaultExpression(d))
         == Render(DefaultTree(d, Modifier(cursorType, PhpString(cursor))))
  {
    ChildrenFieldsFacts();
    SpliceDefaultText(d, cursorType, cursor);
    DiscoveryTreeShape(d.username, Modifier(cursorType, PhpString(cursor)), d.fields, d.mediaFields, ChildrenFields);
  }

  /** The spliced expression stays brace-balanced three levels deep when
      neither the username nor the cursor has a brace. */
  lemma SpliceDefaultBalanced(d: Discovery, cursorType: string, cursor: Json)
    requires WellFormed(d)
    requires cursorType == After || cursorType == Before
    requires BraceFree(d.username) && BraceFree(PhpString(cursor))
    ensures Balanced(StrReplace(MediaOpen, CursorSnippet(cursorType, cursor), DefaultExpression(d)))
    ensures HasDepth(StrReplace(MediaOpen, CursorSnippet(cursorType, cursor), DefaultExpression(d)), 3)
  {
    var m := Modifier(cursorType, PhpString(cursor));
    ChildrenFieldsFacts();
    SpliceDefaultText(d, cursorType, cursor);
    CursorModifierBraceFree(cursorType, PhpString(cursor));
    DiscoveryTreeShape(d.username, m, d.fields, d.mediaFields, ChildrenFields);
  }

  lemma CursorModifierBraceFree(cursorType: string, cursor: string)
    requires cursorType == After || cursorType == Before
    requires BraceFree(cursor)
    ensures BraceFree(ModifierText(Modifier(cursorType, cursor)))
  {
  }

  // ---------------------------------------------------------------------------
  // Paging
  // ---------------------------------------------------------------------------

  /** The endpoint of the first request, and the one paging links use. */
  function DiscoveryEndpoint(d: Discovery): string { "/" + d.user.userId }
  function LinkEndpoint(d: Discovery): string { "/" + d.user.userId + "/" }

  /** The keys of a response where the nested media cursors sit. */
  function NestedCursorPath(cursorType: string): seq<string> {
    [BusinessDiscoveryField, MediaField, Paging, Cursors, cursorType]
  }

  /** The parameters of a paging link: the default parameters rebuilt, with
      the cursor spliced into every value. */
  function SplicedParams(d: Discovery, cursorType: string, cursor: Json): (r: Params)
    ensures r == [(FieldsKey, StrReplace(MediaOpen, CursorSnippet(cursorType, cursor), DefaultExpression(d)))]
  {
    var ps := ReplaceValues(MediaOpen, CursorSnippet(cursorType, cursor), GetParams(d, []));
    assert |ps| == 1 && ps[0].0 == FieldsKey;
    ps
  }

  /** The URL of the GET request for one page of media. */
  function CursorLink(d: Discovery, cursorType: string, cursor: Json): string {
    GetUrl(NewRequest(MethodGet, LinkEndpoint(d), SplicedParams(d, cursorType, cursor),
      d.user.client.graphVersion, d.user.client.accessToken))
  }

  /** A paging link is a GET URL whose query reads back as the spliced
      `fields` and then the token: never the caller's parameters. */
  lemma CursorLinkQuery(d: Discovery, cursorType: string, cursor: Json)
    requires '?' !in d.user.client.graphVersion + d.user.userId
    ensures var url := CursorLink(d, cursorType, cursor);
      && QueryOf(url).Some?
      && ParseQuery(QueryOf(url).value) == Some(WithToken(SplicedParams(d, cursorType, cursor), d.user.client.accessToken))
  {
    var gv := d.user.client.graphVersion;
    assert gv + LinkEndpoint(d) == (gv + "/" + d.user.userId) + "/";
    assert '?' !in gv + LinkEndpoint(d);
    assert ToUpper(MethodGet) == MethodGet;
    GetUrlCarriesParams(MethodGet, LinkEndpoint(d), SplicedParams(d, cursorType, cursor), gv, d.user.client.accessToken);
  }

  /** A paging link targets the user node with a trailing slash, where the
      first request targets it without one. */
  lemma CursorLinkTarget(d: Discovery, cursorType: string, cursor: Json)
    ensures CursorLink(d, cursorType, cursor) ==
      GraphUrl(d.user.client.graphVersion, DiscoveryEndpoint(d) + "/") + "?"
        + BuildQuery(WithToken(SplicedParams(d, cursorType, cursor), d.user.client.accessToken))
  {
    assert ToUpper(MethodGet) == MethodGet;
    assert !Truthy("");
  }

  /** `calcNextLink(response)`: a nested `before` cursor makes
      `paging.previous` a link to the page before, then a nested `after`
      cursor makes `paging.next` a link to the page after. Nothing outside
      `paging` changes, and without nested cursors nothing changes. */
  function CalcNextLink(d: Discovery, response: Members): (r: Members)
    ensures forall k :: k != Paging ==> Get(r, k) == Get(response, k)
    ensures Isset(response, NestedCursorPath(Before)) ==>
      Lookup(r, [Paging, Previous]) == Some(JStr(CursorLink(d, Before, Lookup(response, NestedCursorPath(Before)).value)))
    ensures !Isset(response, NestedCursorPath(Before)) ==>
      Lookup(r, [Paging, Previous]) == Lookup(response, [Paging, Previous])
    ensures Isset(response, NestedCursorPath(After)) ==>
      Lookup(r, [Paging, Next]) == Some(JStr(CursorLink(d, After, Lookup(response, NestedCursorPath(After)).value)))
    ensures !Isset(response, NestedCursorPath(After)) ==>
      Lookup(r, [Paging, Next]) == Lookup(response, [Paging, Next])
    ensures !Isset(response, NestedCursorPath(Before)) && !Isset(response, NestedCursorPath(After)) ==> r == response
    ensures forall j :: j != Next && j != Previous ==> Lookup(r, [Paging, j]) == Lookup(response, [Paging, j])
  {
    var r1 :=
      if Isset(response, NestedCursorPath(Before)) then
        PutNested(response, Paging, Previous, JStr(CursorLink(d, Before, Lookup(response, NestedCursorPath(Before)).value)))
      else response;
    LookupSameHead(r1, response, NestedCursorPath(After));
    if Isset(r1, NestedCursorPath(After)) then
      PutNested(r1, Paging, Next, JStr(CursorLink(d, After, Lookup(r1, NestedCursorPath(After)).value)))
    else r1
  }

  /** The links the client holds after `calcNextLink` and `setPrevNextLinks`
      ran on a response that differs from the raw one at most in the link
      keys: a nested cursor's link where there is one, the raw top-level
      `paging` link or "" otherwise. */
  lemma LinksFromNestedCursors(d: Discovery, prior: Members, raw: Members)
    requires forall k :: k != PagingNextLink && k != PagingPreviousLink ==> Get(prior, k) == Get(raw, k)
    ensures IssetOr(CalcNextLink(d, prior), [Paging, Next], JStr("")) ==
      if Isset(raw, NestedCursorPath(After)) then JStr(CursorLink(d, After, Lookup(raw, NestedCursorPath(After)).value))
      else IssetOr(raw, [Paging, Next], JStr(""))
    ensures IssetOr(CalcNextLink(d, prior), [Paging, Previous], JStr("")) ==
      if Isset(raw, NestedCursorPath(Before)) then JStr(CursorLink(d, Before, Lookup(raw, NestedCursorPath(Before)).value))
      else IssetOr(raw, [Paging, Previous], JStr(""))
  {
    NestedLinkFromRaw(d, prior, raw, After, Next);
    NestedLinkFromRaw(d, prior, raw, Before, Previous);
  }

  /** One link of `LinksFromNestedCursors`. */
  lemma NestedLinkFromRaw(d: Discovery, prior: Members, raw: Members, cursorType: string, order: string)
    requires (cursorType, order) == (After, Next) || (cursorType, order) == (Before, Previous)
    requires forall k :: k != PagingNextLink && k != PagingPreviousLink ==> Get(prior, k) == Get(raw, k)
    ensures IssetOr(CalcNextLink(d, prior), [Paging, order], JStr("")) ==
      if Isset(raw, NestedCursorPath(cursorType)) then JStr(CursorLink(d, cursorType, Lookup(raw, NestedCursorPath(cursorType)).value))
      else IssetOr(raw, [Paging, order], JStr(""))
  {
    assert Get(prior, BusinessDiscoveryField) == Get(raw, BusinessDiscoveryField);
    assert Get(prior, Paging) == Get(raw, Paging);
    LookupSameHead(prior, raw, NestedCursorPath(cursorType));
    LookupSameHead(prior, raw, [Paging, order]);
    NestedLink(d, prior, cursorType, order);
  }

  /** One link after `calcNextLink`, read as `isset(...) ? ... : ""`. */
  lemma NestedLink(d: Discovery, m: Members, cursorType: string, order: string)
    requires (cursorType, order) == (After, Next) || (cursorType, order) == (Before, Previous)
    ensures IssetOr(CalcNextLink(d, m), [Paging, order], JStr("")) ==
      if Isset(m, NestedCursorPath(cursorType)) then JStr(CursorLink(d, cursorType, Lookup(m, NestedCursorPath(cursorType)).value))
      else IssetOr(m, [Paging, order], JStr(""))
  {
    var r := CalcNextLink(d, m);
    if Isset(m, NestedCursorPath(cursorType)) {
      assert Lookup(r, [Paging, order]) == Some(JStr(CursorLink(d, cursorType, Lookup(m, NestedCursorPath(cursorType)).value)));
    } else {
      assert Lookup(r, [Paging, order]) == Lookup(m, [Paging, order]);
    }
  }

  /** The client's version, token and user are what a call leaves them. */
  function WithClient(d: Discovery, c: Client): (r: Discovery)
    requires c.graphVersion == d.user.client.graphVersion && c.accessToken == d.user.client.accessToken
    ensures forall t, cursor :: CursorLink(r, t, cursor) == CursorLink(d, t, cursor)
  {
    d.(user := d.user.(client := c))
  }

  /** `getSelf(params)`: GET the user node with `getParams(params)`, then
      compute the links from the nested cursors, then set them. */
  function GetSelf(d: Discovery, params: Params, send: Transport): (r: Outcome)
    ensures r.client.request.Some?
    ensures var req := r.client.request.value;
      req.verb == MethodGet && req.endpoint == DiscoveryEndpoint(d) &&
      req.params == WithToken(GetParams(d, params), d.user.client.accessToken)
    ensures var raw := send(r.client.request.value);
      r.client.pagingNextLink ==
        if Isset(raw, NestedCursorPath(After)) then JStr(CursorLink(d, After, Lookup(raw, NestedCursorPath(After)).value))
        else IssetOr(raw, [Paging, Next], JStr(""))
    ensures var raw := send(r.client.request.value);
      r.client.pagingPreviousLink ==
        if Isset(raw, NestedCursorPath(Before)) then JStr(CursorLink(d, Before, Lookup(raw, NestedCursorPath(Before)).value))
        else IssetOr(raw, [Paging, Previous], JStr(""))
  {
    var o := Perform(d.user.client, ApiCall(GET, Args(DiscoveryEndpoint(d), Some(GetParams(d, params)))), send);
    var d' := WithClient(d, o.client);
    LinksFromNestedCursors(d', o.response, send(o.client.request.value));
    SetPrevNextLinks(o.client, CalcNextLink(d', o.response))
  }

  /** `getMediaPage(page)`: fetch the held next link for "next" and the held
      previous link otherwise, then compute and set the links again. */
  function GetMediaPage(d: Discovery, page: string, send: Transport): (r: Outcome)
    ensures r.client.request.Some?
    ensures r.client.request.value.verb == MethodGet
    ensures JsonTruthy(HeldLink(d.user.client, page)) ==>
      GetUrl(r.client.request.value) == PhpString(HeldLink(d.user.client, page))
    ensures !JsonTruthy(HeldLink(d.user.client, page)) ==>
      GetUrl(r.client.request.value) == GraphUrl(d.user.client.graphVersion, "") + "?"
    ensures var raw := send(r.client.request.value);
      r.client.pagingNextLink ==
        if Isset(raw, NestedCursorPath(After)) then JStr(CursorLink(d, After, Lookup(raw, NestedCursorPath(After)).value))
        else IssetOr(raw, [Paging, Next], JStr(""))
    ensures var raw := send(r.client.request.value);
      r.client.pagingPreviousLink ==
        if Isset(raw, NestedCursorPath(Before)) then JStr(CursorLink(d, Before, Lookup(raw, NestedCursorPath(Before)).value))
        else IssetOr(raw, [Paging, Previous], JStr(""))
  {
    var o := GetPage(d.user.client, page, send);
    var d' := WithClient(d, o.client);
    LinksFromNestedCursors(d', o.response, send(o.client.request.value));
    SetPrevNextLinks(o.client, CalcNextLink(d', o.response))
  }
}
