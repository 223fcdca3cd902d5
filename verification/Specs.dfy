/** Building the dispatch specs of one target (internal/execution/usecase/helpers.go). */
module Specs {
  import opened Model
  import opened Text
  import opened Values

  datatype Queue = TikTokTasks | FacebookTasks | YouTubeTasks
  datatype Action = PostDetail | FullFlow | PageFullFlow | UserFullFlow
  datatype Value = Num(n: int) | Dec(x: real) | Str(s: string) | Strs(items: seq<string>)

  datatype Spec = Spec(queue: Queue, action: Action, params: map<string, Value>, keyword: string)

  datatype SpecError = NotAllowed | PageIdRequired | ProfileRequired | ParseIdsRequired | UnsupportedMapping
  datatype SpecResult = Specs(specs: seq<Spec>) | Refused(error: SpecError)

  /** What Go's URL parser gives for a profile URL: its page id and its user name, empty when it has none. */
  datatype UrlParser = UrlParser(pageId: string -> string, username: string -> string)

  // ---------------------------------------------------------------- keyword targets

  predicate Mapped(sourceType: SourceType) {
    sourceType.TikTok? || sourceType.Facebook? || sourceType.YouTube?
  }

  function KeywordSpec(sourceType: SourceType, keyword: string): Spec
    requires Mapped(sourceType)
  {
    match sourceType
    case TikTok =>
      Spec(TikTokTasks, FullFlow, map["keyword" := Str(keyword), "limit" := Num(5), "threshold" := Dec(0.3), "comment_count" := Num(8)], keyword)
    case Facebook =>
      Spec(FacebookTasks, FullFlow, map["keyword" := Str(keyword), "limit" := Num(5), "comment_count" := Num(8), "comment_sort" := Str("hot")], keyword)
    case YouTube =>
      Spec(YouTubeTasks, FullFlow, map["keyword" := Str(keyword), "limit" := Num(5), "comment_count" := Num(8)], keyword)
  }

  method BuildKeywordSpecs(sourceType: SourceType, values: seq<string>) returns (r: SpecResult)
    requires Mapped(sourceType)
    ensures r.Refused? <==> Normalized(values, false) == []
    ensures r.Refused? ==> r.error.NotAllowed?
    ensures r.Specs? ==>
              && |r.specs| == |Normalized(values, false)|
              && forall i :: 0 <= i < |r.specs| ==> r.specs[i] == KeywordSpec(sourceType, Normalized(values, false)[i])
  {
    var keywords := ExtractKeywords(values);
    if keywords == [] {
      return Refused(NotAllowed);
    }
    var specs: seq<Spec> := [];
    for i := 0 to |keywords|
      invariant |specs| == i
      invariant forall j :: 0 <= j < i ==> specs[j] == KeywordSpec(sourceType, keywords[j])
    {
      specs := specs + [KeywordSpec(sourceType, keywords[i])];
    }
    return Specs(specs);
  }

  // ---------------------------------------------------------------- profile targets

  /** `numericFacebookIDPattern`: five digits or more. */
  predicate NumericId(s: string) {
    |s| >= 5 && forall i :: 0 <= i < |s| ==> '0' <= s[i] <= '9'
  }

  /** The string list a metadata key holds: trimmed, blanks dropped. */
  function ListMeta(items: seq<string>): seq<string> {
    Normalized(items, false)
  }

  function FirstNonEmpty(a: string, b: string): string {
    if a != "" then a else b
  }

  function At(items: seq<string>, i: nat): string {
    if i < |items| then items[i] else ""
  }

  function DropAt(s: string): string {
    if s != "" && s[0] == '@' then s[1..] else s
  }

  function PageIdAt(url: UrlParser, t: Target, i: nat): string
    requires i < |t.values|
  {
    var listed := if t.meta.Meta? then At(ListMeta(t.meta.pageIds), i) else "";
    var fallback := if t.meta.Meta? then TrimSpace(t.meta.pageId) else "";
    TrimSpace(FirstNonEmpty(FirstNonEmpty(listed, fallback), url.pageId(t.values[i])))
  }

  function PageSpec(pageId: string, profileUrl: string): Spec {
    Spec(FacebookTasks, PageFullFlow,
         map["page_id" := Str(pageId), "profile_url" := Str(profileUrl), "count" := Num(2), "comment_count" := Num(8), "comment_sort" := Str("hot")],
         "")
  }

  method BuildPageSpecs(url: UrlParser, t: Target) returns (r: SpecResult)
    ensures r.Specs? <==> t.values != [] && forall i :: 0 <= i < |t.values| ==> NumericId(PageIdAt(url, t, i))
    ensures r.Refused? ==> r.error.PageIdRequired?
    ensures r.Specs? ==>
              && |r.specs| == |t.values|
              && forall i :: 0 <= i < |t.values| ==> r.specs[i] == PageSpec(PageIdAt(url, t, i), TrimSpace(t.values[i]))
  {
    var specs: seq<Spec> := [];
    for i := 0 to |t.values|
      invariant |specs| == i
      invariant forall j :: 0 <= j < i ==>
                  NumericId(PageIdAt(url, t, j)) && specs[j] == PageSpec(PageIdAt(url, t, j), TrimSpace(t.values[j]))
    {
      var candidate := PageIdAt(url, t, i);
      if !NumericId(candidate) {
        return Refused(PageIdRequired);
      }
      specs := specs + [PageSpec(candidate, TrimSpace(t.values[i]))];
    }
    return if specs == [] then Refused(PageIdRequired) else Specs(specs);
  }

  function SecUidAt(t: Target, i: nat): string {
    if t.meta.NoMeta? then ""
    else FirstNonEmpty(At(ListMeta(t.meta.secUids), i), TrimSpace(t.meta.secUid))
  }

  /** The URL's user name counts only when the metadata names neither. */
  function UsernameAt(url: UrlParser, t: Target, i: nat): string
    requires i < |t.values|
  {
    var named := if t.meta.NoMeta? then ""
                 else FirstNonEmpty(DropAt(At(ListMeta(t.meta.usernames), i)), DropAt(TrimSpace(t.meta.username)));
    if named == "" && SecUidAt(t, i) == "" then url.username(t.values[i]) else named
  }

  function ProfileSpec(username: string, secUid: string, profileUrl: string): Spec {
    var params := map["profile_url" := Str(profileUrl), "count" := Num(5), "threshold" := Dec(0.3), "comment_count" := Num(8)];
    Spec(TikTokTasks, UserFullFlow,
         if secUid != "" then params["sec_uid" := Str(secUid)] else params["username" := Str(username)], "")
  }

  /** The i-th value names a user in some way. */
  predicate NamesUser(url: UrlParser, t: Target, i: nat)
    requires i < |t.values|
  {
    UsernameAt(url, t, i) != "" || SecUidAt(t, i) != ""
  }

  function UserSpec(url: UrlParser, t: Target, i: nat): Spec
    requires i < |t.values|
  {
    ProfileSpec(TrimSpace(UsernameAt(url, t, i)), TrimSpace(SecUidAt(t, i)), TrimSpace(t.values[i]))
  }

  ghost predicate UsersUpTo(url: UrlParser, t: Target, n: nat, specs: seq<Spec>) {
    |specs| == n <= |t.values| && forall i :: 0 <= i < n ==> NamesUser(url, t, i) && specs[i] == UserSpec(url, t, i)
  }

  lemma UsersAdd(url: UrlParser, t: Target, n: nat, specs: seq<Spec>)
    requires n < |t.values| && UsersUpTo(url, t, n, specs) && NamesUser(url, t, n)
    ensures UsersUpTo(url, t, n + 1, specs + [UserSpec(url, t, n)])
  {
  }

  method BuildProfileSpecs(url: UrlParser, t: Target) returns (r: SpecResult)
    ensures r.Specs? <==> t.values != [] && forall i :: 0 <= i < |t.values| ==> NamesUser(url, t, i)
    ensures r.Refused? ==> r.error.ProfileRequired?
    ensures r.Specs? ==> |r.specs| == |t.values| && forall i :: 0 <= i < |t.values| ==> r.specs[i] == UserSpec(url, t, i)
  {
    var specs: seq<Spec> := [];
    for i := 0 to |t.values|
      invariant UsersUpTo(url, t, i, specs)
    {
      var username, secUid := UsernameAt(url, t, i), SecUidAt(t, i);
      if username == "" && secUid == "" {
        assert !NamesUser(url, t, i);
        return Refused(ProfileRequired);
      }
      UsersAdd(url, t, i, specs);
      specs := specs + [ProfileSpec(TrimSpace(username), TrimSpace(secUid), TrimSpace(t.values[i]))];
    }
    return if specs == [] then Refused(ProfileRequired) else Specs(specs);
  }

  // ---------------------------------------------------------------- all targets

  function PostSpec(parseIds: seq<string>): Spec {
    Spec(FacebookTasks, PostDetail, map["parse_ids" := Strs(parseIds)], "")
  }

  /** What `buildDispatchSpecs` may answer for a source type and a target. */
  ghost predicate Builds(url: UrlParser, sourceType: SourceType, t: Target, r: SpecResult) {
    match t.targetType
    case Keyword =>
      if !Mapped(sourceType) then r == Refused(UnsupportedMapping)
      else if Normalized(t.values, false) == [] then r == Refused(NotAllowed)
      else
        && r.Specs? && |r.specs| == |Normalized(t.values, false)|
        && forall i :: 0 <= i < |r.specs| ==> r.specs[i] == KeywordSpec(sourceType, Normalized(t.values, false)[i])
    case Profile =>
      if sourceType.Facebook? then
        if t.values == [] || exists i :: 0 <= i < |t.values| && !NumericId(PageIdAt(url, t, i)) then r == Refused(PageIdRequired)
        else
          && r.Specs? && |r.specs| == |t.values|
          && forall i :: 0 <= i < |t.values| ==> r.specs[i] == PageSpec(PageIdAt(url, t, i), TrimSpace(t.values[i]))
      else if sourceType.TikTok? then
        if t.values == [] || exists i :: 0 <= i < |t.values| && !NamesUser(url, t, i)
        then r == Refused(ProfileRequired)
        else
          && r.Specs? && |r.specs| == |t.values|
          && forall i :: 0 <= i < |t.values| ==> r.specs[i] == UserSpec(url, t, i)
      else r == Refused(UnsupportedMapping)
    case PostUrl =>
      if !sourceType.Facebook? then r == Refused(UnsupportedMapping)
      else if t.meta.NoMeta? || Normalized(t.meta.parseIds, false) == [] then r == Refused(ParseIdsRequired)
      else r == Specs([PostSpec(Normalized(t.meta.parseIds, false))])
  }

  /** `buildDispatchSpecs` never succeeds with an empty list. */
  method BuildDispatchSpecs(url: UrlParser, sourceType: SourceType, t: Target) returns (r: SpecResult)
    ensures Builds(url, sourceType, t, r)
    ensures r.Specs? ==> r.specs != []
  {
    if t.targetType.Keyword? && Mapped(sourceType) {
      r := BuildKeywordSpecs(sourceType, t.values);
    } else if t.targetType.Profile? && sourceType.Facebook? {
      r := BuildPageSpecs(url, t);
    } else if t.targetType.Profile? && sourceType.TikTok? {
      r := BuildProfileSpecs(url, t);
    } else if t.targetType.PostUrl? && sourceType.Facebook? {
      if t.meta.NoMeta? {
        return Refused(ParseIdsRequired);
      }
      var parseIds := ExtractKeywords(t.meta.parseIds);
      r := if parseIds == [] then Refused(ParseIdsRequired) else Specs([PostSpec(parseIds)]);
    } else {
      r := Refused(UnsupportedMapping);
    }
  }

  /** `Builds` determines its answer. */
  lemma BuildsIsDetermined(url: UrlParser, sourceType: SourceType, t: Target, r: SpecResult, r': SpecResult)
    requires Builds(url, sourceType, t, r) && Builds(url, sourceType, t, r')
    ensures r == r'
  {
    if r.Specs? && r'.Specs? {
      assert |r.specs| == |r'.specs| && forall i :: 0 <= i < |r.specs| ==> r.specs[i] == r'.specs[i];
    }
  }

  // ---------------------------------------------------------------- what the specs ask for

  /** A spec goes to the queue of its platform. */
  predicate Routed(spec: Spec, sourceType: SourceType) {
    match spec.queue
    case TikTokTasks => sourceType == SourceType.TikTok
    case FacebookTasks => sourceType == SourceType.Facebook
    case YouTubeTasks => sourceType == SourceType.YouTube
  }

  /** Keyword specs search their platform for one keyword each, with the limits of the service. */
  lemma KeywordSpecsAsk(url: UrlParser, sourceType: SourceType, t: Target, specs: seq<Spec>, i: nat)
    requires t.targetType.Keyword? && Builds(url, sourceType, t, Specs(specs)) && i < |specs|
    ensures Routed(specs[i], sourceType) && specs[i].action == FullFlow
    ensures |specs| == |Normalized(t.values, false)| && KeywordParams(specs[i], sourceType, Normalized(t.values, false)[i])
  {
  }

  /** Profile specs name a Facebook page or a TikTok user for each value. */
  lemma ProfileSpecsAsk(url: UrlParser, sourceType: SourceType, t: Target, specs: seq<Spec>, i: nat)
    requires t.targetType.Profile? && Builds(url, sourceType, t, Specs(specs)) && i < |specs|
    ensures |specs| == |t.values| && AsksProfile(specs[i], sourceType, t.values[i])
  {
    if sourceType.Facebook? {
      PageSpecAsks(url, t, specs, i);
      PageAsks(PageIdAt(url, t, i), t.values[i]);
    } else {
      UserSpecAsks(url, t, specs, i);
      UserAsks(TrimSpace(UsernameAt(url, t, i)), TrimSpace(SecUidAt(t, i)), t.values[i]);
    }
  }

  /** What a profile spec asks of its platform. */
  predicate AsksProfile(spec: Spec, sourceType: SourceType, value: string) {
    && Routed(spec, sourceType) && ProfileParams(spec, sourceType, value) && spec.keyword == ""
    && spec.action == if sourceType == SourceType.Facebook then PageFullFlow else UserFullFlow
  }

  lemma PageAsks(pageId: string, value: string)
    requires NumericId(pageId)
    ensures AsksProfile(PageSpec(pageId, TrimSpace(value)), SourceType.Facebook, value)
  {
  }

  lemma UserAsks(username: string, secUid: string, value: string)
    ensures AsksProfile(ProfileSpec(username, secUid, TrimSpace(value)), SourceType.TikTok, value)
  {
  }

  lemma PageSpecAsks(url: UrlParser, t: Target, specs: seq<Spec>, i: nat)
    requires t.targetType.Profile? && Builds(url, SourceType.Facebook, t, Specs(specs)) && i < |specs|
    ensures |specs| == |t.values| && NumericId(PageIdAt(url, t, i))
    ensures specs[i] == PageSpec(PageIdAt(url, t, i), TrimSpace(t.values[i]))
  {
  }

  lemma UserSpecAsks(url: UrlParser, t: Target, specs: seq<Spec>, i: nat)
    requires t.targetType.Profile? && Builds(url, SourceType.TikTok, t, Specs(specs)) && i < |specs|
    ensures |specs| == |t.values| && NamesUser(url, t, i) && specs[i] == UserSpec(url, t, i)
  {
  }

  /** The one spec of a post target asks for the posts that its metadata names. */
  lemma PostSpecAsks(url: UrlParser, sourceType: SourceType, t: Target, specs: seq<Spec>)
    requires t.targetType.PostUrl? && Builds(url, sourceType, t, Specs(specs))
    ensures |specs| == 1 && Routed(specs[0], sourceType) && specs[0].action == PostDetail && specs[0].keyword == ""
    ensures t.meta.Meta? && specs[0].params == map["parse_ids" := Strs(Normalized(t.meta.parseIds, false))]
  {
  }

  predicate KeywordParams(spec: Spec, sourceType: SourceType, keyword: string) {
    && spec.keyword == keyword && "keyword" in spec.params && spec.params["keyword"] == Str(keyword)
    && "limit" in spec.params && spec.params["limit"] == Num(5)
    && "comment_count" in spec.params && spec.params["comment_count"] == Num(8)
    && ("threshold" in spec.params <==> sourceType == SourceType.TikTok)
    && ("comment_sort" in spec.params <==> sourceType == SourceType.Facebook)
    && ("threshold" in spec.params ==> spec.params["threshold"] == Dec(0.3))
    && ("comment_sort" in spec.params ==> spec.params["comment_sort"] == Str("hot"))
  }

  /** Two posts of a page that has a numeric id, or five of a user named in one way. */
  predicate ProfileParams(spec: Spec, sourceType: SourceType, value: string) {
    && "profile_url" in spec.params && spec.params["profile_url"] == Str(TrimSpace(value)) && "count" in spec.params
    && "comment_count" in spec.params && spec.params["comment_count"] == Num(8)
    && if sourceType == SourceType.Facebook then
         && spec.params["count"] == Num(2)
         && "page_id" in spec.params && spec.params["page_id"].Str? && NumericId(spec.params["page_id"].s)
         && "comment_sort" in spec.params && spec.params["comment_sort"] == Str("hot")
       else
         && spec.params["count"] == Num(5)
         && "threshold" in spec.params && spec.params["threshold"] == Dec(0.3)
         && ("username" in spec.params <==> "sec_uid" !in spec.params)
  }

  /** The page id of the i-th value: the i-th one listed in the metadata, else the one given there for all,
      else the one in the URL; and it must have five digits or more and nothing else. */
  lemma PageIdIs(url: UrlParser, t: Target, i: nat)
    requires i < |t.values|
    ensures PageIdAt(url, t, i) ==
            if t.meta.Meta? && i < |Normalized(t.meta.pageIds, false)| then Normalized(t.meta.pageIds, false)[i]
            else if t.meta.Meta? && TrimSpace(t.meta.pageId) != "" then TrimSpace(t.meta.pageId)
            else TrimSpace(url.pageId(t.values[i]))
    ensures NumericId(PageIdAt(url, t, i)) <==> 
            |PageIdAt(url, t, i)| > 4 && forall k :: 0 <= k < |PageIdAt(url, t, i)| ==> PageIdAt(url, t, i)[k] in "0123456789"
  {
    if t.meta.Meta? {
      NormalizedIsNormal(t.meta.pageIds, false);
      TrimSpaceIdempotent(t.meta.pageId);
    }
  }

  /** Without its leading at sign, if it has one. */
  lemma DropAtIs(s: string)
    ensures DropAt("@" + s) == s
    ensures s == "" || s[0] != '@' ==> DropAt(s) == s
  {
  }

  lemma DropAtEmpties(s: string)
    ensures DropAt(s) == "" <==> s in {"", "@"}
  {
    assert "@"[1..] == "";
    if DropAt(s) == "" && s != "" {
      assert s[0] == '@' && s[1..] == "";
      assert s == "@";
    }
  }

  /** The user of the i-th value: by the metadata lists, else by the single entries, and by the URL only when
      the metadata names neither a user nor a sec uid. */
  lemma UserIs(url: UrlParser, t: Target, i: nat)
    requires i < |t.values|
    ensures t.meta.NoMeta? ==> SecUidAt(t, i) == "" && UsernameAt(url, t, i) == url.username(t.values[i])
    ensures t.meta.Meta? ==>
              var secUids, names := Normalized(t.meta.secUids, false), Normalized(t.meta.usernames, false);
              && SecUidAt(t, i) == (if i < |secUids| then secUids[i] else TrimSpace(t.meta.secUid))
              && UsernameAt(url, t, i) ==
                   if i < |names| && names[i] != "@" then DropAt(names[i])
                   else if TrimSpace(t.meta.username) !in {"", "@"} then DropAt(TrimSpace(t.meta.username))
                   else if SecUidAt(t, i) == "" then url.username(t.values[i]) else ""
  {
    if t.meta.Meta? {
      var names := Normalized(t.meta.usernames, false);
      if i < |names| {
        DropAtEmpties(names[i]);
      }
      DropAtEmpties(TrimSpace(t.meta.username));
      NormalizedIsNormal(t.meta.secUids, false);
      NormalizedIsNormal(t.meta.usernames, false);
    }
  }

  /** The specs of a keyword target depend on nothing a control-plane operation can change. */
  lemma KeywordSpecsAreStable(url: UrlParser, sourceType: SourceType, t: Target, t': Target, r: SpecResult)
    requires t.targetType.Keyword? && t'.targetType.Keyword? && t'.values == t.values
    ensures Builds(url, sourceType, t, r) <==> Builds(url, sourceType, t', r)
  {
  }

  /** A keyword target created from `raw` dispatches one spec for each distinct non-blank trimmed
      keyword, in order of first occurrence. */
  lemma OneSpecPerKeyword(url: UrlParser, sourceType: SourceType, t: Target, raw: seq<string>, r: SpecResult)
    requires t.targetType.Keyword? && Mapped(sourceType)
    requires t.values == Normalized(raw, true) && t.values != []
    requires Builds(url, sourceType, t, r)
    ensures r.Specs? && |r.specs| == |Normalized(raw, true)|
    ensures forall i :: 0 <= i < |r.specs| ==> r.specs[i] == KeywordSpec(sourceType, Normalized(raw, true)[i])
    ensures forall i, j :: 0 <= i < j < |r.specs| ==> r.specs[i].keyword != r.specs[j].keyword
  {
    StoredKeywordsAreDispatched(raw);
    NormalizedDistinct(raw);
  }
}
