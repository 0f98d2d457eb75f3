/**
 * The WordPress publisher that talks to the REST API when it can and falls
 * back to mock results when it cannot. The choice between the two is made
 * once, at construction; a failed real call degrades to the mock result for
 * that call only.
 */
module WpPublisher {
  import opened Wrappers
  import Strings
  import Config
  import Http

  /** The API path that the mock links drop from the configured URL. */
  const ApiPath := "/wp-json/wp/v2"
  const DemoDomain := "https://demo.wordpress.com"
  const DraftQuery := "/?p="
  const PreviewFlag := "&preview=true"
  const MockMediaUrl := "https://demo.wordpress.com/wp-content/uploads/sample.jpg"
  /** Length of the excerpt taken from the content when none is given. */
  const ExcerptLength := 150

  /** `HTTPBasicAuth(user, password)`. */
  datatype BasicAuth = BasicAuth(user: string, password: string)

  /** The fields of a created post that are read back: `id` and `link`, each possibly missing. */
  datatype CreatedPost = CreatedPost(id: Option<int>, link: Option<string>)

  /** One entry of the post list: its id, rendered title and status. */
  datatype PostSummary = PostSummary(id: int, title: string, status: string)

  /** The fields of an uploaded media object that are read back, each possibly missing. */
  datatype MediaBody = MediaBody(id: Option<int>, sourceUrl: Option<string>)

  /** What `upload_media` returns: the media id and its URL. */
  datatype Media = Media(id: int, url: string)

  /** The two posts `get_posts` returns when it does not use the server's answer. */
  const MockPosts: seq<PostSummary> := [
    PostSummary(1001, "Sample Post 1", "publish"),
    PostSummary(1002, "Draft Post", "draft")]

  /** Whether a publisher built from `cfg` whose probe came back as `probe` uses the real API. */
  predicate ChooseRealApi(cfg: Config.Settings, probe: Http.Outcome<()>) {
    Config.IsWordPressConfigured(cfg) && !cfg.demoMode && Http.HasStatus(probe, 200)
  }

  /**
   * The connection probe a publisher built from `cfg` sends: `GET {WP_URL}/users/me`
   * when WordPress is configured and demo mode is off, none otherwise.
   */
  function ProbeRequest(cfg: Config.Settings): (r: Option<Http.HttpRequest>)
    ensures r.Some? <==> Config.IsWordPressConfigured(cfg) && !cfg.demoMode
    ensures r.Some? ==> r.value.verb == Http.Get && r.value.url == cfg.wpUrl + "/users/me" && r.value.fields == map[]
  {
    if Config.IsWordPressConfigured(cfg) && !cfg.demoMode
    then Some(Http.HttpRequest(Http.Get, cfg.wpUrl + "/users/me", map[]))
    else None
  }

  /** `excerpt or content[:150] + "..."`. */
  function ExcerptSent(excerpt: string, content: string): (r: string)
    ensures excerpt != "" ==> r == excerpt
    ensures excerpt == "" ==> |r| == |Strings.Take(content, ExcerptLength)| + 3
    ensures excerpt == "" ==> r[..|r| - 3] == content[..|r| - 3] && r[|r| - 3..] == "..."
  {
    if excerpt != "" then excerpt else Strings.Take(content, ExcerptLength) + "..."
  }

  /** The site address of the mock links: the configured URL without the API path, or the demo site. */
  function MockBaseDomain(baseUrl: string): (r: string)
    ensures baseUrl == "" ==> r == DemoDomain
  {
    if baseUrl != "" then Strings.RemoveAll(baseUrl, ApiPath) else DemoDomain
  }

  /** A configured URL that ends in the API path, and holds it nowhere else, gives the site address before it. */
  lemma MockBaseDomainOfApiUrl(site: string)
    requires forall i :: 0 <= i < |site| ==> !Strings.MatchAt(site + ApiPath, i, ApiPath)
    ensures MockBaseDomain(site + ApiPath) == site
  {
    Strings.RemoveAllSuffix(site, ApiPath);
  }

  /**
   * A configured URL whose first occurrence of the API path is followed by
   * `rest` loses that occurrence and every later one: `https://site/wp-json/wp/v2/posts`
   * gives `https://site/posts`.
   */
  lemma MockBaseDomainDropsApiPath(site: string, rest: string)
    requires forall i :: 0 <= i < |site| ==> !Strings.MatchAt(site + ApiPath + rest, i, ApiPath)
    ensures MockBaseDomain(site + ApiPath + rest) == site + Strings.RemoveAll(rest, ApiPath)
  {
    Strings.RemoveAllFirst(site, ApiPath, rest);
  }

  /** A configured URL that does not hold the API path is used as it is. */
  lemma MockBaseDomainOfSiteUrl(baseUrl: string)
    requires baseUrl != ""
    requires forall i :: 0 <= i < |baseUrl| ==> !Strings.MatchAt(baseUrl, i, ApiPath)
    ensures MockBaseDomain(baseUrl) == baseUrl
  {
    Strings.RemoveAllAbsent(baseUrl, ApiPath);
  }

  /** `_create_mock_post`: the templated link of a mock post with id `mockId`. */
  function MockPostLink(baseUrl: string, status: string, mockId: int): (link: string)
    requires 1000 <= mockId <= 9999
    ensures var base := MockBaseDomain(baseUrl);
      && |base| <= |link| && link[..|base|] == base
      && (status == "draft" ==> |link| == |base| + |DraftQuery| + 4 + |PreviewFlag|
                                && link[|link| - |PreviewFlag|..] == PreviewFlag)
      && (status != "draft" ==> |link| == |base| + 6 + 4 + 1 && link[|link| - 1] == '/')
  {
    Strings.FourDigits(mockId);
    var base := MockBaseDomain(baseUrl);
    if status == "draft" then base + DraftQuery + Strings.Decimal(mockId) + PreviewFlag
    else base + "/post-" + Strings.Decimal(mockId) + "/"
  }

  /**
   * A mock draft link is the site address, "/?p=", four digits that read back
   * as the id, and "&preview=true".
   */
  lemma MockDraftLinkShape(baseUrl: string, mockId: int)
    requires 1000 <= mockId <= 9999
    ensures var link, base := MockPostLink(baseUrl, "draft", mockId), MockBaseDomain(baseUrl);
      && |link| == |base| + |DraftQuery| + 4 + |PreviewFlag|
      && link[..|base|] == base
      && link[|base|..|base| + |DraftQuery|] == DraftQuery
      && Strings.AllDigits(link[|base| + |DraftQuery|..|base| + |DraftQuery| + 4])
      && Strings.ParseDecimal(link[|base| + |DraftQuery|..|base| + |DraftQuery| + 4]) == mockId
      && link[|link| - |PreviewFlag|..] == PreviewFlag
  {
    var base, digits := MockBaseDomain(baseUrl), Strings.Decimal(mockId);
    Strings.FourDigits(mockId);
    Strings.DecimalRoundTrip(mockId);
    var link := MockPostLink(baseUrl, "draft", mockId);
    assert link == base + DraftQuery + digits + PreviewFlag;
    assert link[|base| + |DraftQuery|..|base| + |DraftQuery| + 4] == digits;
  }

  /**
   * A mock link of any other status is the site address, "/post-", four
   * digits that read back as the id, and "/".
   */
  lemma MockPublishLinkShape(baseUrl: string, status: string, mockId: int)
    requires 1000 <= mockId <= 9999
    requires status != "draft"
    ensures var link, base := MockPostLink(baseUrl, status, mockId), MockBaseDomain(baseUrl);
      && |link| == |base| + 6 + 4 + 1
      && link[..|base|] == base
      && link[|base|..|base| + 6] == "/post-"
      && Strings.AllDigits(link[|base| + 6..|base| + 10])
      && Strings.ParseDecimal(link[|base| + 6..|base| + 10]) == mockId
      && link[|link| - 1] == '/'
  {
    var base, digits := MockBaseDomain(baseUrl), Strings.Decimal(mockId);
    Strings.FourDigits(mockId);
    Strings.DecimalRoundTrip(mockId);
    var link := MockPostLink(baseUrl, status, mockId);
    assert link == base + "/post-" + digits + "/";
    assert link[|base| + 6..|base| + 10] == digits;
  }

  /** The link returned for a post the server created: drafts get the preview flag. */
  function RealPostLink(status: string, post: CreatedPost): string {
    var link := post.link.GetOr("");
    if status == "draft" then link + "?preview=true" else link
  }

  /**
   * The link a create operation returns: the server's link when the real API
   * is in use and created the post, the mock link of the same status otherwise.
   */
  function CreateLink(useRealApi: bool, baseUrl: string, status: string,
                      outcome: Http.Outcome<CreatedPost>, mockId: int): (link: string)
    requires 1000 <= mockId <= 9999
    ensures !(useRealApi && Http.IsCreated(outcome)) ==> link == MockPostLink(baseUrl, status, mockId)
    ensures useRealApi && Http.IsCreated(outcome) && status == "draft" ==>
      link == outcome.body.link.GetOr("") + "?preview=true"
    ensures useRealApi && Http.IsCreated(outcome) && status != "draft" ==>
      link == outcome.body.link.GetOr("")
  {
    if useRealApi && Http.IsCreated(outcome) then RealPostLink(status, outcome.body)
    else MockPostLink(baseUrl, status, mockId)
  }

  /** The request `_create_real_post` sends. */
  function PostRequest(baseUrl: string, title: string, content: string, excerpt: string, status: string): (r: Http.HttpRequest)
    ensures r.verb == Http.Post && r.url == baseUrl + "/posts"
    ensures r.fields.Keys == {"title", "content", "excerpt", "status", "format"}
    ensures r.fields["title"] == Http.Str(title) && r.fields["content"] == Http.Str(content)
    ensures r.fields["excerpt"] == Http.Str(ExcerptSent(excerpt, content))
    ensures r.fields["status"] == Http.Str(status) && r.fields["format"] == Http.Str("standard")
  {
    Http.HttpRequest(Http.Post, baseUrl + "/posts", map[
      "title" := Http.Str(title),
      "content" := Http.Str(content),
      "excerpt" := Http.Str(ExcerptSent(excerpt, content)),
      "status" := Http.Str(status),
      "format" := Http.Str("standard")])
  }

  /** A string argument that Python treats as true: present and non-empty. */
  predicate Truthy(s: Option<string>) {
    s.Some? && s.value != ""
  }

  /** `Content-Disposition` header value of a media upload. */
  function Disposition(filePath: string): (r: string)
    ensures |r| >= |DispositionPrefix| + 1
    ensures r[..|DispositionPrefix|] == DispositionPrefix && r[|r| - 1] == '"'
    ensures var name := r[|DispositionPrefix|..|r| - 1];
      && '/' !in name
      && |name| <= |filePath| && name == filePath[|filePath| - |name|..]
      && (|name| < |filePath| ==> filePath[|filePath| - |name| - 1] == '/')
  {
    var name := Strings.LastSegment(filePath, '/');
    var r := DispositionPrefix + name + "\"";
    assert r[|DispositionPrefix|..|r| - 1] == name;
    r
  }

  const DispositionPrefix := "attachment; filename=\""

  class WordPressPublisher {
    const baseUrl: string
    var auth: Option<BasicAuth>
    var useRealApi: bool
    /** The connection probe the constructor sent, if it sent one. */
    var probeSent: Option<Http.HttpRequest>

    /** The real API is only ever used with credentials. */
    ghost predicate Valid()
      reads this
    {
      useRealApi ==> auth.Some?
    }

    /**
     * `__init__`: the probe is only made, and `auth` only set, when WordPress
     * is configured and demo mode is off; the real API is used exactly when
     * that probe answered 200.
     */
    constructor (cfg: Config.Settings, probe: Http.Outcome<()>)
      ensures Valid()
      ensures baseUrl == cfg.wpUrl
      ensures useRealApi <==> Config.IsWordPressConfigured(cfg) && !cfg.demoMode && Http.HasStatus(probe, 200)
      ensures useRealApi == ChooseRealApi(cfg, probe)
      ensures auth == if Config.IsWordPressConfigured(cfg) && !cfg.demoMode
                      then Some(BasicAuth(cfg.wpUser, cfg.wpAppPassword)) else None
      ensures probeSent == ProbeRequest(cfg)
    {
      baseUrl := cfg.wpUrl;
      auth := None;
      useRealApi := false;
      probeSent := None;
      new;
      if Config.IsWordPressConfigured(cfg) && !cfg.demoMode {
        auth := Some(BasicAuth(cfg.wpUser, cfg.wpAppPassword));
        var request := VerifyConnection(probe);
        probeSent := Some(request);
      }
    }

    /** `_verify_connection`: a 200 answer turns the real API on; anything else leaves the flag alone. */
    method VerifyConnection(probe: Http.Outcome<()>) returns (sent: Http.HttpRequest)
      requires auth.Some?
      modifies this`useRealApi
      ensures Valid()
      ensures sent == Http.HttpRequest(Http.Get, baseUrl + "/users/me", map[])
      ensures useRealApi == (old(useRealApi) || Http.HasStatus(probe, 200))
    {
      sent := Http.HttpRequest(Http.Get, baseUrl + "/users/me", map[]);
      if Http.HasStatus(probe, 200) {
        useRealApi := true;
      }
    }

    /** `create_draft`: a create with status "draft". */
    method CreateDraft(title: string, content: string, excerpt: string,
                       outcome: Http.Outcome<CreatedPost>, mockId: int)
      returns (link: string, sent: Option<Http.HttpRequest>)
      requires 1000 <= mockId <= 9999
      ensures sent == if useRealApi then Some(PostRequest(baseUrl, title, content, excerpt, "draft")) else None
      ensures link == CreateLink(useRealApi, baseUrl, "draft", outcome, mockId)
    {
      if useRealApi {
        var request;
        link, request := CreateRealPost(title, content, excerpt, "draft", outcome, mockId);
        sent := Some(request);
      } else {
        link := MockPostLink(baseUrl, "draft", mockId);
        sent := None;
      }
    }

    /** `publish_post`: a create with status "publish". */
    method PublishPost(title: string, content: string, excerpt: string,
                       outcome: Http.Outcome<CreatedPost>, mockId: int)
      returns (link: string, sent: Option<Http.HttpRequest>)
      requires 1000 <= mockId <= 9999
      ensures sent == if useRealApi then Some(PostRequest(baseUrl, title, content, excerpt, "publish")) else None
      ensures link == CreateLink(useRealApi, baseUrl, "publish", outcome, mockId)
    {
      if useRealApi {
        var request;
        link, request := CreateRealPost(title, content, excerpt, "publish", outcome, mockId);
        sent := Some(request);
      } else {
        link := MockPostLink(baseUrl, "publish", mockId);
        sent := None;
      }
    }

    /** `_create_real_post`: a status other than 200 or 201, or an exception, yields the mock post. */
    method CreateRealPost(title: string, content: string, excerpt: string, status: string,
                          outcome: Http.Outcome<CreatedPost>, mockId: int)
      returns (link: string, sent: Http.HttpRequest)
      requires 1000 <= mockId <= 9999
      ensures sent == PostRequest(baseUrl, title, content, excerpt, status)
      ensures link == CreateLink(true, baseUrl, status, outcome, mockId)
    {
      sent := PostRequest(baseUrl, title, content, excerpt, status);
      match outcome
      case Response(code, post) =>
        if code == 200 || code == 201 {
          link := RealPostLink(status, post);
        } else {
          link := MockPostLink(baseUrl, status, mockId);
        }
      case Raised(_) =>
        link := MockPostLink(baseUrl, status, mockId);
    }

    /**
     * `update_post`: the payload holds exactly the truthy fields; the real API
     * reports success iff it answered 200, with no mock fallback; in demo mode
     * the update always succeeds.
     */
    method UpdatePost(postId: int, title: Option<string>, content: Option<string>, status: Option<string>,
                      outcome: Http.Outcome<()>)
      returns (ok: bool, sent: Option<Http.HttpRequest>)
      ensures !useRealApi ==> ok && sent == None
      ensures useRealApi ==> ok == Http.HasStatus(outcome, 200)
      ensures useRealApi ==> sent.Some? && sent.value.verb == Http.Patch
                             && sent.value.url == baseUrl + "/posts/" + Strings.IntToString(postId)
      ensures sent.Some? ==> var fields := sent.value.fields;
        && ("title" in fields <==> Truthy(title))
        && ("content" in fields <==> Truthy(content))
        && ("status" in fields <==> Truthy(status))
        && fields.Keys <= {"title", "content", "status"}
        && (Truthy(title) ==> fields["title"] == Http.Str(title.value))
        && (Truthy(content) ==> fields["content"] == Http.Str(content.value))
        && (Truthy(status) ==> fields["status"] == Http.Str(status.value))
    {
      if useRealApi {
        var payload: map<string, Http.Value> := map[];
        if Truthy(title) {
          payload := payload["title" := Http.Str(title.value)];
        }
        if Truthy(content) {
          payload := payload["content" := Http.Str(content.value)];
        }
        if Truthy(status) {
          payload := payload["status" := Http.Str(status.value)];
        }
        sent := Some(Http.HttpRequest(Http.Patch, baseUrl + "/posts/" + Strings.IntToString(postId), payload));
        ok := Http.HasStatus(outcome, 200);
      } else {
        ok, sent := true, None;
      }
    }

    /**
     * `get_posts`: the status filter is sent only when it is not "any"; the
     * server's list is returned only on a 200 answer, the mock list otherwise.
     */
    method GetPosts(status: string, perPage: int, outcome: Http.Outcome<seq<PostSummary>>)
      returns (posts: seq<PostSummary>, sent: Option<Http.HttpRequest>)
      ensures sent.Some? <==> useRealApi
      ensures sent.Some? ==> sent.value.verb == Http.Get && sent.value.url == baseUrl + "/posts"
      ensures sent.Some? ==> var params := sent.value.fields;
        && "per_page" in params && params["per_page"] == Http.Int(perPage)
        && ("status" in params <==> status != "any")
        && (status != "any" ==> params["status"] == Http.Str(status))
        && params.Keys <= {"per_page", "status"}
      ensures posts == if useRealApi && Http.HasStatus(outcome, 200) then outcome.body else MockPosts
    {
      posts := MockPosts;
      sent := None;
      if useRealApi {
        var params: map<string, Http.Value> := map["per_page" := Http.Int(perPage)];
        if status != "any" {
          params := params["status" := Http.Str(status)];
        }
        sent := Some(Http.HttpRequest(Http.Get, baseUrl + "/posts", params));
        if Http.HasStatus(outcome, 200) {
          posts := outcome.body;
        }
      }
    }

    /**
     * `upload_media`: the file is sent under its last path segment; the
     * server's id and URL are returned only when the file opened, the answer
     * was 200 or 201 and both fields were present, the mock media otherwise.
     */
    method UploadMedia(filePath: string, title: string, fileOpens: bool,
                       outcome: Http.Outcome<MediaBody>, mockMediaId: int)
      returns (media: Media, sent: Option<Http.HttpRequest>)
      requires 100 <= mockMediaId <= 999
      ensures sent.Some? <==> useRealApi && fileOpens
      ensures sent.Some? ==> sent.value == Http.HttpRequest(Http.Post, baseUrl + "/media",
                                map["Content-Disposition" := Http.Str(Disposition(filePath))])
      ensures var served := useRealApi && fileOpens && Http.IsCreated(outcome)
                            && outcome.body.id.Some? && outcome.body.sourceUrl.Some?;
        media == if served then Media(outcome.body.id.value, outcome.body.sourceUrl.value)
                 else Media(mockMediaId, MockMediaUrl)
      ensures 100 <= media.id <= 999 || (useRealApi && Http.IsCreated(outcome))
    {
      media := Media(mockMediaId, MockMediaUrl);
      sent := None;
      if useRealApi && fileOpens {
        sent := Some(Http.HttpRequest(Http.Post, baseUrl + "/media",
                     map["Content-Disposition" := Http.Str(Disposition(filePath))]));
        if Http.IsCreated(outcome) && outcome.body.id.Some? && outcome.body.sourceUrl.Some? {
          media := Media(outcome.body.id.value, outcome.body.sourceUrl.value);
        }
      }
    }
  }

  /**
   * A publisher whose probe failed keeps using the mock for its whole life:
   * two drafts in a row both get mock links, and no request is sent.
   */
  method ProbeFailureScenario(cfg: Config.Settings, code: int,
                              first: Http.Outcome<CreatedPost>, second: Http.Outcome<CreatedPost>)
    requires Config.IsWordPressConfigured(cfg) && !cfg.demoMode && code != 200
  {
    var wp := new WordPressPublisher(cfg, Http.Response(code, ()));
    assert wp.probeSent == Some(Http.HttpRequest(Http.Get, cfg.wpUrl + "/users/me", map[]));
    var link1, sent1 := wp.CreateDraft("T", "B", "", first, 1234);
    var link2, sent2 := wp.CreateDraft("T", "B", "", second, 5678);
    assert sent1 == None && sent2 == None;
    assert link1 == MockPostLink(cfg.wpUrl, "draft", 1234);
    assert link2 == MockPostLink(cfg.wpUrl, "draft", 5678);
  }
}
