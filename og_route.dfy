/**
 * The link-preview route (`POST /api/og`): validates the posted URL, fetches
 * the page, and fills an Open Graph record field by field through fixed
 * fallback chains, inlining the preview image as a base64 data URL when it can.
 */
module OgRoute {
  import opened Wrappers
  import opened Text
  import opened Urls
  import opened DataUrls

  /** The tag shapes the route looks for; each captures one attribute value. */
  datatype Pattern =
    | OgTitle | TitleElement
    | OgDescription | MetaDescription
    | OgImage
    | OgSiteName
    | OgUrl | CanonicalLink

  /** The case-insensitive regular expression behind each pattern. */
  function PatternSource(p: Pattern): string {
    match p
    case OgTitle => "<meta\\s+property=\"og:title\"\\s+content=\"([^\"]*)\"[^>]*>"
    case TitleElement => "<title[^>]*>([^<]*)<\\/title>"
    case OgDescription => "<meta\\s+property=\"og:description\"\\s+content=\"([^\"]*)\"[^>]*>"
    case MetaDescription => "<meta\\s+name=\"description\"\\s+content=\"([^\"]*)\"[^>]*>"
    case OgImage => "<meta\\s+property=\"og:image\"\\s+content=\"([^\"]*)\"[^>]*>"
    case OgSiteName => "<meta\\s+property=\"og:site_name\"\\s+content=\"([^\"]*)\"[^>]*>"
    case OgUrl => "<meta\\s+property=\"og:url\"\\s+content=\"([^\"]*)\"[^>]*>"
    case CanonicalLink => "<link\\s+rel=\"canonical\"\\s+href=\"([^\"]*)\"[^>]*>"
  }

  datatype OpenGraphData = OpenGraphData(
    title: Option<string>,
    description: Option<string>,
    image: Option<string>,
    siteName: Option<string>,
    url: Option<string>)

  type Byte = b: int | 0 <= b < 256

  /** The `url` member of the posted JSON: missing, a string, or some other value (with its truthiness). */
  datatype JsValue = Undefined | Str(s: string) | OtherValue(truthy: bool)

  /**
   * The request body: `InvalidJson` when `request.json()` rejects or yields
   * `null` (destructuring then throws), otherwise the value of its `url`
   * member (`Undefined` for any other primitive, which has no such member).
   */
  datatype OgRequest = InvalidJson | JsonBody(url: JsValue)

  /** The page fetch: a response (`text` None when reading it fails) or a rejection. */
  datatype PageResult = PageResponse(status: int, text: Option<string>) | PageThrew

  /** The image fetch: a response (its content-type header and its bytes, None when reading them fails) or a rejection. */
  datatype ImageResult =
    | ImageResponse(status: int, contentType: Option<string>, bytes: Option<seq<Byte>>)
    | ImageThrew

  /**
   * What the route calls and cannot see: the URL parser, the two fetches, the
   * regular-expression engine (`html.match(pattern)`, giving capture group 1 of
   * the first match) and `Buffer.from(bytes).toString("base64")`.
   */
  datatype OgEnv = OgEnv(
    url: UrlApi,
    fetchPage: (string, map<string, string>) -> PageResult,
    matchFirst: (string, Pattern) -> Option<string>,
    fetchImage: string -> ImageResult,
    base64: seq<Byte> -> string)

  /** `NextResponse.json(ogData)`, or `NextResponse.json({ error }, { status })`. */
  datatype OgResponse = Preview(data: OpenGraphData) | Failure(status: int, error: string)

  const UrlRequired := "URL is required"
  const InvalidUrl := "Invalid URL"
  const FetchFailed := "Failed to fetch website data"
  const UserAgentHeaders := map["User-Agent" := "Mozilla/5.0 (compatible; LinkPreviewBot/1.0)"]
  const DefaultImageType := "image/jpeg"

  /** `response.ok`. */
  predicate Ok(status: int) {
    200 <= status <= 299
  }

  predicate Truthy(v: JsValue) {
    match v
    case Undefined => false
    case Str(s) => s != ""
    case OtherValue(t) => t
  }

  /** `first || second` on two match results: the first tier wins whenever its pattern matched, even with empty content. */
  function Either(first: Option<string>, second: Option<string>): Option<string> {
    if first.Some? then first else second
  }

  function TrimmedMatch(m: Option<string>): (r: Option<string>)
    ensures r.Some? ==> IsTrimmed(r.value)
  {
    match m
    case None => None
    case Some(s) => Some(Trim(s))
  }

  /**
   * Makes the og:image value absolute against the page URL: "//x" takes the
   * page's scheme, "/x" its origin, any other value not starting with "http"
   * is taken relative to the origin root, and the rest is kept. The value is
   * only ever prefixed.
   */
  function ResolveImageUrl(raw: string, page: Url): (r: string)
    ensures EndsWith(r, raw)
    ensures StartsWith(raw, "//") ==> r == page.protocol + raw
    ensures !StartsWith(raw, "//") && StartsWith(raw, "/") ==> r == page.origin + raw
    ensures !StartsWith(raw, "/") && !StartsWith(raw, "http") ==> r == page.origin + "/" + raw
    ensures StartsWith(raw, "http") ==> r == raw
  {
    if StartsWith(raw, "//") then
      assert raw[0] == '/' && !StartsWith(raw, "http");
      assert (page.protocol + raw)[|page.protocol|..] == raw;
      page.protocol + raw
    else if StartsWith(raw, "/") then
      assert raw[0] == '/' && !StartsWith(raw, "http");
      assert (page.origin + raw)[|page.origin|..] == raw;
      page.origin + raw
    else if !StartsWith(raw, "http") then
      assert (page.origin + "/" + raw)[|page.origin| + 1..] == raw;
      page.origin + "/" + raw
    else raw
  }

  /** Against an http(s) page the resolved image URL is absolute: it starts with "http". */
  lemma ResolvedImageIsAbsolute(raw: string, page: Url)
    requires StartsWith(page.protocol, "http") && StartsWith(page.origin, "http")
    ensures StartsWith(ResolveImageUrl(raw, page), "http")
  {
    if StartsWith(raw, "//") {
      StartsWithAppend(page.protocol, raw, "http");
    } else if StartsWith(raw, "/") {
      StartsWithAppend(page.origin, raw, "http");
    } else if !StartsWith(raw, "http") {
      StartsWithAppend(page.origin, "/", "http");
      StartsWithAppend(page.origin + "/", raw, "http");
    }
  }

  /** `headers.get("content-type") || "image/jpeg"`: never empty. */
  function ImageType(contentType: Option<string>): (r: string)
    ensures r != ""
    ensures contentType.Some? && contentType.value != "" ==> r == contentType.value
    ensures contentType.None? || contentType.value == "" ==> r == DefaultImageType
  {
    if contentType.Some? && contentType.value != "" then contentType.value else DefaultImageType
  }

  /**
   * The `image` field once the og:image tag was found and resolved: a data URL
   * when the image fetch answers ok, the resolved URL when the fetch (or the
   * read) throws, and absent when it answers with a non-ok status.
   */
  function ImageField(result: ImageResult, resolved: string, base64: seq<Byte> -> string): (r: Option<string>)
    ensures r.None? <==> result.ImageResponse? && !Ok(result.status)
    ensures result.ImageThrew? ==> r == Some(resolved)
    ensures result.ImageResponse? && Ok(result.status) && result.bytes.Some? ==>
      r == Some(DataUrl(ImageType(result.contentType), base64(result.bytes.value)))
    ensures result.ImageResponse? && Ok(result.status) && result.bytes.None? ==> r == Some(resolved)
  {
    match result
    case ImageThrew => Some(resolved)
    case ImageResponse(status, contentType, bytes) =>
      if !Ok(status) then None
      else match bytes
        case None => Some(resolved)
        case Some(b) => Some(DataUrl(ImageType(contentType), base64(b)))
  }

  /**
   * `html.match(first) || html.match(second)`, trimmed: the first tier
   * whenever its pattern matched at all (even with empty content), else the
   * second tier, else absent.
   */
  function TieredMatch(html: string, env: OgEnv, first: Pattern, second: Pattern): (r: Option<string>)
    ensures r.Some? <==> env.matchFirst(html, first).Some? || env.matchFirst(html, second).Some?
    ensures env.matchFirst(html, first).Some? ==> r == Some(Trim(env.matchFirst(html, first).value))
    ensures env.matchFirst(html, first).None? && env.matchFirst(html, second).Some? ==>
      r == Some(Trim(env.matchFirst(html, second).value))
    ensures r.Some? ==> IsTrimmed(r.value)
  {
    TrimmedMatch(Either(env.matchFirst(html, first), env.matchFirst(html, second)))
  }

  /** The resolved image URL for the og:image capture `raw`. */
  function ImageUrl(raw: string, page: Url): string {
    ResolveImageUrl(Trim(raw), page)
  }

  /**
   * The `image` field: absent without an og:image tag; otherwise the outcome
   * of fetching the trimmed, resolved tag value.
   */
  function ImageOf(html: string, page: Url, env: OgEnv): (r: Option<string>)
    ensures env.matchFirst(html, OgImage).None? ==> r.None?
    ensures env.matchFirst(html, OgImage).Some? ==>
      var resolved := ImageUrl(env.matchFirst(html, OgImage).value, page);
      r == ImageField(env.fetchImage(resolved), resolved, env.base64)
    ensures r.Some? ==> env.matchFirst(html, OgImage).Some?
  {
    match env.matchFirst(html, OgImage)
    case None => None
    case Some(raw) =>
      var resolved := ImageUrl(raw, page);
      ImageField(env.fetchImage(resolved), resolved, env.base64)
  }

  /**
   * The record the route returns for a fetched page: title and description
   * through their two tiers, the image from og:image only, and a site name and
   * url that are always present: the trimmed og value, else (for the url) the
   * trimmed canonical link, else the page's host name or its serialised URL.
   */
  function PreviewOf(html: string, page: Url, env: OgEnv): (og: OpenGraphData)
    ensures og.title == TieredMatch(html, env, OgTitle, TitleElement)
    ensures og.description == TieredMatch(html, env, OgDescription, MetaDescription)
    ensures og.image == ImageOf(html, page, env)
    ensures og.siteName == Some(
      if env.matchFirst(html, OgSiteName).Some? then Trim(env.matchFirst(html, OgSiteName).value)
      else page.hostname)
    ensures og.url == Some(
      if env.matchFirst(html, OgUrl).Some? then Trim(env.matchFirst(html, OgUrl).value)
      else if env.matchFirst(html, CanonicalLink).Some? then Trim(env.matchFirst(html, CanonicalLink).value)
      else env.url.serialize(page))
  {
    OpenGraphData(
      TieredMatch(html, env, OgTitle, TitleElement),
      TieredMatch(html, env, OgDescription, MetaDescription),
      ImageOf(html, page, env),
      Some(match env.matchFirst(html, OgSiteName)
        case Some(name) => Trim(name)
        case None => page.hostname),
      Some(match Either(env.matchFirst(html, OgUrl), env.matchFirst(html, CanonicalLink))
        case Some(u) => Trim(u)
        case None => env.url.serialize(page)))
  }

  /** The image section of the handler: rewrites `imageUrl`, then fetches and inlines the image. */
  method ExtractImage(html: string, page: Url, env: OgEnv) returns (image: Option<string>)
    ensures image == ImageOf(html, page, env)
  {
    image := None;
    var imageMatch := env.matchFirst(html, OgImage);
    if imageMatch.Some? {
      var imageUrl := Trim(imageMatch.value);
      if StartsWith(imageUrl, "//") {
        imageUrl := page.protocol + imageUrl;
      } else if StartsWith(imageUrl, "/") {
        imageUrl := page.origin + imageUrl;
      } else if !StartsWith(imageUrl, "http") {
        imageUrl := page.origin + "/" + imageUrl;
      }
      assert imageUrl == ImageUrl(imageMatch.value, page);
      var imageResponse := env.fetchImage(imageUrl);
      match imageResponse {
        case ImageThrew =>
          image := Some(imageUrl);
        case ImageResponse(status, contentType, bytes) =>
          if Ok(status) {
            if bytes.Some? {
              var base64 := env.base64(bytes.value);
              image := Some(DataUrl(ImageType(contentType), base64));
            } else {
              image := Some(imageUrl);
            }
          }
      }
    }
  }

  /** Fills `ogData` field by field, rewriting `imageUrl` through the resolution chain. */
  method ExtractOpenGraph(html: string, page: Url, env: OgEnv) returns (ogData: OpenGraphData)
    ensures ogData == PreviewOf(html, page, env)
  {
    ogData := OpenGraphData(None, None, None, None, None);

    var titleMatch := env.matchFirst(html, OgTitle);
    if titleMatch.None? {
      titleMatch := env.matchFirst(html, TitleElement);
    }
    if titleMatch.Some? {
      ogData := ogData.(title := Some(Trim(titleMatch.value)));
    }
    assert ogData.title == TieredMatch(html, env, OgTitle, TitleElement);

    var descMatch := env.matchFirst(html, OgDescription);
    if descMatch.None? {
      descMatch := env.matchFirst(html, MetaDescription);
    }
    if descMatch.Some? {
      ogData := ogData.(description := Some(Trim(descMatch.value)));
    }
    assert ogData.description == TieredMatch(html, env, OgDescription, MetaDescription);

    var image := ExtractImage(html, page, env);
    if image.Some? {
      ogData := ogData.(image := image);
    }

    var siteNameMatch := env.matchFirst(html, OgSiteName);
    if siteNameMatch.Some? {
      ogData := ogData.(siteName := Some(Trim(siteNameMatch.value)));
    } else {
      ogData := ogData.(siteName := Some(page.hostname));
    }

    var urlMatch := env.matchFirst(html, OgUrl);
    if urlMatch.None? {
      urlMatch := env.matchFirst(html, CanonicalLink);
    }
    if urlMatch.Some? {
      ogData := ogData.(url := Some(Trim(urlMatch.value)));
    } else {
      ogData := ogData.(url := Some(env.url.serialize(page)));
    }
  }

  /**
   * The route's answer to a request. A missing or empty `url` is a 400 "URL is
   * required"; a truthy `url` that is not a string (it has no `startsWith`, and
   * the validation's catch takes the error) or that the parser rejects (after
   * "https://" is put in front of anything not starting with "http") is a 400
   * "Invalid URL"; a body that is not JSON, a page fetch that throws, answers
   * with a non-ok status or cannot be read are all a 500 "Failed to fetch
   * website data" with no metadata. Otherwise it is the page's preview record.
   */
  function Handle(req: OgRequest, env: OgEnv): (resp: OgResponse)
    ensures resp.Failure? ==>
      resp == Failure(400, UrlRequired) || resp == Failure(400, InvalidUrl) || resp == Failure(500, FetchFailed)
    ensures resp == Failure(400, UrlRequired) <==> req.JsonBody? && !Truthy(req.url)
    ensures resp == Failure(400, InvalidUrl) <==>
      req.JsonBody? && Truthy(req.url) && (!req.url.Str? || env.url.parse(WithDefaultScheme(req.url.s)).None?)
    ensures resp.Failure? && resp.status == 500 ==> resp.error == FetchFailed
    ensures resp.Preview? ==>
      req.JsonBody? && req.url.Str? && env.url.parse(WithDefaultScheme(req.url.s)).Some? &&
      var page := env.url.parse(WithDefaultScheme(req.url.s)).value;
      var fetched := env.fetchPage(env.url.serialize(page), UserAgentHeaders);
      fetched.PageResponse? && Ok(fetched.status) && fetched.text.Some? &&
      resp.data == PreviewOf(fetched.text.value, page, env)
    ensures resp.Preview? <==>
      req.JsonBody? && Truthy(req.url) && req.url.Str? && env.url.parse(WithDefaultScheme(req.url.s)).Some? &&
      var fetched := env.fetchPage(env.url.serialize(env.url.parse(WithDefaultScheme(req.url.s)).value), UserAgentHeaders);
      fetched.PageResponse? && Ok(fetched.status) && fetched.text.Some?
    ensures resp.Preview? ==> resp.data.siteName.Some? && resp.data.url.Some?
  {
    match req
    case InvalidJson => Failure(500, FetchFailed)
    case JsonBody(url) =>
      if !Truthy(url) then Failure(400, UrlRequired)
      else if !url.Str? then Failure(400, InvalidUrl)
      else
        match env.url.parse(WithDefaultScheme(url.s))
        case None => Failure(400, InvalidUrl)
        case Some(page) =>
          match env.fetchPage(env.url.serialize(page), UserAgentHeaders)
          case PageThrew => Failure(500, FetchFailed)
          case PageResponse(status, text) =>
            if !Ok(status) || text.None? then Failure(500, FetchFailed)
            else Preview(PreviewOf(text.value, page, env))
  }

  /** `POST(request)`: validation with early returns, the page fetch, then the extraction. */
  method Post(req: OgRequest, env: OgEnv) returns (resp: OgResponse)
    ensures resp == Handle(req, env)
  {
    if req.InvalidJson? {
      return Failure(500, FetchFailed);
    }
    var url := req.url;
    if !Truthy(url) {
      return Failure(400, UrlRequired);
    }
    if !url.Str? {
      // `url.startsWith` throws inside the validation's try.
      return Failure(400, InvalidUrl);
    }
    var validUrl := env.url.parse(WithDefaultScheme(url.s));
    if validUrl.None? {
      return Failure(400, InvalidUrl);
    }
    var response := env.fetchPage(env.url.serialize(validUrl.value), UserAgentHeaders);
    if response.PageThrew? || !Ok(response.status) || response.text.None? {
      return Failure(500, FetchFailed);
    }
    var ogData := ExtractOpenGraph(response.text.value, validUrl.value, env);
    resp := Preview(ogData);
  }
}
