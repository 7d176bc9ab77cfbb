/**
 * The server action behind the HTTP client: it assembles the outgoing request
 * from the editor's rows, sends it once, and turns whatever comes back (or the
 * failure) into an `HttpResponse`.
 */
module HttpAction {
  import opened Wrappers
  import opened Seqs
  import opened Records
  import opened SearchParams
  import opened Urls
  import opened HttpTypes

  /** A row takes part in the request only when it is enabled and its key is non-empty. */
  predicate Active(r: Row) {
    r.enabled && r.key != ""
  }

  function AsPair(r: Row): Pair {
    (r.key, r.value)
  }

  /** `rows.filter(r => r.enabled && r.key)`, as (key, value) pairs in row order. */
  function ActivePairs(rows: seq<Row>): seq<Pair> {
    Map(Filter(rows, Active), AsPair)
  }

  lemma ActivePairsSnoc(rows: seq<Row>, r: Row)
    ensures ActivePairs(rows + [r]) == ActivePairs(rows) + if Active(r) then [AsPair(r)] else []
  {
    FilterAppend(rows, [r], Active);
    MapAppend(Filter(rows, Active), Filter([r], Active), AsPair);
  }

  /** The active pairs are exactly the (key, value) of the enabled rows with a key. */
  lemma ActivePairsMembers(rows: seq<Row>, p: Pair)
    ensures p in ActivePairs(rows) <==> exists i :: 0 <= i < |rows| && Active(rows[i]) && AsPair(rows[i]) == p
  {
    var f := Filter(rows, Active);
    if p in ActivePairs(rows) {
      var j :| 0 <= j < |f| && ActivePairs(rows)[j] == p;
      FilterMembers(rows, Active, f[j]);
    }
    if i :| 0 <= i < |rows| && Active(rows[i]) && AsPair(rows[i]) == p {
      FilterMembers(rows, Active, rows[i]);
      var j :| 0 <= j < |f| && f[j] == rows[i];
      assert ActivePairs(rows)[j] == p;
    }
  }

  /**
   * The rows as a record: `rows.filter(active).reduce((acc, r) => ({...acc, [r.key]: r.value}), {})`.
   * The outgoing headers start as this record of the header rows; the query
   * parameters that are set are this record of the parameter rows.
   */
  function RowMap(rows: seq<Row>): map<string, string> {
    ToMap(ActivePairs(rows))
  }

  /** A key is in the record exactly when some enabled row with a non-empty key has it. */
  lemma RowMapKeys(rows: seq<Row>, k: string)
    ensures k in RowMap(rows) <==> exists i :: 0 <= i < |rows| && Active(rows[i]) && rows[i].key == k
  {
    var ps := ActivePairs(rows);
    if k in RowMap(rows) {
      var j :| 0 <= j < |ps| && ps[j].0 == k;
      ActivePairsMembers(rows, ps[j]);
    }
    if i :| 0 <= i < |rows| && Active(rows[i]) && rows[i].key == k {
      ActivePairsMembers(rows, AsPair(rows[i]));
      var j :| 0 <= j < |ps| && ps[j] == AsPair(rows[i]);
      assert ps[j].0 == k;
    }
  }

  /** A key maps to the value of the last enabled row that has it: later rows win. */
  lemma {:induction false} RowMapLastWins(rows: seq<Row>, i: nat)
    requires i < |rows| && Active(rows[i])
    requires forall j :: i < j < |rows| && Active(rows[j]) ==> rows[j].key != rows[i].key
    ensures rows[i].key in RowMap(rows) && RowMap(rows)[rows[i].key] == rows[i].value
  {
    var init, last := rows[..|rows| - 1], rows[|rows| - 1];
    assert rows == init + [last];
    ActivePairsSnoc(init, last);
    var ps := ActivePairs(init);
    if i == |rows| - 1 {
      assert ActivePairs(rows) == ps + [AsPair(last)];
      assert (ps + [AsPair(last)])[..|ps|] == ps;
    } else {
      RowMapLastWins(init, i);
      if Active(last) {
        ToMapOtherKeys(ps, [AsPair(last)], rows[i].key);
      } else {
        assert ActivePairs(rows) == ps;
      }
    }
  }

  /** No row is active exactly when there is nothing to apply. */
  lemma NoActiveRows(rows: seq<Row>)
    ensures ActivePairs(rows) == [] <==> forall i :: 0 <= i < |rows| ==> !Active(rows[i])
  {
    if ActivePairs(rows) != [] {
      ActivePairsMembers(rows, ActivePairs(rows)[0]);
    }
    if i :| 0 <= i < |rows| && Active(rows[i]) {
      ActivePairsMembers(rows, AsPair(rows[i]));
    }
  }

  /**
   * The URL with `searchParams.set` applied for every active parameter row:
   * each parameter key then occurs exactly once in the query, with the value of
   * its last active row, and every other key keeps its values; the pairs of the
   * other keys stay in their relative order. The URL's query text is the new
   * list re-encoded (once a parameter was set), and nothing else changes.
   */
  function WithParams(u: Url, params: seq<Param>, encodeQuery: seq<Pair> -> string): (v: Url)
    ensures v == u.(query := v.query, rawQuery := v.rawQuery)
    ensures ActivePairs(params) != [] ==> v.rawQuery == Some(encodeQuery(v.query))
    ensures ActivePairs(params) == [] ==> v == u
    ensures forall name :: (Occurrences(v.query, name) ==
      if name in RowMap(params) then [RowMap(params)[name]] else Occurrences(u.query, name))
    ensures Untouched(v.query, RowMap(params).Keys) == Untouched(u.query, RowMap(params).Keys)
  {
    var query := SetAll(u.query, ActivePairs(params));
    var v := if ActivePairs(params) == [] then u else u.(query := query, rawQuery := Some(encodeQuery(query)));
    SetAllKeepsOthers(u.query, ActivePairs(params), RowMap(params).Keys);
    assert forall name :: (Occurrences(v.query, name) ==
      if name in RowMap(params) then [RowMap(params)[name]] else Occurrences(u.query, name)) by {
      forall name ensures Occurrences(v.query, name) ==
        (if name in RowMap(params) then [RowMap(params)[name]] else Occurrences(u.query, name)) {
        SetAllSpec(u.query, ActivePairs(params), name);
      }
    }
    v
  }

  /** `buildUrlWithParams(url, params)`, as a value. */
  function UrlWithParams(url: string, params: seq<Param>, api: UrlApi): string {
    if ActivePairs(params) == [] then url
    else
      match api.parse(WithDefaultScheme(url))
      case None => url
      case Some(u) => api.serialize(WithParams(u, params, api.encodeQuery))
  }

  /**
   * With no enabled, keyed parameter row the URL is returned untouched (no
   * scheme is added); when the parser rejects the URL it is returned untouched
   * too; otherwise it is the serialisation of the parsed URL, with a scheme
   * added only if it did not start with "http", and the parameters set.
   */
  lemma UrlWithParamsCases(url: string, params: seq<Param>, api: UrlApi)
    ensures (forall i :: 0 <= i < |params| ==> !Active(params[i])) ==> UrlWithParams(url, params, api) == url
    ensures api.parse(WithDefaultScheme(url)).None? ==> UrlWithParams(url, params, api) == url
    ensures (exists i :: 0 <= i < |params| && Active(params[i])) && api.parse(WithDefaultScheme(url)).Some? ==>
      UrlWithParams(url, params, api) == api.serialize(WithParams(api.parse(WithDefaultScheme(url)).value, params, api.encodeQuery))
  {
    NoActiveRows(params);
  }

  /** `buildUrlWithParams`: sets the parameters on the parsed URL one by one. */
  method BuildUrlWithParams(url: string, params: seq<Param>, api: UrlApi) returns (finalUrl: string)
    ensures finalUrl == UrlWithParams(url, params, api)
  {
    var enabledParams := ActivePairs(params);
    if |enabledParams| == 0 {
      return url;
    }
    var parsed := api.parse(WithDefaultScheme(url));
    if parsed.None? {
      return url;
    }
    var urlObject := parsed.value;
    var query := urlObject.query;
    for i := 0 to |enabledParams|
      invariant query == SetAll(urlObject.query, enabledParams[..i])
    {
      assert enabledParams[..i + 1][..i] == enabledParams[..i];
      query := Set(query, enabledParams[i].0, enabledParams[i].1);
    }
    assert enabledParams[..|enabledParams|] == enabledParams;
    // Every `set` writes the re-encoded list back into the URL's query; the
    // write after the last one is the one that remains.
    urlObject := urlObject.(query := query, rawQuery := Some(api.encodeQuery(query)));
    finalUrl := api.serialize(urlObject);
  }

  /** A `fetch` body: a string, a `FormData` or a `URLSearchParams`, each as its (key, value) list. */
  datatype Body = TextBody(text: string) | MultipartBody(fields: seq<Pair>) | UrlEncodedBody(fields: seq<Pair>)

  /** The `RequestInit` handed to `fetch`. */
  datatype RequestInit = RequestInit(
    httpMethod: string,
    headers: map<string, string>,
    body: Option<Body>,
    cache: string)

  const ContentType := "Content-Type"
  const JsonMediaType := "application/json"
  const FormMediaType := "application/x-www-form-urlencoded"
  const NoStore := "no-store"

  /** A body is attached only for a method other than GET and HEAD and a body type other than none. */
  predicate TakesBody(req: HttpRequest) {
    req.httpMethod != "GET" && req.httpMethod != "HEAD" && req.bodyType != NoBody
  }

  function AsRow(item: FormDataItem): Row {
    Row(item.key, item.value, item.enabled)
  }

  /** The form rows as plain rows: only key, value and the enabled flag matter. */
  function FormRows(items: seq<FormDataItem>): seq<Row> {
    Map(items, AsRow)
  }

  /** `headers` with `Content-Type: mediaType` added unless the exact key is already there. */
  function WithContentType(headers: map<string, string>, mediaType: string): map<string, string> {
    if ContentType in headers then headers else headers[ContentType := mediaType]
  }

  /**
   * The request options `sendRequestAction` builds. The header rows' record is
   * never overwritten: the only key that may be added is `Content-Type`, only
   * when absent, and only for a JSON body that is sent or a URL-encoded body.
   * GET, HEAD and body type none carry no body. JSON and raw bodies are the
   * text verbatim and are left out when empty; form bodies always go out and
   * hold exactly the active form rows, in order.
   */
  function RequestInitFor(req: HttpRequest): (init: RequestInit)
    ensures init.httpMethod == req.httpMethod && init.cache == NoStore
    ensures !TakesBody(req) ==> init.body == None && init.headers == RowMap(req.headers)
    ensures forall k :: k in RowMap(req.headers) ==> k in init.headers && init.headers[k] == RowMap(req.headers)[k]
    ensures forall k :: k in init.headers && k !in RowMap(req.headers) ==> k == ContentType
    ensures ContentType in init.headers && ContentType !in RowMap(req.headers) ==>
      TakesBody(req) &&
      ((req.bodyType == Json && req.jsonBody != "" && init.headers[ContentType] == JsonMediaType) ||
       (req.bodyType == UrlEncoded && init.headers[ContentType] == FormMediaType))
    ensures TakesBody(req) && req.bodyType == Json ==>
      init.body == (if req.jsonBody == "" then None else Some(TextBody(req.jsonBody))) &&
      (req.jsonBody != "" ==> ContentType in init.headers)
    ensures TakesBody(req) && req.bodyType == Raw ==>
      init.body == (if req.rawBody == "" then None else Some(TextBody(req.rawBody))) &&
      init.headers == RowMap(req.headers)
    ensures TakesBody(req) && req.bodyType == FormData ==>
      init.body == Some(MultipartBody(ActivePairs(FormRows(req.formData)))) &&
      init.headers == RowMap(req.headers)
    ensures TakesBody(req) && req.bodyType == UrlEncoded ==>
      init.body == Some(UrlEncodedBody(ActivePairs(FormRows(req.formData)))) &&
      ContentType in init.headers
  {
    var headers := RowMap(req.headers);
    if !TakesBody(req) then RequestInit(req.httpMethod, headers, None, NoStore)
    else
      match req.bodyType
      case Json =>
        if req.jsonBody == "" then RequestInit(req.httpMethod, headers, None, NoStore)
        else RequestInit(req.httpMethod, WithContentType(headers, JsonMediaType), Some(TextBody(req.jsonBody)), NoStore)
      case FormData =>
        RequestInit(req.httpMethod, headers, Some(MultipartBody(ActivePairs(FormRows(req.formData)))), NoStore)
      case UrlEncoded =>
        RequestInit(req.httpMethod, WithContentType(headers, FormMediaType),
          Some(UrlEncodedBody(ActivePairs(FormRows(req.formData)))), NoStore)
      case Raw =>
        RequestInit(req.httpMethod, headers,
          if req.rawBody == "" then None else Some(TextBody(req.rawBody)), NoStore)
  }

  /** The `.filter(...).forEach(item => body.append(item.key, item.value))` loop over the form rows. */
  method AppendFormFields(items: seq<FormDataItem>) returns (fields: seq<Pair>)
    ensures fields == ActivePairs(FormRows(items))
  {
    fields := [];
    for i := 0 to |items|
      invariant fields == ActivePairs(FormRows(items[..i]))
    {
      assert items[..i + 1] == items[..i] + [items[i]];
      MapAppend(items[..i], [items[i]], AsRow);
      assert FormRows(items[..i + 1]) == FormRows(items[..i]) + [AsRow(items[i])];
      ActivePairsSnoc(FormRows(items[..i]), AsRow(items[i]));
      if items[i].enabled && items[i].key != "" {
        fields := fields + [(items[i].key, items[i].value)];
      }
    }
    assert items[..|items|] == items;
  }

  /** Fills `requestOptions.headers` and `requestOptions.body` in place, case by case. */
  method BuildRequestInit(req: HttpRequest) returns (init: RequestInit)
    ensures init == RequestInitFor(req)
  {
    var enabledHeaders := RowMap(req.headers);
    var headers := enabledHeaders;
    var body: Option<Body> := None;
    if req.httpMethod != "GET" && req.httpMethod != "HEAD" && req.bodyType != NoBody {
      match req.bodyType {
        case Json =>
          if req.jsonBody != "" {
            body := Some(TextBody(req.jsonBody));
            if ContentType !in enabledHeaders {
              headers := headers[ContentType := JsonMediaType];
            }
          }
        case FormData =>
          var fields := AppendFormFields(req.formData);
          body := Some(MultipartBody(fields));
        case UrlEncoded =>
          var fields := AppendFormFields(req.formData);
          body := Some(UrlEncodedBody(fields));
          if ContentType !in enabledHeaders {
            headers := headers[ContentType := FormMediaType];
          }
        case Raw =>
          if req.rawBody != "" {
            body := Some(TextBody(req.rawBody));
          }
      }
    }
    init := RequestInit(req.httpMethod, headers, body, NoStore);
  }

  /** What a `throw` carried: an `Error` (with its message) or any other value. */
  datatype Thrown = ErrorObject(message: string) | OtherThrown

  /**
   * The outcome of the one `fetch`: a response (its header list as the
   * transport iterates it; `text` is None when reading the body fails), or a
   * rejection.
   */
  datatype FetchResult =
    | Responded(status: int, statusText: string, headers: seq<Pair>, text: Option<string>)
    | Threw(error: Thrown)

  /**
   * What the action calls and cannot see: the URL parser, `fetch`, and
   * `JSON.stringify(JSON.parse(text), null, 2)` (None when `JSON.parse` throws).
   */
  datatype HttpEnv = HttpEnv(
    url: UrlApi,
    fetch: (string, RequestInit) -> FetchResult,
    prettyJson: string -> Option<string>)

  const NetworkError := "Network Error"
  const UnreadableBody := "Failed to read response body"
  const UnknownError := "Unknown error occurred"

  function ErrorMessage(e: Thrown): string {
    match e
    case ErrorObject(m) => m
    case OtherThrown => UnknownError
  }

  /** The response body: pretty-printed JSON when the text parses, the text verbatim otherwise. */
  function FormatBody(text: Option<string>, prettyJson: string -> Option<string>): (body: string)
    ensures text.None? ==> body == UnreadableBody
    ensures text.Some? && prettyJson(text.value).Some? ==> body == prettyJson(text.value).value
    ensures text.Some? && prettyJson(text.value).None? ==> body == text.value
  {
    match text
    case None => UnreadableBody
    case Some(t) => prettyJson(t).GetOr(t)
  }

  /**
   * The response the action returns for a fetch outcome. A rejection becomes
   * the sentinel: status 0, "Network Error", no headers, the error's message as
   * body. A response keeps its status and status text, its headers as a record
   * (a later header of the same name wins; one named "__proto__" is dropped
   * by the assignment) and its formatted body. Either way
   * the response time is the time elapsed since the start.
   */
  function Normalize(outcome: FetchResult, prettyJson: string -> Option<string>, start: int, end: int): (r: HttpResponse)
    ensures r.responseTime == end - start
    ensures start <= end ==> r.responseTime >= 0
    ensures outcome.Threw? ==> r.statusText == NetworkError && r.status == 0 && r.headers == map[] && r.body == ErrorMessage(outcome.error)
    ensures outcome.Responded? ==>
      r.status == outcome.status && r.statusText == outcome.statusText &&
      r.headers == Assigned(outcome.headers) && r.body == FormatBody(outcome.text, prettyJson)
  {
    match outcome
    case Threw(e) => HttpResponse(0, NetworkError, map[], ErrorMessage(e), end - start)
    case Responded(status, statusText, headers, text) =>
      HttpResponse(status, statusText, Assigned(headers), FormatBody(text, prettyJson), end - start)
  }

  /** `response.headers.forEach((value, key) => responseHeaders[key] = value)`. */
  method CollectHeaders(pairs: seq<Pair>) returns (responseHeaders: map<string, string>)
    ensures responseHeaders == Assigned(pairs)
    ensures ProtoKey !in responseHeaders
  {
    responseHeaders := map[];
    for i := 0 to |pairs|
      invariant responseHeaders == Assigned(pairs[..i])
    {
      assert pairs[..i + 1][..i] == pairs[..i];
      if pairs[i].0 != ProtoKey {
        responseHeaders := responseHeaders[pairs[i].0 := pairs[i].1];
      }
    }
    assert pairs[..|pairs|] == pairs;
  }

  /**
   * `sendRequestAction`: builds the options and the URL, sends once, and
   * normalises the outcome; `start` and `end` are the clock readings taken
   * before the request and when the result is known.
   */
  method SendRequest(req: HttpRequest, env: HttpEnv, start: int, end: int) returns (resp: HttpResponse)
    ensures resp == Normalize(env.fetch(UrlWithParams(req.url, req.params, env.url), RequestInitFor(req)),
                              env.prettyJson, start, end)
  {
    var requestOptions := BuildRequestInit(req);
    var finalUrl := BuildUrlWithParams(req.url, req.params, env.url);
    var outcome := env.fetch(finalUrl, requestOptions);
    if outcome.Threw? {
      return HttpResponse(0, NetworkError, map[], ErrorMessage(outcome.error), end - start);
    }
    var responseTime := end - start;
    var responseHeaders := CollectHeaders(outcome.headers);
    var responseBody := "";
    if outcome.text.None? {
      responseBody := UnreadableBody;
    } else {
      var json := env.prettyJson(outcome.text.value);
      if json.Some? {
        responseBody := json.value;
      } else {
        responseBody := outcome.text.value;
      }
    }
    resp := HttpResponse(outcome.status, outcome.statusText, responseHeaders, responseBody, responseTime);
  }
}
