/**
 * The WHATWG URL parser and serialiser are outside the model: a parsed URL is
 * the record below, and `new URL(s)` (None when it throws) and `url.toString()`
 * are functions the caller supplies.
 */
module Urls {
  import opened Wrappers
  import opened Text
  import opened Records

  /**
   * A URL record (section 4.1 of the WHATWG URL Standard) with the getters the
   * core reads. `rawQuery` is the query as the URL holds it, in its original
   * encoding (None when the URL has none); `query` is the `searchParams` list
   * decoded from it.
   */
  datatype Url = Url(
    protocol: string,
    username: string,
    password: string,
    hostname: string,
    port: string,
    origin: string,
    pathname: string,
    rawQuery: Option<string>,
    query: seq<Pair>,
    hash: string)

  /**
   * `parse(s)` is `new URL(s)`, None when that throws; `serialize(u)` is
   * `u.toString()`; `encodeQuery(q)` is the application/x-www-form-urlencoded
   * serialiser (section 5.2 of the WHATWG URL Standard) that `searchParams`
   * writes back into the URL's query after each change.
   */
  datatype UrlApi = UrlApi(
    parse: string -> Option<Url>,
    serialize: Url -> string,
    encodeQuery: seq<Pair> -> string)

  /**
   * `s.startsWith("http") ? s : "https://" + s`: the string handed to the URL
   * parser. It always starts with "http", only ever gains a prefix, and is `s`
   * itself exactly when `s` already starts with "http".
   */
  function WithDefaultScheme(s: string): (r: string)
    ensures StartsWith(r, "http") && EndsWith(r, s)
    ensures r == s <==> StartsWith(s, "http")
    ensures !StartsWith(s, "http") ==> r == "https://" + s
  {
    if StartsWith(s, "http") then s
    else
      var r := "https://" + s;
      assert r[..4] == "http" && r[|r| - |s|..] == s;
      r
  }

  /**
   * The test is on the bare letters "http", so a host name that begins with
   * them gets no scheme: "httpbin.org" reaches the parser as it is.
   */
  lemma HttpPrefixedHostGetsNoScheme()
    ensures WithDefaultScheme("httpbin.org") == "httpbin.org"
  {
    assert "httpbin.org"[..4] == "http";
  }
}
