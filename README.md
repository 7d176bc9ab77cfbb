# next-dev-tools: request builder, link-preview route and bookmark list

This project models three pieces of the Next.js developer-tools app.

- **The HTTP client's server action** (`sendRequestAction` and
  `buildUrlWithParams`):
  - It sets the enabled query parameters on the URL, using
    `URLSearchParams.set` as section 6.2 of the WHATWG URL Standard defines it.
  - It builds the header record from the enabled rows, where a later row
    overwrites an earlier one.
  - It picks the body and the one `Content-Type` it may add from the body
    type.
  - It sends once, then turns the response or the failure into an
    `HttpResponse`: pretty-printed JSON body, verbatim text, the
    unreadable-body text, or the `Network Error` sentinel.
- **The link-preview route** (`POST /api/og`):
  - It validates the posted URL (400 "URL is required" / "Invalid URL") and
    fetches the page (500 on any failure).
  - It fills the Open Graph record through fixed fallback chains:
    - title: og:title, then `<title>`;
    - description: og:description, then the meta description;
    - site name: og:site_name, then the page's host name;
    - url: og:url, then the canonical link, then the page URL.
  - It resolves a relative `og:image` against the page and inlines the image
    as a base64 data URL (section 3 of RFC 2397). If that fetch or reading its
    body throws, it falls back to the resolved URL; if the answer is not ok,
    it leaves the image out.
- **The bookmarks view** (`Bookmarks` component), as a class `BookmarkList`:
  - Its fields are the bookmark list and the inputs.
  - `AllCategories` and `FilteredBookmarks` are views of the list.
  - `AddBookmark` prepends a bookmark built from the preview record, with
    defaults ("Untitled", "", the host name, the trimmed category). On an
    empty URL, a URL the parser rejects, or a failed preview fetch it leaves
    everything unchanged.
  - `DeleteBookmark` filters out an id.

The core's state-changing code keeps its shape:
- a URL's query list rewritten in a loop;
- request options filled in place;
- form fields appended in a loop;
- response headers collected in a loop;
- the `ogData` record filled field by field, with the image URL rewritten
  through an if/else chain;
- the bookmark list replaced by the component's handlers.

Each such method is proved equal to a specification function. The
properties are proved about those functions.

Behaviour the code calls and cannot see is passed in as functions: the
WHATWG URL parser and serialiser, the query's form-urlencoded serialiser, `fetch`, `JSON.parse` with
`JSON.stringify(…, null, 2)`, the regular-expression engine and `Buffer`'s
base64 encoder. The clock readings are parameters.

Implemented concretely:
- `String.prototype.trim`, with ECMAScript's white-space and line-terminator
  set;
- `startsWith` and `includes` (plus `endsWith` and `indexOf`, which the
  contracts and the data-URL reader use);
- ASCII `toLowerCase`;
- `Number.prototype.toString` on non-negative integers below 10^21;
- insertion-ordered `Array.from(new Set(…))`;
- `filter` and `map`;
- the object built by successive key writes, both by object-literal
  definition and by assignment (which drops "__proto__").

Files:
- `wrappers.dfy`: `Option`.
- `text.dfy`: the string operations.
- `seqs.dfy`: the list operations.
- `records.dfy`: string-keyed objects.
- `search_params.dfy`: `URLSearchParams.set`.
- `urls.dfy`: the URL record and the default-scheme rule.
- `data_urls.dfy`: data URLs.
- `http_types.dfy`: the request and response records.
- `http_action.dfy`: the server action.
- `og_route.dfy`: the preview route.
- `bookmarks.dfy`: the bookmarks view.

## Model

| member | source | states |
|---|---|---|
| HttpAction.NoActiveRows | app/actions/http.ts:6-7 | there is nothing to apply exactly when no row is both enabled and keyed |
| HttpAction.ActivePairsMembers | app/actions/http.ts:6 | the applied (key, value) pairs are exactly those of the enabled rows with a non-empty key |
| Urls.WithDefaultScheme | app/actions/http.ts:10 | the string handed to the parser is the input itself exactly when the input starts with "http", and "https://" followed by the input otherwise; it always starts with "http" |
| Urls.HttpPrefixedHostGetsNoScheme | app/actions/http.ts:10 | the test is on the bare letters "http": "httpbin.org" reaches the parser without a scheme |
| SearchParams.SetSpec | app/actions/http.ts:12 | after `set(name, value)` the name occurs exactly once with that value. A name already present keeps the place of its first pair, with every pair before it unchanged. A new name is appended. Removing the name gives the same list as before, so the other pairs keep their values and their order |
| SearchParams.SetAllSpec | app/actions/http.ts:11-13 | after setting a list of pairs, each name set occurs once with the value of its last pair; other names keep exactly their old values |
| SearchParams.SetAllKeepsOthers | app/actions/http.ts:11-13 | setting only names from a set leaves the pairs of all other names exactly as they were, in the same relative order |
| HttpAction.WithParams | app/actions/http.ts:11-13 | only the query changes (credentials, host, path and fragment stay); each enabled parameter key occurs once with the value of its last enabled row, existing occurrences are replaced, not added to, and the pairs of other keys keep their relative order; the URL's query text becomes the re-encoded list |
| HttpAction.UrlWithParamsCases | app/actions/http.ts:5-18 | with no enabled keyed row the URL is returned untouched (no scheme added); an unparseable URL is returned untouched; otherwise the result is the serialised parsed URL with the parameters set |
| HttpAction.BuildUrlWithParams | app/actions/http.ts:5-18 | the loop of `set` calls on the parsed URL computes `UrlWithParams` |
| Records.ToMap | app/actions/http.ts:26-28 | the keys of the record built from a pair list are exactly the keys of its pairs |
| Records.ToMapLastWins | app/actions/http.ts:26-28 | a key maps to the value of its last pair |
| HttpAction.RowMapKeys | app/actions/http.ts:26-28 | a header key is present exactly when some enabled row with a non-empty key has it; disabled and empty-key rows never appear |
| HttpAction.RowMapLastWins | app/actions/http.ts:26-28 | a header key maps to the value of its last enabled row |
| HttpAction.RequestInitFor | app/actions/http.ts:30-80 | method passed through and `cache: "no-store"`. GET, HEAD or body type none: no body and exactly the row headers. The row headers are never overwritten; the only key that may be added is `Content-Type`, only when that exact key is absent, with `application/json` for a sent JSON body or `application/x-www-form-urlencoded`. JSON and raw bodies are the text verbatim, omitted when empty. Form bodies always go out with exactly the active form rows in order. Raw and form-data leave the headers untouched |
| HttpAction.AppendFormFields | app/actions/http.ts:53-57 | the append loop yields exactly the enabled, keyed form rows' (key, value) pairs, in row order |
| HttpAction.BuildRequestInit | app/actions/http.ts:26-80 | filling the options in place computes `RequestInitFor` |
| Records.Assigned | app/actions/http.ts:86-89 | assigning pairs into a plain object gives the defined record less "__proto__", whose assignment only runs the prototype setter |
| HttpAction.CollectHeaders | app/actions/http.ts:86-89 | the header loop builds the assigned record of the transport's header list, later entries winning, with no "__proto__" key |
| HttpAction.FormatBody | app/actions/http.ts:91-102 | pretty-printed JSON when the text parses, the text verbatim when it does not, "Failed to read response body" when it cannot be read |
| HttpAction.Normalize | app/actions/http.ts:84-120 | response time is end minus start (non-negative when the clock does not go back). A thrown failure gives status 0, "Network Error", no headers and the error's message ("Unknown error occurred" for a non-Error). A response keeps its status, status text, assigned header record (no "__proto__") and formatted body |
| HttpAction.SendRequest | app/actions/http.ts:20-122 | the action's result is the normalised outcome of one fetch of `UrlWithParams` with `RequestInitFor` |
| Text.Trim | app/api/og/route.ts:48 | `trim` removes exactly a white-space prefix and a white-space suffix and leaves no white space at either end |
| Text.TrimIdempotent | app/api/og/route.ts:48 | trimming twice is trimming once |
| OgRoute.TieredMatch | app/api/og/route.ts:44-57 | title and description take the trimmed og: capture whenever that pattern matched, even with empty content; else the trimmed second-tier capture; else absent |
| OgRoute.ResolveImageUrl | app/api/og/route.ts:62-71 | "//x" takes the page's protocol, "/x" its origin, any other value not starting with "http" becomes origin + "/" + value, and the rest is kept; the value is only ever prefixed |
| OgRoute.ResolvedImageIsAbsolute | app/api/og/route.ts:64-71 | against an http(s) page every resolved image URL starts with "http" |
| OgRoute.ImageType | app/api/og/route.ts:78 | the media type is the content-type header when non-empty, "image/jpeg" otherwise, never empty |
| DataUrls.DataUrlRoundTrip | app/api/og/route.ts:80 | a data URL built from a comma-free media type and the base64 text reads back as those two parts |
| OgRoute.ImageField | app/api/og/route.ts:74-86 | an ok image fetch gives the data URL, a thrown fetch or body read gives the resolved URL, and the image is absent exactly when the fetch answers non-ok |
| OgRoute.ImageOf | app/api/og/route.ts:59-87 | no og:image tag means no image; otherwise the outcome of fetching the trimmed, resolved tag value |
| OgRoute.ExtractImage | app/api/og/route.ts:59-87 | rewriting `imageUrl` through the if/else chain and fetching computes `ImageOf` |
| OgRoute.PreviewOf | app/api/og/route.ts:41-105 | title and description via their two tiers, image via og:image only, site name always present (trimmed og:site_name, else host name), url always present (trimmed og:url, else trimmed canonical href, else the serialised page URL) |
| OgRoute.ExtractOpenGraph | app/api/og/route.ts:41-105 | filling `ogData` field by field computes `PreviewOf` |
| OgRoute.Handle | app/api/og/route.ts:11-112 | 400 "URL is required" exactly for a falsy `url`. 400 "Invalid URL" exactly for a truthy non-string or a URL the parser rejects after the default scheme. Every other failure is 500 "Failed to fetch website data". A preview is returned exactly when the page fetch answers ok with readable text, and it is `PreviewOf` that page with site name and url present |
| OgRoute.Post | app/api/og/route.ts:11-112 | the handler's early returns and extraction compute `Handle` |
| Seqs.DedupSpec | components/bookmarks.tsx:57 | `Array.from(new Set(xs))` holds exactly the elements of `xs`, each once, in order of first appearance |
| Bookmarks.NamedCategoriesMembers | components/bookmarks.tsx:57 | the mapped, `filter(Boolean)` categories are exactly the non-empty categories of the list |
| Bookmarks.BookmarkList.AllCategories | components/bookmarks.tsx:57 | "All" first, then each non-empty category of the list exactly once, in order of first appearance |
| Text.ContainsIsWindow | components/bookmarks.tsx:66-68 | `includes` holds exactly when some window of the text equals the query |
| Seqs.FilterIsSubsequence | components/bookmarks.tsx:59-69 | `filter` keeps its survivors in their original order |
| Bookmarks.BookmarkList.FilteredBookmarks | components/bookmarks.tsx:59-69 | an order-preserving subsequence of the list holding exactly the bookmarks in the selected category (any, for "All") whose lower-cased title, description or URL contains the lower-cased query, each with as many copies as the list has; with "All" and an empty query, the whole list |
| Bookmarks.WithHttpScheme | components/bookmarks.tsx:104-107 | the URL is the input itself exactly when it starts with "http://" or "https://", and "https://" followed by the input otherwise; the result always has one of the two |
| Text.DecimalRoundTrip | components/bookmarks.tsx:126 | the decimal id reads back as the clock value, so distinct readings give distinct ids |
| Bookmarks.NewBookmark | components/bookmarks.tsx:125-134 | the id is the decimal clock reading, without leading zeros; title is the preview title or "Untitled" (never empty); description and image default to ""; site name is the preview's or the host name; category is the trimmed input |
| Bookmarks.BookmarkList.constructor | components/bookmarks.tsx:32-38 | an empty list, empty inputs and "All" selected |
| Bookmarks.BookmarkList.AddBookmark | components/bookmarks.tsx:93-154 | an empty URL, a URL the parser rejects or a failed preview fetch leaves the list and the inputs unchanged (and says which); otherwise the new list is the new bookmark followed by the unchanged old list, and the inputs are cleared |
| Seqs.FilterMembers | components/bookmarks.tsx:157 | an element survives `filter` exactly when it was in the list and satisfies the test |
| Seqs.FilterCount | components/bookmarks.tsx:157 | `filter` keeps every copy of a survivor and none of the others |
| Bookmarks.WithoutId | components/bookmarks.tsx:157 | removes every bookmark with the id and keeps every copy of all others, in their relative order |
| Bookmarks.BookmarkList.DeleteBookmark | components/bookmarks.tsx:156-162 | the list becomes `WithoutId` of the old list; nothing else changes |

## Left out

- The JSX rendering, the dialog and loading flags, the toasts and `window.open` in components/bookmarks.tsx: user interface with no bearing on the list. `AddOutcome` records which toast would be shown.
- The `localStorage` load and save effects in components/bookmarks.tsx: browser storage I/O.
- The view switch in app/page.tsx has no logic. lib/http-types.ts contributes only the datatypes.
- `fetch` itself: every fetch is an input function whose result is a datatype (a response or a rejection). The client-side `fetchOpenGraphData` is the `fetchPreview` parameter of `AddBookmark`, `None` when it throws.
- Urls.Url: the URL record carries protocol, credentials, host name, port, origin, path, the query both as written and as decoded pairs, and the fragment. How the parser decodes the query and how the serialiser and the form-urlencoded encoder write text are left to the supplied functions. `fetch` refusing a URL with credentials is one of the fetch inputs' rejections.
- WHATWG URL parsing and serialisation, the form-urlencoded serialiser, `JSON.parse`/`JSON.stringify`, the regular-expression engine and `Buffer`'s base64: uninterpreted functions supplied by the caller. The regular expressions are recorded as `OgRoute.PatternSource` for reference only.
- Bookmarks.BookmarkList.FilteredBookmarks: case-insensitivity is modelled with ASCII lower-casing only, because Unicode `toLowerCase` is a foreign table.
- `async`/`await`: the flows are sequential and are modelled as straight-line code. Interleaving of concurrent state updates (`setBookmarks(prev => …)`) is not modelled.
- `Date.now()`: `SendRequest` takes the start and end readings as parameters. `AddBookmark` takes one reading `now` for both `id` and `timestamp`, which the source reads twice.
- HttpAction.CollectHeaders: the header list is taken as the transport iterates it; `Headers`' lower-casing, sorting and combining of repeated names is the transport's and is not modelled.
- HttpAction.RequestInitFor: headers and bodies are maps and pair lists, so the key order of the JavaScript object and the multipart and URL-encoded wire formats are not modelled. A file row's `value` string is what is appended, as in the source.
- The JSON body of the preview route is reduced to the value of its `url` member: `OgRequest.InvalidJson` stands for a body that is not JSON or is `null`. Any other primitive or an object without `url` is `JsonBody(Undefined)`.
- Text.DecimalString: `Number.prototype.toString` switches to exponential form from 10^21 on, which is not modelled; `Date.now()` readings are far below that bound.
- HTTP status codes are unbounded integers; `response.ok` is the 200–299 range.
