/**
 * The logic of the bookmarks view: the list of bookmarks the component keeps
 * in its state, the category list and filtered view it derives from it, and
 * the add and delete operations that replace it.
 */
module Bookmarks {
  import opened Wrappers
  import opened Text
  import opened Seqs
  import opened Urls
  import opened OgRoute

  datatype Bookmark = Bookmark(
    id: string,
    url: string,
    title: string,
    description: string,
    image: string,
    siteName: string,
    timestamp: int,
    category: Option<string>)

  const All := "All"
  const Untitled := "Untitled"

  /**
   * The URL as entered, with "https://" put in front unless it already starts
   * with "http://" or "https://". The result always carries one of the two
   * schemes, only ever gains a prefix, and is the input itself exactly when
   * the input already had one.
   */
  function WithHttpScheme(s: string): (r: string)
    ensures StartsWith(r, "http://") || StartsWith(r, "https://")
    ensures EndsWith(r, s)
    ensures r == s <==> StartsWith(s, "http://") || StartsWith(s, "https://")
    ensures !StartsWith(s, "http://") && !StartsWith(s, "https://") ==> r == "https://" + s
  {
    if StartsWith(s, "http://") || StartsWith(s, "https://") then s
    else
      var r := "https://" + s;
      assert r[..8] == "https://" && r[|r| - |s|..] == s;
      r
  }

  /**
   * The bookmark made from a validated URL and the preview record: the title
   * is never empty ("Untitled" stands in), description and image default to
   * "", the site name falls back to the URL's host name, the category is the
   * trimmed input, and the id is the decimal clock reading.
   */
  function NewBookmark(validUrl: string, og: OpenGraphData, hostname: string, category: string, now: nat): (b: Bookmark)
    ensures b.url == validUrl && b.timestamp == now
    ensures b.id != "" && forall i :: 0 <= i < |b.id| ==> IsDigit(b.id[i])
    ensures DecimalValue(b.id) == now && (b.id[0] == '0' ==> b.id == "0")
    ensures b.title != ""
    ensures og.title.Some? && og.title.value != "" ==> b.title == og.title.value
    ensures og.title.None? || og.title.value == "" ==> b.title == Untitled
    ensures b.description == og.description.GetOr("") && b.image == og.image.GetOr("")
    ensures og.siteName.Some? && og.siteName.value != "" ==> b.siteName == og.siteName.value
    ensures og.siteName.None? || og.siteName.value == "" ==> b.siteName == hostname
    ensures b.category.Some? && IsTrimmed(b.category.value) && b.category.value == Trim(category)
  {
    DecimalRoundTrip(now);
    Bookmark(
      DecimalString(now),
      validUrl,
      if og.title.Some? && og.title.value != "" then og.title.value else Untitled,
      og.description.GetOr(""),
      og.image.GetOr(""),
      if og.siteName.Some? && og.siteName.value != "" then og.siteName.value else hostname,
      now,
      Some(Trim(category)))
  }

  /** `bookmarks.map(b => b.category).filter(Boolean)`: the non-empty categories, in list order. */
  function NamedCategories(bs: seq<Bookmark>): seq<string> {
    if bs == [] then []
    else
      (if bs[0].category.Some? && bs[0].category.value != "" then [bs[0].category.value] else []) +
      NamedCategories(bs[1..])
  }

  lemma {:induction false} NamedCategoriesMembers(bs: seq<Bookmark>, c: string)
    ensures c in NamedCategories(bs) <==> c != "" && exists i :: 0 <= i < |bs| && bs[i].category == Some(c)
  {
    if bs != [] {
      NamedCategoriesMembers(bs[1..], c);
      if i :| 1 <= i < |bs| && bs[i].category == Some(c) {
        assert bs[1..][i - 1].category == Some(c);
      }
    }
  }

  /** `selectedCategory === "All" || bookmark.category === selectedCategory`. */
  predicate InCategory(b: Bookmark, selected: string) {
    selected == All || b.category == Some(selected)
  }

  /** The query occurs, ignoring case, in the title, the description or the URL. */
  predicate MatchesQuery(b: Bookmark, query: string) {
    var q := Lower(query);
    Contains(Lower(b.title), q) || Contains(Lower(b.description), q) || Contains(Lower(b.url), q)
  }

  /**
   * `bs.filter(b => b.id !== id)`: every bookmark with that id goes, the others
   * stay in order, each with all its copies.
   */
  function WithoutId(bs: seq<Bookmark>, id: string): (r: seq<Bookmark>)
    ensures IsSubsequence(r, bs)
    ensures forall b :: b in r <==> b in bs && b.id != id
    ensures forall b :: multiset(r)[b] == if b.id != id then multiset(bs)[b] else 0
  {
    var keep := (b: Bookmark) => b.id != id;
    FilterIsSubsequence(bs, keep);
    forall b ensures multiset(Filter(bs, keep))[b] == if b.id != id then multiset(bs)[b] else 0 {
      FilterCount(bs, keep, b);
    }
    assert forall b :: b in Filter(bs, keep) <==> b in bs && b.id != id by {
      forall b ensures b in Filter(bs, keep) <==> b in bs && b.id != id {
        FilterMembers(bs, keep, b);
      }
    }
    Filter(bs, keep)
  }

  /** Why an add did or did not happen (the toast the component shows). */
  datatype AddOutcome = EmptyUrl | UnparseableUrl | PreviewFailed | Added

  /** The component's state: the bookmark list and the inputs that drive it. */
  class BookmarkList {
    var bookmarks: seq<Bookmark>
    var searchQuery: string
    var selectedCategory: string
    var newUrl: string
    var newCategory: string

    constructor ()
      ensures bookmarks == [] && searchQuery == "" && selectedCategory == All
      ensures newUrl == "" && newCategory == ""
    {
      bookmarks := [];
      searchQuery := "";
      selectedCategory := All;
      newUrl := "";
      newCategory := "";
    }

    /**
     * `allCategories`: "All", then each non-empty category of the list once,
     * in the order of first appearance.
     */
    function AllCategories(): (r: seq<string>)
      reads this
      ensures |r| >= 1 && r[0] == All
      ensures forall c :: c in r[1..] <==> c != "" && exists i :: 0 <= i < |bookmarks| && bookmarks[i].category == Some(c)
      ensures NoDuplicates(r[1..])
      ensures InFirstAppearanceOrder(r[1..], NamedCategories(bookmarks))
    {
      var named := NamedCategories(bookmarks);
      DedupSpec(named);
      var r := [All] + Dedup(named);
      assert r[1..] == Dedup(named);
      assert forall c :: c in r[1..] <==> c != "" && exists i :: 0 <= i < |bookmarks| && bookmarks[i].category == Some(c) by {
        forall c ensures c in r[1..] <==> c != "" && exists i :: 0 <= i < |bookmarks| && bookmarks[i].category == Some(c) {
          NamedCategoriesMembers(bookmarks, c);
        }
      }
      r
    }

    /**
     * `filteredBookmarks`: the bookmarks in the selected category whose title,
     * description or URL contains the search query, ignoring case, in list
     * order, every copy of a repeated bookmark kept. With "All" selected and
     * an empty query it is the whole list.
     */
    function FilteredBookmarks(): (r: seq<Bookmark>)
      reads this
      ensures IsSubsequence(r, bookmarks)
      ensures forall b :: b in r <==> b in bookmarks && InCategory(b, selectedCategory) && MatchesQuery(b, searchQuery)
      ensures forall b :: (multiset(r)[b] ==
        if InCategory(b, selectedCategory) && MatchesQuery(b, searchQuery) then multiset(bookmarks)[b] else 0)
      ensures selectedCategory == All && searchQuery == "" ==> r == bookmarks
    {
      var selected, query := selectedCategory, searchQuery;
      var inCategory := (b: Bookmark) => InCategory(b, selected);
      var matches := (b: Bookmark) => MatchesQuery(b, query);
      var byCategory := Filter(bookmarks, inCategory);
      var r := Filter(byCategory, matches);
      FilterIsSubsequence(bookmarks, inCategory);
      FilterIsSubsequence(byCategory, matches);
      SubsequenceTransitive(r, byCategory, bookmarks);
      assert forall b :: b in r <==> b in bookmarks && InCategory(b, selected) && MatchesQuery(b, query) by {
        forall b ensures b in r <==> b in bookmarks && InCategory(b, selected) && MatchesQuery(b, query) {
          FilterMembers(bookmarks, inCategory, b);
          FilterMembers(byCategory, matches, b);
        }
      }
      forall b ensures multiset(r)[b] ==
        if InCategory(b, selected) && MatchesQuery(b, query) then multiset(bookmarks)[b] else 0 {
        FilterCount(bookmarks, inCategory, b);
        FilterCount(byCategory, matches, b);
      }
      assert selected == All && query == "" ==> r == bookmarks by {
        if selected == All && query == "" {
          FilterKeepsAll(bookmarks, inCategory);
          assert Lower(query) == [];
          FilterKeepsAll(byCategory, matches);
        }
      }
      r
    }

    /**
     * `addBookmark`: an empty URL, a URL the parser rejects, or a failed
     * preview fetch leave the list as it was. Otherwise the new bookmark goes
     * in front of the unchanged old list and the inputs are cleared.
     * `parse` is `new URL(s)` (None when it throws), `fetchPreview` the call to
     * the preview route (None when it fails), `now` the clock reading.
     */
    method AddBookmark(parse: string -> Option<Url>, fetchPreview: string -> Option<OpenGraphData>, now: nat)
      returns (outcome: AddOutcome)
      modifies this
      ensures searchQuery == old(searchQuery) && selectedCategory == old(selectedCategory)
      ensures outcome == EmptyUrl <==> old(newUrl) == ""
      ensures outcome == UnparseableUrl <==> old(newUrl) != "" && parse(WithHttpScheme(old(newUrl))).None?
      ensures outcome == Added <==>
        old(newUrl) != "" && parse(WithHttpScheme(old(newUrl))).Some? && fetchPreview(WithHttpScheme(old(newUrl))).Some?
      ensures outcome != Added ==>
        bookmarks == old(bookmarks) && newUrl == old(newUrl) && newCategory == old(newCategory)
      ensures outcome == Added ==>
        var validUrl := WithHttpScheme(old(newUrl));
        bookmarks == [NewBookmark(validUrl, fetchPreview(validUrl).value, parse(validUrl).value.hostname, old(newCategory), now)] + old(bookmarks) &&
        newUrl == "" && newCategory == ""
    {
      if newUrl == "" {
        return EmptyUrl;
      }
      var validUrl := newUrl;
      if !StartsWith(validUrl, "http://") && !StartsWith(validUrl, "https://") {
        validUrl := "https://" + validUrl;
      }
      assert validUrl == WithHttpScheme(newUrl);
      var parsed := parse(validUrl);
      if parsed.None? {
        return UnparseableUrl;
      }
      var ogData := fetchPreview(validUrl);
      if ogData.None? {
        return PreviewFailed;
      }
      var newBookmark := NewBookmark(validUrl, ogData.value, parsed.value.hostname, newCategory, now);
      bookmarks := [newBookmark] + bookmarks;
      newUrl := "";
      newCategory := "";
      outcome := Added;
    }

    /** `deleteBookmark(id)`: drops every bookmark with that id, keeping the rest in order. */
    method DeleteBookmark(id: string)
      modifies this
      ensures bookmarks == WithoutId(old(bookmarks), id)
      ensures searchQuery == old(searchQuery) && selectedCategory == old(selectedCategory)
      ensures newUrl == old(newUrl) && newCategory == old(newCategory)
    {
      bookmarks := WithoutId(bookmarks, id);
    }
  }
}
