/** The pagination of the articles page: the page number taken from the
    query, the posts of that page, and which controls the page shows. */
module ArticlesPage {
  import opened Wrappers
  import JsText
  import Notion

  const PostsPerPage: nat := 10

  /** The `page` query parameter: absent or empty, or a non-empty text whose
      `parseInt` is `parsed` (`None` for NaN). */
  datatype PageParam = Missing | Given(parsed: Option<int>)

  /** The page number, with NaN as `None`; a missing parameter means page 1. */
  function PageNumber(param: PageParam): (page: Option<int>)
    ensures param.Missing? ==> page == Some(1)
    ensures param.Given? ==> page == param.parsed
  {
    match param
    case Missing => Some(1)
    case Given(parsed) => parsed
  }

  /** `Math.ceil(n / POSTS_PER_PAGE)`. */
  function TotalPages(n: nat): (t: nat)
    ensures t * PostsPerPage >= n
    ensures t == 0 || (t - 1) * PostsPerPage < n
    ensures t == 0 <==> n == 0
  {
    (n + PostsPerPage - 1) / PostsPerPage
  }

  /** `sortedPosts.slice(start, start + POSTS_PER_PAGE)` with
      `start = (page - 1) * POSTS_PER_PAGE`; NaN bounds slice as 0. */
  function PagePosts<T>(sorted: seq<T>, page: Option<int>): (r: seq<T>)
    ensures page.None? ==> r == []
    ensures page.Some? && page.value >= 1 ==>
      r == sorted[Min((page.value - 1) * PostsPerPage, |sorted|)..Min(page.value * PostsPerPage, |sorted|)]
    // page 0 ends the slice at 0; a negative page counts from the end
    ensures page == Some(0) ==> r == []
    ensures page.Some? && page.value < 0 && -(page.value - 1) * PostsPerPage <= |sorted| ==>
      r == sorted[|sorted| + (page.value - 1) * PostsPerPage..|sorted| + page.value * PostsPerPage]
    ensures |r| <= PostsPerPage
  {
    match page
    case None => []
    case Some(p) =>
      var start := (p - 1) * PostsPerPage;
      JsText.Slice(sorted, start, start + PostsPerPage)
  }

  /** What the page shows: its posts, the pagination bar (present when
      `showPagination`, with its Previous and Next targets), and whether the
      "No articles found." notice appears. `page` is `None` for NaN. */
  datatype View<T> = View(posts: seq<T>, page: Option<int>, totalPages: nat,
                          showPagination: bool, previous: Option<int>, next: Option<int>,
                          emptyNotice: bool)

  /** The page as rendered from already sorted posts. */
  function Paginate<T>(sorted: seq<T>, param: PageParam): (v: View<T>)
    ensures v.page == PageNumber(param)
    ensures v.totalPages == TotalPages(|sorted|)
    ensures v.posts == PagePosts(sorted, v.page)
    ensures v.showPagination <==> v.totalPages > 1
    ensures v.previous.Some? <==> v.showPagination && v.page.Some? && v.page.value > 1
    ensures v.previous.Some? ==> v.previous.value == v.page.value - 1
    ensures v.next.Some? <==> v.showPagination && v.page.Some? && v.page.value < v.totalPages
    ensures v.next.Some? ==> v.next.value == v.page.value + 1
    ensures v.emptyNotice <==> v.posts == []
  {
    var page := PageNumber(param);
    var totalPages := TotalPages(|sorted|);
    var posts := PagePosts(sorted, page);
    var show := totalPages > 1;
    View(posts, page, totalPages, show,
         if show && page.Some? && page.value > 1 then Some(page.value - 1) else None,
         if show && page.Some? && page.value < totalPages then Some(page.value + 1) else None,
         |posts| == 0)
  }

  /** `ArticlesPage` over the result of `getPosts()`, sorted by the same
      date comparator as the latest posts. */
  function ArticlesPageView(allPosts: seq<Notion.BlogPost>, param: PageParam,
                            timeOf: string -> Option<int>): (v: View<Notion.BlogPost>)
    ensures multiset(v.posts) <= multiset(allPosts)
    ensures v == Paginate(Notion.SortByDateDesc(allPosts, timeOf), param)
  {
    var sorted := Notion.SortByDateDesc(allPosts, timeOf);
    var v := Paginate(sorted, param);
    PagePostsSubMultiset(sorted, v.page);
    v
  }

  lemma PagePostsSubMultiset<T>(s: seq<T>, page: Option<int>)
    ensures multiset(PagePosts(s, page)) <= multiset(s)
  {
    if page.Some? {
      var start := (page.value - 1) * PostsPerPage;
      var a := JsText.SliceIndex(|s|, start);
      var b := JsText.SliceIndex(|s|, start + PostsPerPage);
      if a < b {
        assert s == s[..a] + s[a..b] + s[b..];
      }
    }
  }

  /** For a page number of at least one, the notice appears exactly when the
      page starts at or past the last post. */
  lemma EmptyPageIffPastEnd<T>(sorted: seq<T>, p: int)
    requires p >= 1
    ensures Paginate(sorted, Given(Some(p))).emptyNotice <==> (p - 1) * PostsPerPage >= |sorted|
  {
  }

  /** Pages `p` to `last` one after another. */
  function PagesFrom<T>(sorted: seq<T>, p: int, last: int): seq<T>
    decreases last - p
  {
    if p > last then [] else PagePosts(sorted, Some(p)) + PagesFrom(sorted, p + 1, last)
  }

  lemma {:induction false} PagesFromRest<T>(sorted: seq<T>, p: int)
    requires 1 <= p
    ensures PagesFrom(sorted, p, TotalPages(|sorted|)) == sorted[Min((p - 1) * PostsPerPage, |sorted|)..]
    decreases TotalPages(|sorted|) - p
  {
    var n := |sorted|;
    var t := TotalPages(n);
    if p > t {
      assert (p - 1) * PostsPerPage >= t * PostsPerPage >= n;
    } else {
      PagesFromRest(sorted, p + 1);
      var a := Min((p - 1) * PostsPerPage, n);
      var b := Min(p * PostsPerPage, n);
      assert sorted[a..] == sorted[a..b] + sorted[b..];
    }
  }

  /** Pages 1 to `totalPages`, one after another, give back every sorted post
      once, in order. */
  lemma PagesCoverAllPosts<T>(sorted: seq<T>)
    ensures PagesFrom(sorted, 1, TotalPages(|sorted|)) == sorted
  {
    PagesFromRest(sorted, 1);
  }
}
