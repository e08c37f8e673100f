/** The post helpers of the Notion client: field extractors, error
    classification, the outcome mapping of a post lookup, and the latest-posts
    selection. The Notion API calls themselves are inputs of these functions. */
module Notion {
  import opened Wrappers
  import opened NotionTypes
  import JsText
  import NotionBlocks

  /** `properties.Date.date` when it is set; `time` is not part of it. */
  datatype PostDate = PostDate(start: string)

  /** A blog post: the page's id and times, the Title, Description, Date and
      Published properties, and the page blocks once they are fetched.
      `published` is absent when the page has no Published property. */
  datatype BlogPost = BlogPost(
    id: string,
    lastEditedTime: string,
    createdTime: string,
    title: seq<RichText>,
    description: seq<RichText>,
    date: Option<PostDate>,
    published: Option<bool>,
    content: Option<seq<NotionBlocks.Block>>)

  /** A thrown value: an `Error` with its name and message, or anything else. */
  datatype Thrown = ErrorObject(name: string, message: string) | NonErrorValue

  datatype ErrorDetails = ErrorDetails(context: string, originalError: Option<string>)

  /** The `ApiError` record. */
  datatype ApiError = ApiError(message: string, code: string, details: ErrorDetails)

  /** `extractPlainText`: the trimmed concatenation of the items' texts. */
  function ExtractPlainText(items: seq<RichText>): (r: string)
    ensures JsText.IsTrimOf(r, JoinPlainText(items))
  {
    JsText.Trim(JoinPlainText(items))
  }

  /** `getPostTitle`. */
  function GetPostTitle(post: BlogPost): (r: string)
    ensures r == "Untitled" <==> ExtractPlainText(post.title) == "" || ExtractPlainText(post.title) == "Untitled"
    ensures ExtractPlainText(post.title) != "" ==> r == ExtractPlainText(post.title)
    ensures r != ""
  {
    var t := ExtractPlainText(post.title);
    if t == "" then "Untitled" else t
  }

  /** `getPostDescription`. */
  function GetPostDescription(post: BlogPost): (r: string)
    ensures JsText.IsTrimOf(r, JoinPlainText(post.description))
  {
    ExtractPlainText(post.description)
  }

  /** `getPostDate`: `date.start`, or the empty string without a date. */
  function GetPostDate(post: BlogPost): (r: string)
    ensures post.date.None? ==> r == ""
    ensures post.date.Some? ==> r == post.date.value.start
  {
    if post.date.Some? then post.date.value.start else ""
  }

  /** `formatPostDate`, with the locale formatting as a parameter: `format`
      gives the formatted text, or `None` when formatting throws. */
  function FormatPostDate(post: BlogPost, format: string -> Option<string>): (r: string)
    ensures GetPostDate(post) == "" ==> r == ""
    ensures GetPostDate(post) != "" && format(GetPostDate(post)).Some? ==> r == format(GetPostDate(post)).value
    ensures GetPostDate(post) != "" && format(GetPostDate(post)).None? ==> r == GetPostDate(post)
  {
    var date := GetPostDate(post);
    if date == "" then "" else
      match format(date)
      case Some(text) => text
      case None => date
  }

  /** `isPostPublished`. */
  function IsPostPublished(post: BlogPost): (r: bool)
    ensures r <==> post.published == Some(true)
  {
    post.published.GetOr(false)
  }

  /** `handleNotionError`. */
  function HandleNotionError(error: Thrown, context: string): (r: ApiError)
    ensures r.details.context == context
    ensures error.ErrorObject? ==>
      r == ApiError(error.message, "NOTION_API_ERROR", ErrorDetails(context, Some(error.name)))
    ensures error.NonErrorValue? ==>
      r == ApiError("Unknown error occurred", "UNKNOWN_ERROR", ErrorDetails(context, None))
  {
    match error
    case ErrorObject(name, message) => ApiError(message, "NOTION_API_ERROR", ErrorDetails(context, Some(name)))
    case NonErrorValue => ApiError("Unknown error occurred", "UNKNOWN_ERROR", ErrorDetails(context, None))
  }

  /** What the two Notion calls of `getPostById` produced: the page and its
      blocks, or the value one of them threw. */
  datatype PageFetch = Retrieved(page: BlogPost, blocks: seq<NotionBlocks.Block>) | FetchFailed(error: Thrown)

  /** The post, `null`, or the message of the error thrown onwards. */
  datatype PostLookup = Found(post: BlogPost) | NotFound | Rethrown(message: string)

  predicate LooksNotFound(message: string) {
    JsText.Includes(message, "not found") || JsText.Includes(message, "404")
  }

  /** `getPostById`, with `fetch` the outcome of the calls it makes. */
  function GetPostById(pageId: string, fetch: PageFetch): (r: PostLookup)
    ensures pageId == "" ==> r == NotFound
    ensures pageId != "" && fetch.Retrieved? ==>
      r == Found(fetch.page.(content := Some(fetch.blocks)))
    ensures pageId != "" && fetch.FetchFailed? ==>
      var m := HandleNotionError(fetch.error, "getPostById(" + pageId + ")").message;
      (r.NotFound? <==> LooksNotFound(m)) && (r.Rethrown? <==> !LooksNotFound(m))
      && (r.Rethrown? ==> r.message == "Failed to fetch post: " + m)
  {
    if pageId == "" then NotFound
    else match fetch
      case Retrieved(page, blocks) => Found(page.(content := Some(blocks)))
      case FetchFailed(error) =>
        var apiError := HandleNotionError(error, "getPostById(" + pageId + ")");
        if LooksNotFound(apiError.message) then NotFound
        else Rethrown("Failed to fetch post: " + apiError.message)
  }

  /** `new Date(getPostDate(post)).getTime()`, with `timeOf` the date parser;
      `None` stands for NaN, which the empty string always gives. */
  function DateKey(post: BlogPost, timeOf: string -> Option<int>): Option<int> {
    var date := GetPostDate(post);
    if date == "" then None else timeOf(date)
  }

  /** The comparator of `getLatestPosts` is negative, so `a` goes first, iff
      both dates parse and `a` is later; a NaN result counts as equal. */
  predicate Before(a: BlogPost, b: BlogPost, timeOf: string -> Option<int>) {
    DateKey(a, timeOf).Some? && DateKey(b, timeOf).Some?
    && DateKey(a, timeOf).value > DateKey(b, timeOf).value
  }

  predicate AllDated(posts: seq<BlogPost>, timeOf: string -> Option<int>) {
    forall i :: 0 <= i < |posts| ==> DateKey(posts[i], timeOf).Some?
  }

  predicate SortedDesc(posts: seq<BlogPost>, timeOf: string -> Option<int>)
    requires AllDated(posts, timeOf)
  {
    forall i, j :: 0 <= i < j < |posts| ==> DateKey(posts[i], timeOf).value >= DateKey(posts[j], timeOf).value
  }

  /** Places `p` ahead of the first post it does not follow. */
  function Insert(p: BlogPost, sorted: seq<BlogPost>, timeOf: string -> Option<int>): (r: seq<BlogPost>)
    ensures multiset(r) == multiset(sorted) + multiset{p}
    ensures |r| == |sorted| + 1
  {
    if sorted == [] || !Before(sorted[0], p, timeOf) then [p] + sorted
    else
      assert sorted == [sorted[0]] + sorted[1..];
      [sorted[0]] + Insert(p, sorted[1..], timeOf)
  }

  lemma AllDatedTail(s: seq<BlogPost>, timeOf: string -> Option<int>)
    requires s != [] && AllDated(s, timeOf)
    ensures AllDated(s[1..], timeOf)
  {
    forall i | 0 <= i < |s| - 1 ensures DateKey(s[1..][i], timeOf).Some? {
      assert s[1..][i] == s[i + 1];
    }
  }

  /** Every post is dated no later than `v`. */
  predicate DatedAtMost(s: seq<BlogPost>, v: int, timeOf: string -> Option<int>) {
    forall k :: 0 <= k < |s| ==> DateKey(s[k], timeOf).Some? && DateKey(s[k], timeOf).value <= v
  }

  lemma DatedAtMostCons(x: BlogPost, s: seq<BlogPost>, v: int, timeOf: string -> Option<int>)
    requires DatedAtMost(s, v, timeOf)
    requires DateKey(x, timeOf).Some? && DateKey(x, timeOf).value <= v
    ensures DatedAtMost([x] + s, v, timeOf)
  {
    var r := [x] + s;
    forall k | 0 <= k < |r| ensures DateKey(r[k], timeOf).Some? && DateKey(r[k], timeOf).value <= v {
      if k > 0 { assert r[k] == s[k - 1]; }
    }
  }

  lemma DatedAtMostTail(s: seq<BlogPost>, v: int, timeOf: string -> Option<int>)
    requires s != [] && DatedAtMost(s, v, timeOf)
    ensures DateKey(s[0], timeOf).Some? && DateKey(s[0], timeOf).value <= v
    ensures DatedAtMost(s[1..], v, timeOf)
  {
    forall k | 0 <= k < |s| - 1
      ensures DateKey(s[1..][k], timeOf).Some? && DateKey(s[1..][k], timeOf).value <= v
    {
      assert s[1..][k] == s[k + 1];
    }
  }

  lemma {:induction false} InsertAtMost(p: BlogPost, sorted: seq<BlogPost>, v: int, timeOf: string -> Option<int>)
    requires DatedAtMost(sorted, v, timeOf)
    requires DateKey(p, timeOf).Some? && DateKey(p, timeOf).value <= v
    ensures DatedAtMost(Insert(p, sorted, timeOf), v, timeOf)
    decreases |sorted|
  {
    if sorted == [] || !Before(sorted[0], p, timeOf) {
      DatedAtMostCons(p, sorted, v, timeOf);
    } else {
      DatedAtMostTail(sorted, v, timeOf);
      InsertAtMost(p, sorted[1..], v, timeOf);
      DatedAtMostCons(sorted[0], Insert(p, sorted[1..], timeOf), v, timeOf);
    }
  }

  /** A dated post no earlier than every post of a sorted sequence can lead it. */
  lemma ConsSorted(x: BlogPost, s: seq<BlogPost>, timeOf: string -> Option<int>)
    requires AllDated(s, timeOf) && SortedDesc(s, timeOf)
    requires DateKey(x, timeOf).Some? && DatedAtMost(s, DateKey(x, timeOf).value, timeOf)
    ensures AllDated([x] + s, timeOf) && SortedDesc([x] + s, timeOf)
  {
    var r := [x] + s;
    forall k | 0 <= k < |r| ensures DateKey(r[k], timeOf).Some? {
      if k > 0 { assert r[k] == s[k - 1]; }
    }
    forall i, j | 0 <= i < j < |r| ensures DateKey(r[i], timeOf).value >= DateKey(r[j], timeOf).value {
      assert r[j] == s[j - 1];
      if i > 0 { assert r[i] == s[i - 1]; }
    }
  }

  lemma SortedTail(s: seq<BlogPost>, timeOf: string -> Option<int>)
    requires s != [] && AllDated(s, timeOf) && SortedDesc(s, timeOf)
    ensures AllDated(s[1..], timeOf) && SortedDesc(s[1..], timeOf)
    ensures DatedAtMost(s[1..], DateKey(s[0], timeOf).value, timeOf)
  {
    var t := s[1..];
    AllDatedTail(s, timeOf);
    forall i, j | 0 <= i < j < |t| ensures DateKey(t[i], timeOf).value >= DateKey(t[j], timeOf).value {
      assert t[i] == s[i + 1] && t[j] == s[j + 1];
    }
    forall k | 0 <= k < |t| ensures DateKey(t[k], timeOf).Some? && DateKey(t[k], timeOf).value <= DateKey(s[0], timeOf).value {
      assert t[k] == s[k + 1];
    }
  }

  /** Inserting a dated post into dated posts sorted latest first keeps them
      sorted. */
  lemma {:induction false} InsertKeepsSorted(p: BlogPost, sorted: seq<BlogPost>, timeOf: string -> Option<int>)
    requires AllDated(sorted, timeOf) && SortedDesc(sorted, timeOf)
    requires DateKey(p, timeOf).Some?
    ensures AllDated(Insert(p, sorted, timeOf), timeOf)
    ensures SortedDesc(Insert(p, sorted, timeOf), timeOf)
    decreases |sorted|
  {
    if sorted == [] {
      ConsSorted(p, sorted, timeOf);
    } else if !Before(sorted[0], p, timeOf) {
      SortedTail(sorted, timeOf);
      var v := DateKey(p, timeOf).value;
      forall k | 0 <= k < |sorted| ensures DateKey(sorted[k], timeOf).Some? && DateKey(sorted[k], timeOf).value <= v {
        if k > 0 { assert sorted[k] == sorted[1..][k - 1]; }
      }
      ConsSorted(p, sorted, timeOf);
    } else {
      SortedTail(sorted, timeOf);
      InsertKeepsSorted(p, sorted[1..], timeOf);
      InsertAtMost(p, sorted[1..], DateKey(sorted[0], timeOf).value, timeOf);
      ConsSorted(sorted[0], Insert(p, sorted[1..], timeOf), timeOf);
    }
  }

  /** The order `allPosts.sort(...)` leaves the posts in, as a stable
      insertion sort under the comparator's order. */
  function SortByDateDesc(posts: seq<BlogPost>, timeOf: string -> Option<int>): (r: seq<BlogPost>)
    ensures multiset(r) == multiset(posts)
    ensures |r| == |posts|
    ensures AllDated(posts, timeOf) ==> AllDated(r, timeOf) && SortedDesc(r, timeOf)
  {
    if posts == [] then []
    else
      assert posts == [posts[0]] + posts[1..];
      var rest := SortByDateDesc(posts[1..], timeOf);
      if AllDated(posts, timeOf) then
        AllDatedTail(posts, timeOf);
        InsertKeepsSorted(posts[0], rest, timeOf);
        Insert(posts[0], rest, timeOf)
      else
        Insert(posts[0], rest, timeOf)
  }

  /** The posts of `s` whose parsed date is `key`, in their order in `s`. */
  function WithKey(s: seq<BlogPost>, key: Option<int>, timeOf: string -> Option<int>): (r: seq<BlogPost>)
    ensures forall i :: 0 <= i < |r| ==> DateKey(r[i], timeOf) == key
  {
    if s == [] then []
    else
      (if DateKey(s[0], timeOf) == key then [s[0]] else []) + WithKey(s[1..], key, timeOf)
  }

  lemma WithKeyCons(x: BlogPost, s: seq<BlogPost>, key: Option<int>, timeOf: string -> Option<int>)
    ensures WithKey([x] + s, key, timeOf)
         == (if DateKey(x, timeOf) == key then [x] else []) + WithKey(s, key, timeOf)
  {
    assert ([x] + s)[1..] == s;
  }

  /** `p` lands ahead of every post with its own date: among the posts with
      any one date, it is the first if it has that date and absent otherwise. */
  lemma {:induction false} InsertWithKey(p: BlogPost, sorted: seq<BlogPost>, key: Option<int>,
                                         timeOf: string -> Option<int>)
    ensures WithKey(Insert(p, sorted, timeOf), key, timeOf)
         == (if DateKey(p, timeOf) == key then [p] else []) + WithKey(sorted, key, timeOf)
  {
    if sorted == [] || !Before(sorted[0], p, timeOf) {
      WithKeyCons(p, sorted, key, timeOf);
    } else {
      var head, tail := sorted[0], Insert(p, sorted[1..], timeOf);
      assert Insert(p, sorted, timeOf) == [head] + tail;
      assert sorted == [head] + sorted[1..];
      var mine := if DateKey(p, timeOf) == key then [p] else [];
      var theirs := if DateKey(head, timeOf) == key then [head] else [];
      var rest := WithKey(sorted[1..], key, timeOf);
      InsertWithKey(p, sorted[1..], key, timeOf);
      WithKeyCons(head, tail, key, timeOf);
      WithKeyCons(head, sorted[1..], key, timeOf);
      // a post placed ahead of `p` is strictly later, so at most one of the
      // two has the date `key`
      assert mine == [] || theirs == [];
      Interleave(mine, theirs, rest);
    }
  }

  lemma Interleave(a: seq<BlogPost>, b: seq<BlogPost>, c: seq<BlogPost>)
    requires a == [] || b == []
    ensures b + (a + c) == a + (b + c)
  {
  }

  /** The sort is stable: posts with the same parsed date, and likewise the
      posts without one, keep their input order. */
  lemma {:induction false} SortByDateDescStable(posts: seq<BlogPost>, key: Option<int>,
                                                timeOf: string -> Option<int>)
    ensures WithKey(SortByDateDesc(posts, timeOf), key, timeOf) == WithKey(posts, key, timeOf)
  {
    if posts != [] {
      var rest := SortByDateDesc(posts[1..], timeOf);
      SortByDateDescStable(posts[1..], key, timeOf);
      InsertWithKey(posts[0], rest, key, timeOf);
      WithKeyCons(posts[0], posts[1..], key, timeOf);
      assert posts == [posts[0]] + posts[1..];
    }
  }

  /** `getLatestPosts(limit)` over the outcome of `getPosts()`: the first
      `limit` posts by descending date, or the rethrown error. */
  function GetLatestPosts(posts: Result<seq<BlogPost>, Thrown>, limit: int,
                          timeOf: string -> Option<int>): (r: Result<seq<BlogPost>, string>)
    ensures posts.Failure? ==>
      r == Failure("Failed to fetch latest posts: " + HandleNotionError(posts.error, "getLatestPosts").message)
    ensures posts.Success? && 0 <= limit ==>
      r.Success? && |r.value| == Min(limit, |posts.value|)
      && r.value == SortByDateDesc(posts.value, timeOf)[..Min(limit, |posts.value|)]
    ensures posts.Success? ==> r.Success? && multiset(r.value) <= multiset(posts.value)
  {
    match posts
    case Failure(error) =>
      Failure("Failed to fetch latest posts: " + HandleNotionError(error, "getLatestPosts").message)
    case Success(all) =>
      var sorted := SortByDateDesc(all, timeOf);
      var latest := JsText.Slice(sorted, 0, limit);
      SliceSubMultiset(sorted, 0, limit);
      Success(latest)
  }

  lemma SliceSubMultiset(s: seq<BlogPost>, start: int, end: int)
    ensures multiset(JsText.Slice(s, start, end)) <= multiset(s)
  {
    var a := JsText.SliceIndex(|s|, start);
    var b := JsText.SliceIndex(|s|, end);
    if a < b {
      assert s == s[..a] + s[a..b] + s[b..];
    }
  }

  /** Dated posts come out latest first, at most `limit` of them. */
  lemma LatestPostsDescending(posts: seq<BlogPost>, limit: int, timeOf: string -> Option<int>)
    requires AllDated(posts, timeOf)
    requires 0 <= limit
    ensures GetLatestPosts(Success(posts), limit, timeOf).Success?
    ensures |GetLatestPosts(Success(posts), limit, timeOf).value| <= limit
    ensures forall i, j :: 0 <= i < j < |GetLatestPosts(Success(posts), limit, timeOf).value| ==>
      DateKey(GetLatestPosts(Success(posts), limit, timeOf).value[i], timeOf).Some?
      && DateKey(GetLatestPosts(Success(posts), limit, timeOf).value[j], timeOf).Some?
      && DateKey(GetLatestPosts(Success(posts), limit, timeOf).value[i], timeOf).value
         >= DateKey(GetLatestPosts(Success(posts), limit, timeOf).value[j], timeOf).value
  {
    var sorted := SortByDateDesc(posts, timeOf);
    var n := Min(limit, |posts|);
    var r := GetLatestPosts(Success(posts), limit, timeOf).value;
    assert r == sorted[..n];
    forall i, j | 0 <= i < j < |r|
      ensures DateKey(r[i], timeOf).Some? && DateKey(r[j], timeOf).Some?
      ensures DateKey(r[i], timeOf).value >= DateKey(r[j], timeOf).value
    {
      assert r[i] == sorted[i] && r[j] == sorted[j];
    }
  }
}
