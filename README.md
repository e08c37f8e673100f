# coding-the-road core, modelled in Dafny

This project models the logic that runs behind the Coding the Road blog front end. Each part is stated as Dafny definitions, and properties are proved about them:

- **Rate limiter (`src/middleware.ts`).** The request middleware runs a fixed-window limiter keyed by client IP. The model covers that limiter, the choice of client IP from proxy headers, the periodic sweep of old records, and the allow/deny decision. The limiter is a class whose `requestCounts` map is updated in place. Its methods are proved against the pure function `CheckRateLimitSpec` and the `Sweep` function.
- **Notion block renderer (`src/components/NotionBlocks.tsx`).** The model covers rich-text spans, single blocks, tables with their header-cell rule, and the left-to-right grouping scan. The scan collapses runs of bulleted items into one list and table rows into one table.
  - Output is an abstract element datatype, not JSX.
  - The scan is a `while` loop. It is proved equal to a fold of one iteration (`Step`).
  - For well-formed pages, the fold is proved equal to an independent segment-by-segment grouping.
- **Notion post helpers (`src/lib/notion.ts`).** The field extractors, error classification, the outcome mapping of `getPostById`, and `getLatestPosts` over a given post list.
- **Articles page (`src/app/articles/page.tsx`).** Page-number parsing, `totalPages`, the page slice and the pagination controls.
- **Discord error notifier (`src/lib/discord.ts`).** Level colours and icons, error-detail defaults, the context-field builder with its truncation rules, and the error embed layout.
- **Sitemap (`src/app/sitemap.ts`)** as a function of the post list.
- **Input validation (`src/lib/validation.ts`).** The post-id and comment length schemas.

Modules follow the source files:

- `Middleware`
- `NotionBlocks` and `NotionBlocksGrouping`
- `Notion` and `NotionTypes`
- `ArticlesPage`
- `Discord`
- `Sitemap`
- `Validation`

Two helper modules support them:

- `JsText` holds the JavaScript string semantics the code relies on: `trim`, `split(',')[0]`, `includes` and `slice` with negative bounds.
- `Wrappers` holds `Option` and `Result`.

Several things are inputs of the model rather than computed by it:

- the clock, for `Date.now()` and `new Date()`;
- date parsing, for `new Date(s).getTime()`, where `None` stands for NaN;
- locale formatting and `JSON.stringify`;
- the result of `parseInt` on the `page` search parameter;
- the limiter's `max` and `window`, taken as integers;
- the email rule of the comment schema and the random draw that gates the sweep.

"## Left out" says what each of these leaves unmodelled.

Some behaviour of the code differs from how such code is usually read. The model follows the code:

- **Window expiry is strict** (`record.reset < now`, `src/middleware.ts:91`). A fixed-window limiter is usually read as starting a new window once `now >= reset`. In this code, at `now == reset` the old window still applies.
- **Allowed calls per window.** The limit is named `max`, and the limiter counts up to `max` requests per window. Yet the decision at `src/middleware.ts:233` lets only `max - 1` of them through (see Findings).
- **`numbered_list_item` blocks render as nothing.** They carry rich text just as bulleted items do, but `renderBlock` (`src/components/NotionBlocks.tsx:156-235`) has no case for them, so they fall to the default and give `null`.
- **OPTIONS requests get status 200 with headers only, even when rate-limited** (`src/middleware.ts:264-267`). The limiter still counts them.

## Model

| member | source | states |
|---|---|---|
| Middleware.CheckRateLimitSpec | src/middleware.ts:85-126 | Always reports `limit == max` and the window. Only the entry for `ip` changes. With no live record (none, or `reset < now`), it stores `{1, now+window}` and reports `max-1`. A live record at `count >= max` leaves the store unchanged and reports 0 with the old reset. Otherwise the count rises by exactly one, with `remaining = max - count` and the reset unchanged. Given `max >= 1`, counts stay in `1..max` and `0 <= remaining <= max-1`. |
| Middleware.Sweep | src/middleware.ts:69-78 | Keeps exactly the entries whose `reset >= now - window`, unchanged. |
| Middleware.RateLimiter.constructor | src/middleware.ts:38-44 | Creates an empty store with the configured window and max. It requires the bounds the environment schema enforces (`max >= 1`, `window >= 1000`). |
| Middleware.RateLimiter.CheckRateLimit | src/middleware.ts:85-126 | The new store and the returned info are those of `CheckRateLimitSpec` on the old store. It keeps the store invariant and `0 <= remaining <= max-1`. |
| Middleware.RateLimiter.CleanupExpiredRecords | src/middleware.ts:69-78 | The loop that deletes while iterating leaves exactly `Sweep(old store)` and keeps the invariant. |
| Middleware.RateLimiter.HandleRequest | src/middleware.ts:221-233 | Runs an optional sweep, then computes the client IP, then the check. The store and the info are the check's on the (possibly swept) store. The response is `Respond` of the method and the info. |
| Middleware.GetClientIP | src/middleware.ts:51-63 | A non-empty `x-forwarded-for` gives the trimmed text before its first comma, and the result then contains no comma. Otherwise it falls back in order to `x-real-ip`, then `cf-connecting-ip`, then `"unknown"`. Empty headers count as absent. |
| Middleware.Respond | src/middleware.ts:233-269 | OPTIONS gets the preflight response. Any other method gets 429 iff `remaining <= 0`, and is forwarded iff `remaining > 0`. |
| Middleware.CallsInsideWindow | src/middleware.ts:108-125 | Inside a live window holding `count`, the k-th further call sees the same reset and `remaining = max - min(count+k+1, max)`. It is not counted iff `count + k >= max`. |
| Middleware.CallsWithinOneWindow | src/middleware.ts:91-125 | For calls within one window of a fresh start, call k (from 0) reports `remaining = max - min(k+1, max)` and the reset `t0 + window`. It is not counted iff `k >= max`. |
| Middleware.DeniedFromCallMax | src/middleware.ts:233 | As written, call k (from 0) in one window is denied iff `k + 1 >= max`, so only `max-1` calls pass. |
| Middleware.MaxOneDeniesEveryRequest | src/middleware.ts:99-104 | With `max = 1`, every request is denied, including the first of a fresh window. |
| Middleware.IntendedAllowsMaxPerWindow | src/middleware.ts:108-115 | With the corrected decision `Rejects` (refuse what the limiter declined to count), call k is refused iff `k + 1 > max`, so exactly `max` calls pass. |
| Middleware.SweepIsTransparent | src/middleware.ts:69-91 | A sweep at or before the check time changes neither the reported info nor the client's record. Every entry left after the check is also present without the sweep, with the same record. |
| JsText.Trim | src/middleware.ts:59 | The result is the input with exactly the leading and trailing whitespace removed. It is empty iff the input is all whitespace, and it adds no character. |
| JsText.TrimUnique | src/lib/notion.ts:87 | Any string meeting the trim specification equals `Trim(s)`. |
| JsText.TrimIdempotent | src/lib/notion.ts:87 | Trimming twice equals trimming once. |
| JsText.BeforeFirstComma | src/middleware.ts:59 | The result is a prefix of the input without a comma, followed in the input by a comma or the end. |
| JsText.Slice | src/lib/notion.ts:273 | Never longer than the input. For `0 <= start <= end`, it is the clamped subsequence. For `0 <= end <= start`, it is empty. |
| NotionTypes.JoinPlainTextAppend | src/lib/notion.ts:84-86 | Joining the texts distributes over concatenation of the item list. |
| NotionBlocks.RenderSpan | src/components/NotionBlocks.tsx:110-147 | The innermost text is `plain_text`. The wrappers from outside in are link, code, italic, bold, each present iff its annotation is. Underline and strikethrough add nothing. |
| NotionBlocks.RenderRichText | src/components/NotionBlocks.tsx:110-148 | One span per item, in order. |
| NotionBlocks.RenderTable | src/components/NotionBlocks.tsx:265-301 | One row per row and one cell per cell. A row is a header row iff it is first and the table has a column header. A cell is a header cell iff `(hasColumnHeader && row == 0) \|\| (hasRowHeader && cell == 0)`. Cell content is the cell's spans. |
| NotionBlocks.RenderBlock | src/components/NotionBlocks.tsx:156-235 | A code block always renders. Its language is `language`, or `"text"` when absent or empty. Its text is the joined `plain_text` of its spans, or `""`. Table, row and unsupported blocks render nothing. A paragraph, heading or bullet renders iff it has `rich_text`, as its spans. Only a bullet gives a list item. No single block gives a list or a table. |
| NotionBlocks.Step | src/components/NotionBlocks.tsx:315-339 | A table block flushes the list and records its info. A row never emits or flushes; its payload (if any) is appended and others are dropped. Any other block first flushes a ready table (info set and at least one row). A rendered bullet then joins the open list. Any other block flushes the list and emits its own element, if it renders. |
| NotionBlocks.StepInvariant | src/components/NotionBlocks.tsx:315-339 | Emitted elements are never taken back. One block opens at most one group. Every emitted element stays a well-formed top-level element. |
| NotionBlocks.ScanInvariant | src/components/NotionBlocks.tsx:315-339 | The same three facts over a whole sequence of blocks. |
| NotionBlocks.Finish | src/components/NotionBlocks.tsx:341-342 | The final flushes only append, at most one element per open group. |
| NotionBlocks.FinishGrouped | src/components/NotionBlocks.tsx:244-263 | After the final flushes, every element is top-level: no bare list item, lists non-empty and made of items, tables non-empty. |
| NotionBlocks.Render | src/components/NotionBlocks.tsx:240-345 | At most one element per block. Every element is top-level. No blocks give no output. |
| NotionBlocks.ScanAppend | src/components/NotionBlocks.tsx:315-339 | Scanning `a + b` is scanning `a`, then `b`. |
| NotionBlocks.RenderBlocks | src/components/NotionBlocks.tsx:240-344 | The loop with its list and table buffers, followed by the two final flushes, returns exactly `Render(blocks)`. |
| NotionBlocksGrouping.RenderIsGrouped | src/components/NotionBlocks.tsx:240-344 | On a well-formed page the output is, in input order: one list per maximal run of rendered bullets, one table per table block with the rows that follow it, and each other block's element. |
| NotionBlocksGrouping.HeaderRowTable | src/components/NotionBlocks.tsx:274-280 | A column-header table followed by two rows gives one table whose first row only is the header row. |
| NotionBlocksGrouping.ListThenParagraph | src/components/NotionBlocks.tsx:325-337 | Two bullets and then a paragraph give one list of both items, then the paragraph. |
| NotionBlocksGrouping.OrphanRowJoinsNextTable | src/components/NotionBlocks.tsx:321-324 | A row seen before any table block is kept and joins the next table. |
| NotionBlocksGrouping.ListEmittedBeforeTable | src/components/NotionBlocks.tsx:341-342 | At end of input, the open list is emitted before the open table, even though the table block came first. |
| NotionBlocksGrouping.AdjacentTablesMerge | src/components/NotionBlocks.tsx:318-320 | A second table block before a flush overwrites the info. Both tables' rows then come out as one table with the second info. |
| Notion.ExtractPlainText | src/lib/notion.ts:83-88 | The result is the trim of the items' `plain_text`, concatenated in order. |
| Notion.GetPostTitle | src/lib/notion.ts:95-97 | Returns `"Untitled"` iff the extracted title is empty or is itself `"Untitled"`. Otherwise returns the extracted title. Never returns empty. |
| Notion.GetPostDescription | src/lib/notion.ts:104-106 | The trim of the description's concatenated text. |
| Notion.GetPostDate | src/lib/notion.ts:113-115 | `date.start`, or `""` without a date. |
| Notion.FormatPostDate | src/lib/notion.ts:123-136 | `""` for an empty date. Otherwise the formatted date, or the raw date when formatting throws. |
| Notion.IsPostPublished | src/lib/notion.ts:143-145 | True iff the Published checkbox is present and checked. |
| Notion.HandleNotionError | src/lib/notion.ts:46-62 | Always keeps the context. An `Error` gives code `NOTION_API_ERROR` with its message and its name as `originalError`. Anything else gives `UNKNOWN_ERROR` with "Unknown error occurred". |
| Notion.GetPostById | src/lib/notion.ts:195-233 | An empty id gives `null` before any fetch. A successful fetch gives the page with its blocks as content. A failure gives `null` iff the classified message contains "not found" or "404". Otherwise it rethrows "Failed to fetch post: " plus that message. |
| Notion.Insert | src/lib/notion.ts:268-272 | Adds exactly one post to the multiset. |
| Notion.InsertKeepsSorted | src/lib/notion.ts:268-272 | Inserting a dated post into dated posts sorted latest-first keeps them sorted. |
| Notion.SortByDateDesc | src/lib/notion.ts:268-272 | The result is a permutation of the input. When every post has a parseable date, the result is ordered latest first. |
| Notion.InsertWithKey | src/lib/notion.ts:268-272 | Among the posts with any one parsed date, or among the undated ones, the inserted post comes first if it belongs there and is absent otherwise. The others keep their order. |
| Notion.SortByDateDescStable | src/lib/notion.ts:268-272 | The sort is stable: the posts with any one parsed date, and the undated posts, appear in their input order. |
| Notion.GetLatestPosts | src/lib/notion.ts:264-278 | A failed `getPosts` rethrows "Failed to fetch latest posts: " plus the classified message. For `limit >= 0`, the result is the first `min(limit, n)` sorted posts. It is always a sub-multiset of the input. |
| Notion.LatestPostsDescending | src/lib/notion.ts:264-273 | For dated posts, at most `limit` come back, latest first. |
| ArticlesPage.PageNumber | src/app/articles/page.tsx:26 | A missing parameter means page 1. Otherwise the page is `parseInt` of the parameter (`None` for NaN). |
| ArticlesPage.TotalPages | src/app/articles/page.tsx:36 | The least `t` with `10t >= n`, which is 0 iff there are no posts. |
| ArticlesPage.PagePosts | src/app/articles/page.tsx:37-38 | For page `p >= 1`, the posts are `sorted[min(10(p-1), n) .. min(10p, n)]`. NaN and page 0 give none. A negative page counts from the end. There are never more than 10 posts. |
| ArticlesPage.Paginate | src/app/articles/page.tsx:98-126 | Pagination shows iff `totalPages > 1`. Previous, to `page-1`, shows iff pagination shows and `page > 1`. Next, to `page+1`, shows iff pagination shows and `page < totalPages`. The empty notice shows iff the page has no posts. |
| ArticlesPage.ArticlesPageView | src/app/articles/page.tsx:20-38 | The page is paginated from the date-sorted posts. It shows only posts of the input. |
| ArticlesPage.PagePostsSubMultiset | src/app/articles/page.tsx:38 | A page holds only posts of the sorted list. |
| ArticlesPage.EmptyPageIffPastEnd | src/app/articles/page.tsx:122-126 | For page `p >= 1`, "No articles found" shows iff `10(p-1) >= n`. |
| ArticlesPage.PagesCoverAllPosts | src/app/articles/page.tsx:36-38 | Pages 1 to `totalPages`, concatenated, give back the sorted list exactly. |
| Discord.GetLevelConfig | src/lib/discord.ts:194-209 | Maps error, warning, success and debug to their colour and icon. Any other value, info included, gets the info colour and icon. |
| Discord.LevelColorsDistinct | src/lib/discord.ts:11-17 | The five levels have pairwise different colours and icons. |
| Discord.ExtractErrorDetails | src/lib/discord.ts:103-115 | Name and message keep their value when truthy, else get their default. The stack is its first 1000 characters, or the default when absent or empty. A cause is present iff it is truthy, as its string. Stack length is at most 1000, and no field is empty. |
| Discord.Truncate | src/lib/discord.ts:137 | Unchanged when at most `n` long. Otherwise the first `n` characters plus "...", exactly `n + 3` long. |
| Discord.BuildContextFields | src/lib/discord.ts:122-187 | The pushes return exactly `ContextFields`. |
| Discord.ContextFieldsShape | src/lib/discord.ts:122-187 | At most seven fields, in strictly increasing place in the order environment, url, method, function, ip, userAgent, metadata. Each field is the one its entry makes, truncation included. Each has the right `inline` flag and a bound on its length. There is a field for an entry iff that entry is truthy, metadata iff it has a key. |
| Discord.ContextFieldsIgnoreUnusedEntries | src/lib/discord.ts:122-187 | Headers, userId, type and timestamp never change the fields. |
| Discord.ErrorEmbed | src/lib/discord.ts:269-303 | Error colour and title. Description `**name**\nmessage`. Timestamp is the context's, else now. Fields are the time field, then `ContextFields`, then the fenced stack field. Footer "Tech Blog Error Monitor". |
| Sitemap.Sitemap | src/app/sitemap.ts:4-26 | `3 + n` entries: home, `/about` and `/articles` with the build time, then each post in order with url `.../posts/` plus id and its `last_edited_time`. |
| Sitemap.PostIdOf | src/app/sitemap.ts:8 | Strips the posts prefix: prefix plus result gives back the URL. |
| Sitemap.PostUrlsRecoverIds | src/app/sitemap.ts:7-10 | Every post entry's URL starts with the posts prefix, and stripping it gives back the post's id. |
| Sitemap.DistinctIdsDistinctUrls | src/app/sitemap.ts:8 | Posts with different ids get different URLs. |
| Sitemap.PostUrlsAreNotFixedPages | src/app/sitemap.ts:12-25 | No post URL equals a fixed page's URL. |
| Validation.LengthIssues | src/lib/validation.ts:3 | `min/max` length issues: empty iff the length is in bounds. A too-small issue iff below the minimum, a too-big issue iff above the maximum. |
| Validation.ValidatePostId | src/lib/validation.ts:11-13 | Parsed, as the id itself, iff `1 <= length <= 100`. Otherwise it returns a rejection value carrying the issue; it never throws. |
| Validation.ValidateComment | src/lib/validation.ts:5-9 | Parsed iff content is 1..1000 long, the author is 1..50 long, and the email rule accepts. Each violation has its own issue. |

## Left out

- **Clock and randomness.**
  - `Date.now()` and `new Date()` are the `now` parameters.
  - `Math.random() < 0.1`, which gates the sweep, is the `sweep` flag of `HandleRequest`.
- **Concurrency.** The process-wide `requestCounts` map is shared across concurrent requests. It is modelled as one single-threaded object.
- **Middleware.RateLimiter.CheckRateLimit: in-place increment.** `record.count += 1` mutates the stored record object. The model replaces the map entry with an updated record value. No other reference to a record exists, so nothing observable is lost.
- **Response details.** The security, CORS and rate-limit header constants are left out. So are the JSON bodies, `retryAfter` (a ceiling division on milliseconds) and request logging. `Respond` gives only the kind of response.
- **Discord failure path.** The 500 branch of the middleware and the Discord call it makes are not modelled. They depend on a thrown exception and the network.
- **JS string lengths.** The source measures strings in UTF-16 code units. The model's `string` counts characters, so the 100-, 200-, 500-, 1000-, 50- and length bounds are stated per character.
- **Notion block ids and React keys.** Both are presentation only and are left out. So are the JSX markup and classes, and the development-only logging effect.
- **The `renderTable` error placeholder.** Rendering a pure value cannot throw, so the `catch` branch is not modelled.
- **Network calls, and dev-mode short-circuits.** Every Notion API call (`getPosts`, `pages.retrieve`, `blocks.children.list`, `getDatabaseInfo`, `testNotionConnection`, `getPostsCount`) and the lazy client are left out. Their results are inputs: `getPostById` takes a `PageFetch`, and `getLatestPosts` takes a `Result` of the post list. The same applies to `sendToDiscord`'s `fetch` and the dev-mode short-circuits.
- **Date parsing and locale formatting.** `new Date(s).getTime()` is the `timeOf` parameter. `toLocaleDateString` and the Asia/Tokyo `toLocaleString` are the `format` and `formatTime` parameters.
- **Notion.SortByDateDesc: sort order on mixed dates.** When some dates are missing or unparseable, the comparator returns NaN, which counts as "equal" and is not a consistent order. The JavaScript engine's result then depends on its sort algorithm. The model fixes one order (a stable insertion sort) and proves sortedness only when every post is dated. Permutation is proved in all cases.
- **Sort in place.** `allPosts.sort` reorders the cached array in place. The model returns a sorted copy.
- **`JSON.stringify` of metadata** is the `stringify` parameter. The model's metadata keeps only string values.
- **The email rule of `CommentSchema`.** It is zod's own check and is not visible, so it is the `emailOk` parameter of `ValidateComment`.
- **Notion.SortByDateDescStable: stability beyond dated posts.** The standard makes `Array.prototype.sort` stable (ECMAScript 2019 onwards) for a consistent comparator. That covers the all-dated case. On mixed dates the lemma describes the model's fixed order, not a promise of the engine.
- **ArticlesPage.PageNumber: `parseInt` is not modelled.** `Given(parsed)` takes the parse result as an input. JavaScript's `parseInt` without a radix reads `"0x10"` as 16, reads `" 2"` and `"2abc"` as 2, and gives NaN for `"abc"`. Only NaN is visible, as `None`. `Missing` stands for both an absent and an empty parameter, since `params?.page ?` treats `""` as absent.
- **Middleware.RateLimiter.constructor: integral `max` and `window`.** `RATE_LIMIT_MAX` and `RATE_LIMIT_WINDOW_MS` are `z.coerce.number()` (`src/lib/env.ts:24-25`), so either may be a fraction. The model takes them as integers. With `max = 1.5`, the first call would report `remaining = 0.5`, and a second call in the window would store `count = 2 > max`. So `CountsBounded` and the bounds in `CheckRateLimitSpec` hold only for an integral `max`.
- **Middleware.RateLimiter.HandleRequest: one clock reading.** The sweep and the check each call `Date.now()` (`src/middleware.ts:70` and `:86`). The model passes one `now` to both. This loses nothing: the sweep runs first, so its clock is no later than the check's, and whatever it removes has already expired for the check (`SweepIsTransparent`).
- **Notion.GetLatestPosts and Notion.FormatPostDate: default arguments.** `limit = 4` (`src/lib/notion.ts:264`) and `locale = 'ja-JP'` (`src/lib/notion.ts:123`) are not modelled as defaults. `limit` is always passed explicitly. The locale lives inside the `format` parameter.
- **`getPostById` type check.** Its `typeof pageId !== 'string'` guard needs no model: the id is a `string` by type.
- **The JSON-LD block of the articles page** is presentation only. It is not modelled.

## Findings

| source | as written | input that shows it | evidently intended | confidence | as-written member | corrected member |
|---|---|---|---|---|---|---|
| src/middleware.ts:233 | A request is denied when `remaining <= 0`. The check already reports `remaining = max - count` after counting this request. | With `max = 100`, 100 requests in one window: the 100th is counted (count 100), gets `remaining = 0`, and is answered 429. With `max = 1`, the first request of every window is refused. | Refuse only the requests the limiter refused to count (`count >= max` before the call), so that `max` requests pass per window. | medium, not executed | Middleware.DeniedFromCallMax | Middleware.IntendedAllowsMaxPerWindow |

`Middleware.RateLimiter.HandleRequest` and `Middleware.Respond` keep the decision as written, so they describe what the middleware does. The corrected decision is `Middleware.Rejects`: refuse exactly the requests the limiter declined to count, which `Run` records as `rejected`. `IntendedAllowsMaxPerWindow` is proved about that decision.
