# Category page window resolver

A Dafny model of the category page handler of a NodeBB plugin
(`categoryController.get` in `lib/category.js`). Given a request for a forum
category page, the handler decides, before it fetches any topic, whether the
request is not found, forbidden or to be redirected, and otherwise which
window of topic ids to read: the storage set (or list of sets to intersect),
the direction, the inclusive `start`/`stop` offsets, the current page and the
page count. Around the fetched topics it then builds the breadcrumb trail,
the RSS feed url, and the meta and link tags of the page.

The model is in six files:

- `window.dfy` (module `CategoryWindow`): the request, category, settings
  and outcome as datatypes, and the resolver `Resolve` as one pure function.
  Everything the handler fetches first (category slug, `disabled` and
  `topic_count` fields, the read privilege, the user settings, the uid the
  `author` slug resolves to) is part of its input.
- `window_properties.dfy` (module `WindowProperties`): what the resolver
  guarantees: the order of its guards, the index redirect, the page bounds,
  where a deep link lands, and how the storage set and order are chosen.
- `window_examples.dfy` (module `WindowExamples`): concrete requests and
  their outcomes.
- `navigation.dfy` (module `Navigation`): breadcrumbs, RSS url, meta and
  link tags, and the response locals (`res.locals`) as a class whose methods
  replace and append to its tag lists the way the handler does, including the
  loop that makes each pagination link absolute in place.
- `decimal.dfy`, `wrappers.dfy`: decimal rendering of integers (as string
  concatenation renders an integer below 10^21) and `Option`.

How the request is read, following the code:

- `currentPage` is `parseInt(page) || 1`: a missing, empty, non-numeric or
  zero page gives 1, a negative page is kept. A non-empty `page` parameter
  (even "0") counts as supplied when the handler asks whether a page was
  given.
- With pagination off the page is never range-checked and still feeds
  `start`, so `start` can be negative.
- A resolved author uid replaces the set chosen by the sort and keeps the
  direction; a uid of 0 counts as unresolved.
- A `tag` given once adds one tag set; a repeated `tag` (an array) adds one
  per element in order; an empty string adds none; an empty array still
  turns the set into a one-element list.
- An absent `slug` path parameter is rendered as the text `undefined` in the
  out-of-range index redirect, as string concatenation does.

Further facts of the code that the model keeps:

- The storage-set keys are `cid:<cid>:tids`, `cid:<cid>:tids:posts`,
  `cid:<cid>:uid:<uid>:tids` and `tag:<tag>:topics`.
- A Success without pagination may have a page outside `[1, pageCount]` and
  a negative `start`.
- The RSS url starts with the site url.

## Model

| member | source | states |
|---|---|---|
| `CategoryWindow.Resolve` | lib/category.js:20-126 | a Success only for a well-formed request on an available, readable category under its canonical slug; its window holds exactly `topicsPerPage` offsets, and its page count is the one of line 67 (`max(1, ceil(topicCount / topicsPerPage))`) whether pagination is on or off |
| `CategoryWindow.CeilDiv` | lib/category.js:67 | `Math.ceil(a / b)`: the least `r` with `r * b >= a` |
| `CategoryWindow.PageCount` | lib/category.js:67 | at least one page, enough pages for every topic, and no more than that |
| `CategoryWindow.Recentred` | lib/category.js:77-78 | the unpaginated start index lies in `[0, topicIndex]`; it is 0 exactly when the index is at most `ceil(topicsPerPage / 2) - 1`, and otherwise exactly `ceil(topicsPerPage / 2) - 1` indices before the topic |
| `CategoryWindow.TagKeys` | lib/category.js:120-123 | one `tag:<t>:topics` key per tag, same length, same order |
| `Decimal.NatToString` | lib/category.js:70 | a number renders as a non-empty string of digits without a leading zero whose decimal value is the number |
| `Decimal.NatToStringInjective` | lib/category.js:70 | different counts render as different strings |
| `Decimal.IntToString` | lib/category.js:116 | a uid renders as its decimal digits, preceded by a minus sign exactly when it is negative |
| `Decimal.IntToStringInjective` | lib/category.js:116 | different uids render as different strings |
| `WindowProperties.GuardPrecedence` | lib/category.js:28-62 | malformed ids, then unavailable category, then missing read privilege, then non-canonical slug decide, the first match winning |
| `WindowProperties.ForbiddenExactly` | lib/category.js:56-58 | Forbidden if and only if the request is well formed, the category available and the read privilege missing |
| `WindowProperties.UnavailableNeverShown` | lib/category.js:52-54 | a category without a slug or with `disabled` 1 is always not found |
| `WindowProperties.CanonicalRequestLikeApi` | lib/category.js:60-62 | with a matching slug, or a bare `<cid>/` canonical slug, a page request resolves exactly like the same request through the API |
| `WindowProperties.IndexRedirect` | lib/category.js:65-71 | past the first guards, a redirect happens if and only if the topic index is outside `[0, max(topicCount - 1, 0)]`; the `/<topicCount>` suffix appears only when the index exceeds the count |
| `WindowProperties.IndexRedirectNeedsIndex` | lib/category.js:65-71 | only a request carrying a `topic_index` can get the index redirect |
| `WindowProperties.PageOutOfRangeNotFound` | lib/category.js:73-75 | past the slug guards, not found if and only if the reader may read, the slug is canonical, the index is in range, pagination is on and the page is outside `[1, pageCount]` |
| `WindowProperties.PaginatedWindowBounds` | lib/category.js:65-97 | every paginated Success has `1 <= currentPage <= pageCount`, the page count of line 67, and `start >= 0` |
| `WindowProperties.ExplicitPageWindow` | lib/category.js:22-97 | a paginated request naming its page gets that page as parsed, and its window starts `topicIndex` past the page's first topic, the index not being reset |
| `WindowProperties.UnpaginatedWindow` | lib/category.js:73-97 | without pagination the page is the parsed one, the page count is that of line 67, and the window's offset within its page lies in `[0, topicIndex]`; it is 0 exactly when the index is at most `ceil(topicsPerPage / 2) - 1`, otherwise exactly `ceil(topicsPerPage / 2) - 1` before the topic |
| `WindowProperties.UnpaginatedPageUnchecked` | lib/category.js:22-97 | without pagination any non-zero page is served as given and only shifts the window by whole pages |
| `WindowProperties.DeepLinkOffsetHoldsTopic` | lib/category.js:77-83 | without a `page` parameter, the page and offset chosen for a topic index (recentred, or moved to the topic's page) describe a window containing that topic |
| `WindowProperties.DeepLinkWindowHoldsTopic` | lib/category.js:77-97 | without a `page` parameter the fetched window always contains the requested topic, paginated or not |
| `WindowProperties.DeepLinkPage` | lib/category.js:79-83 | with pagination and no `page`, the page is the one holding the topic and the window starts at its first topic |
| `WindowProperties.SetSelection` | lib/category.js:85-117 | a non-empty query sort is used, else the setting; reversed exactly for newest-first and most-posts; the base set is the author's, else the post-count set for most-posts, else the category set |
| `WindowProperties.AuthorKeyInjective` | lib/category.js:115-117 | different author uids give different author set keys |
| `WindowProperties.TagSetShape` | lib/category.js:119-126 | no tag or an empty tag keeps one set; one tag gives `[base, tag]`; a tag list gives the base followed by one key per tag, length one more than the list |
| `WindowProperties.AuthorOnlyChangesSet` | lib/category.js:113-117 | the author filter changes only the set: same outcome kind, order, bounds and pages |
| `WindowProperties.TagOnlyChangesSet` | lib/category.js:119-126 | the tag filter changes only the set, and the base set stays first |
| `WindowExamples.MissingSlugRedirects` | lib/category.js:60-62 | `/category/5` with canonical slug `5/general` redirects to `/category/5/general` |
| `WindowExamples.CanonicalSlugServed` | lib/category.js:60-126 | `/category/5/general` is served: first page, offsets 0 to 19 |
| `WindowExamples.IndexBeyondCountRedirects` | lib/category.js:69-71 | topic 50 of 10 redirects to `/category/5/general/10` |
| `WindowExamples.IndexAtCountRedirectsBare` | lib/category.js:69-71 | an index equal to the count redirects without the count suffix |
| `WindowExamples.DisabledNotFound` | lib/category.js:52-54 | a disabled category is not found |
| `WindowExamples.UnpaginatedRecentres` | lib/category.js:77-78 | topic 21 at 20 per page without pagination starts the window at index 11 |
| `WindowExamples.UnpaginatedNegativePage` | lib/category.js:22-97 | page -2 without pagination reaches the store with `start` -60 |
| `WindowExamples.PageZeroIsFirstPage` | lib/category.js:22-97 | page "0" parses to page 1 yet counts as given, so a deep link to topic 40 keeps its index: offsets 39 to 58 |
| `WindowExamples.PageBeyondLastNotFound` | lib/category.js:73-75 | page 4 of 3 with pagination is not found |
| `WindowExamples.DeepLinkToSecondPage` | lib/category.js:79-83 | topic 40 at 20 per page lands on page 2, offsets 20 to 39 |
| `WindowExamples.QuerySortWins` | lib/category.js:87-94 | query `most_posts` over setting `newest_to_oldest` reads the post-count set, reversed |
| `WindowExamples.AuthorKeepsOrder` | lib/category.js:91-117 | an author with most-posts reads the author's set, still reversed |
| `WindowExamples.TwoTagsThreeSets` | lib/category.js:119-123 | two tags give three sets, base first, tags in request order |
| `Navigation.BuildBreadcrumbs` | lib/category.js:180-196 | the ancestors' crumbs unchanged, followed by one crumb for the category linking to `relative_path/category/<slug>` |
| `Navigation.RssFeedUrl` | lib/category.js:157-161 | the feed url is `url/category/<cid>.rss`, with `?uid=<uid>&token=<token>` appended exactly when the uid is non-zero |
| `Navigation.CategoryMetaTags` | lib/category.js:199-223 | title, og:title, description, og:type=website in that order, plus a fifth og:image tag exactly when a background image is set |
| `Navigation.CategoryLinkTags` | lib/category.js:225-235 | exactly the RSS alternate link and the `up` link to the site url, in that order |
| `Navigation.Absolutised` | lib/category.js:169-170 | each pagination link keeps its rel and type and gets the category page url in front of its href, same order |
| `Navigation.ResponseLocals.AddTags` | lib/category.js:198-236 | the response's meta and link tags become exactly those of the category page |
| `Navigation.ResponseLocals.AddPaginationLinks` | lib/category.js:169-172 | each pagination link is made absolute in place and appended, in order, to the link tags; the meta tags are untouched |
| `Navigation.DecoratePage` | lib/category.js:157-172 | the page ends with the category's meta tags and its two link tags followed by the absolute pagination links, and the pagination's own links are left absolute in place |

## Left out

- The asynchronous sequencing (`async.parallel`, `async.waterfall`) and the
  callbacks: the fetched values are inputs of `Resolve`, and a failing
  collaborator (which aborts the request) is not modelled.
- The collaborators whose code is not part of this model: the category
  store, privileges, user settings, feed token, author lookup, breadcrumb
  service, `pagination.create`, `translator.escape`, `utils.isNumber`. Their
  results are parameters; `isNumber` is a flag on each raw parameter.
- The side effects: click counting and the redirect of link categories
  (lines 135-138), `categories.markAsRead` (line 159), the recent replies of
  child categories (lines 142-152) and `res.render` (line 174).
- The rest of the render payload (escaped description and title, privileges,
  `showSelect`, `feeds:disableRSS`, the `modifyTopicsByPrivilege` filter) and
  the second page count of line 167, which only feeds `pagination.create`;
  the pagination links it returns are an input of `AddPaginationLinks`.
- The global configuration: the site `url` and `relative_path` are
  parameters.
- `payload.uid`, `payload.settings` and `payload.targetUid`, which are passed
  through to the category store unchanged.
- A `topic_index` that `utils.isNumber` accepts but `parseInt` reads as NaN
  (such as ".5"), a `topic_count` field that is not a number, and query
  parameters given as arrays other than `tag`.
- `CategoryWindow.Resolve`: requires `topicsPerPage > 0`, which the user
  settings provide; with 0 the source's page count becomes floating-point
  infinity when there are topics, and NaN when there are none (`0 / 0`,
  which `Math.max` passes on).
- The source's numbers are JavaScript doubles; the model's are unbounded
  integers. Precision loss above 2^53 (topic counts, uids and the `start`
  and `stop` arithmetic of lines 96-97) and the exponent form a number of
  10^21 or more takes in string concatenation (`1e+21`, in the line-70
  redirect and the line-116 author key) are not modelled.
- library.js: a stub router with no logic.
