/**
 * The topic-window resolver of the category page handler
 * (`categoryController.get` in lib/category.js).
 *
 * Every value the handler fetches before it decides anything (the category's
 * slug, disabled flag and topic count, the read privilege, the user settings,
 * the uid the author slug resolves to) is an input here, so the whole decision
 * is one pure function, `Resolve`, from the request to an `Outcome`: an early
 * not-found, forbidden or redirect answer, or the window of topics to fetch.
 */
module CategoryWindow {
  import opened Wrappers
  import opened Decimal

  /** The `topic_index` path parameter. `IndexAbsent` also stands for the empty
      string, which the handler treats like an absent parameter. */
  datatype IndexParam =
    | IndexAbsent
      /** A non-empty parameter: whether `utils.isNumber` accepts it, and the
          integer `parseInt` reads from it. */
    | IndexText(isNumber: bool, parsed: int)

  /** The `page` query parameter. `PageAbsent` is an absent or empty parameter
      (falsy); `PageText` a non-empty one, with what `parseInt` reads from it
      (`None` when that is NaN). */
  datatype PageQuery = PageAbsent | PageText(parsed: Option<int>)

  /** The `tag` query parameter: absent, a single string, or a repeated
      parameter (an array). */
  datatype TagQuery = NoTag | OneTag(tag: string) | TagList(tags: seq<string>)

  datatype Request = Request(
    categoryId: string,          // the `category_id` path parameter
    categoryIdIsNumber: bool,    // whether `utils.isNumber` accepts it
    slug: Option<string>,        // the `slug` path parameter
    topicIndex: IndexParam,      // the `topic_index` path parameter (1-based)
    page: PageQuery,             // the `page` query parameter
    sort: string,                // the `sort` query parameter ("" when absent)
    tag: TagQuery,               // the `tag` query parameter
    isApi: bool)                 // whether the request came through the API route

  /** The category fields read before anything is decided. */
  datatype CategoryFields = CategoryFields(slug: string, disabled: int, topicCount: nat)

  /** The user settings the handler reads. */
  datatype Settings = Settings(topicsPerPage: int, usePagination: bool, categoryTopicSort: string)

  /** Everything the resolver depends on. `authorUid` is what the `author` query
      parameter resolves to (`None` when it names no user). */
  datatype Input = Input(
    req: Request,
    category: CategoryFields,
    canRead: bool,
    settings: Settings,
    authorUid: Option<int>)

  /** The storage set(s) to read topic ids from: one sorted set, or a list of
      sets whose intersection is wanted when tags filter the listing. */
  datatype SetKey = Single(key: string) | Intersection(keys: seq<string>)

  /** The fetch tuple handed to the category store, with the page numbers. */
  datatype Window = Window(
    sets: SetKey,
    reverse: bool,
    start: int,
    stop: int,
    currentPage: int,
    pageCount: int)

  datatype Outcome = NotFound | Forbidden | Redirect(location: string) | Success(window: Window)

  // ---------------------------------------------------------------------------
  // Arithmetic

  function Max(a: int, b: int): int {
    if a >= b then a else b
  }

  /** `Math.ceil(a / b)` for a positive integer divisor. */
  function CeilDiv(a: int, b: int): (r: int)
    requires b > 0
    ensures r * b >= a
    ensures (r - 1) * b < a
  {
    var q := (a + b - 1) / b;
    assert a + b - 1 == q * b + (a + b - 1) % b;
    q
  }

  /** The number of pages: never below one, enough pages to hold every topic,
      and no more pages than that. */
  function PageCount(topicCount: nat, topicsPerPage: int): (r: int)
    requires topicsPerPage > 0
    ensures r >= 1
    ensures r * topicsPerPage >= topicCount
    ensures r == 1 || (r - 1) * topicsPerPage < topicCount
  {
    Max(1, CeilDiv(topicCount, topicsPerPage))
  }

  // ---------------------------------------------------------------------------
  // Reading the request

  /** `parseInt(req.query.page, 10) || 1`: NaN and zero become 1. */
  function InitialPage(page: PageQuery): int {
    match page
    case PageText(Some(p)) => if p != 0 then p else 1
    case _ => 1
  }

  /** A non-empty `topic_index` that is not a number, or a non-numeric category id. */
  predicate Malformed(req: Request) {
    (req.topicIndex.IndexText? && !req.topicIndex.isNumber) || !req.categoryIdIsNumber
  }

  /** A category without a slug, or one whose `disabled` field parses to 1. */
  predicate Unavailable(cat: CategoryFields) {
    cat.slug == "" || cat.disabled == 1
  }

  /** JavaScript truthiness of an optional string. */
  predicate Truthy(s: Option<string>) {
    s.Some? && s.value != ""
  }

  /** A page request whose slug is missing or stale, for a category whose
      canonical slug is not the bare `<cid>/`. */
  predicate NeedsCanonicalRedirect(req: Request, cat: CategoryFields) {
    && !req.isApi
    && (!Truthy(req.slug) || cat.slug != req.categoryId + "/" + req.slug.value)
    && (cat.slug != "" && cat.slug != req.categoryId + "/")
  }

  /** The 0-based topic index: one less than a numeric `topic_index`, else 0. */
  function RequestedIndex(p: IndexParam): int {
    if p.IndexText? && p.isNumber then p.parsed - 1 else 0
  }

  predicate IndexOutOfRange(topicIndex: int, topicCount: nat) {
    topicIndex < 0 || topicIndex > Max(topicCount - 1, 0)
  }

  /** How string concatenation renders the `slug` parameter; an absent one is
      the text "undefined". */
  function SlugText(slug: Option<string>): string {
    if slug.Some? then slug.value else "undefined"
  }

  /** Where an out-of-range topic index sends the reader: the category's base
      path, with the topic count as a trailing index only when the requested
      index lies beyond it. */
  function IndexRedirectPath(cid: string, slug: Option<string>, topicIndex: int, topicCount: nat): string {
    "/category/" + cid + "/" + SlugText(slug)
      + (if topicIndex > topicCount then "/" + NatToString(topicCount) else "")
  }

  /** Without pagination the window starts `ceil(topicsPerPage / 2) - 1` topics
      before the requested one, but not before the first topic. */
  function Recentred(topicIndex: int, topicsPerPage: int): (r: int)
    requires topicsPerPage > 0
    requires topicIndex >= 0
    ensures 0 <= r <= topicIndex
    ensures r == 0 <==> topicIndex <= CeilDiv(topicsPerPage, 2) - 1
    ensures r > 0 ==> topicIndex - r == CeilDiv(topicsPerPage, 2) - 1
  {
    Max(0, topicIndex - (CeilDiv(topicsPerPage, 2) - 1))
  }

  /** The page the window is on and the offset of its first topic within that
      page. Without pagination the page stays as parsed and the window is
      recentred on the topic; with pagination and no `page` parameter the page
      becomes the one holding the topic and the offset drops to 0; otherwise
      both stay as they are. */
  function PageAndOffset(settings: Settings, page: PageQuery, currentPage: int, topicIndex: int): (int, int)
    requires settings.topicsPerPage > 0
    requires topicIndex >= 0
  {
    if !settings.usePagination then (currentPage, Recentred(topicIndex, settings.topicsPerPage))
    else if !page.PageText? then (CeilDiv(Max(topicIndex, 0) + 1, settings.topicsPerPage), 0)
    else (currentPage, topicIndex)
  }

  // ---------------------------------------------------------------------------
  // Choosing the storage set

  /** A non-empty `sort` query parameter wins over the user's setting. */
  function EffectiveSort(querySort: string, settingSort: string): string {
    if querySort != "" then querySort else settingSort
  }

  function CategoryKey(cid: string): string {
    "cid:" + cid + ":tids"
  }

  function PostCountKey(cid: string): string {
    "cid:" + cid + ":tids:posts"
  }

  function AuthorKey(cid: string, uid: int): string {
    "cid:" + cid + ":uid:" + IntToString(uid) + ":tids"
  }

  function TagKey(tag: string): string {
    "tag:" + tag + ":topics"
  }

  /** The set and direction a sort name selects. */
  function SortedSet(cid: string, sort: string): (string, bool) {
    if sort == "newest_to_oldest" then (CategoryKey(cid), true)
    else if sort == "most_posts" then (PostCountKey(cid), true)
    else (CategoryKey(cid), false)
  }

  /** A resolved (non-zero) author uid replaces the set. */
  function AuthorSet(cid: string, key: string, authorUid: Option<int>): string {
    if authorUid.Some? && authorUid.value != 0 then AuthorKey(cid, authorUid.value) else key
  }

  /** One tag key per tag, in request order. */
  function TagKeys(tags: seq<string>): (r: seq<string>)
    ensures |r| == |tags|
    ensures forall i :: 0 <= i < |tags| ==> r[i] == TagKey(tags[i])
  {
    if tags == [] then [] else [TagKey(tags[0])] + TagKeys(tags[1..])
  }

  /** A truthy `tag` parameter turns the set into the list of the base set
      followed by one tag set per tag. An empty string is falsy; an array,
      even an empty one, is truthy. */
  function TagSet(base: string, tag: TagQuery): SetKey {
    match tag
    case NoTag => Single(base)
    case OneTag(t) => if t == "" then Single(base) else Intersection([base, TagKey(t)])
    case TagList(ts) => Intersection([base] + TagKeys(ts))
  }

  /** The set every listing is read from or intersected with. */
  function FirstKey(s: SetKey): string {
    match s
    case Single(k) => k
    case Intersection(ks) => if ks == [] then "" else ks[0]
  }

  // ---------------------------------------------------------------------------
  // The resolver

  /** The decision `categoryController.get` takes before fetching topics. */
  function Resolve(input: Input): (r: Outcome)
    requires input.settings.topicsPerPage > 0
    ensures r.Success? ==>
              && !Malformed(input.req)
              && !Unavailable(input.category)
              && input.canRead
              && !NeedsCanonicalRedirect(input.req, input.category)
    ensures r.Success? ==> r.window.stop - r.window.start + 1 == input.settings.topicsPerPage
    ensures r.Success? ==> r.window.pageCount == PageCount(input.category.topicCount, input.settings.topicsPerPage)
  {
    var req, cat, settings := input.req, input.category, input.settings;
    var cid, perPage := req.categoryId, settings.topicsPerPage;
    if Malformed(req) then NotFound
    else if Unavailable(cat) then NotFound
    else if !input.canRead then Forbidden
    else if NeedsCanonicalRedirect(req, cat) then Redirect("/category/" + cat.slug)
    else
      var topicIndex := RequestedIndex(req.topicIndex);
      var pageCount := PageCount(cat.topicCount, perPage);
      if IndexOutOfRange(topicIndex, cat.topicCount) then
        Redirect(IndexRedirectPath(cid, req.slug, topicIndex, cat.topicCount))
      else
        var currentPage := InitialPage(req.page);
        if settings.usePagination && (currentPage < 1 || currentPage > pageCount) then NotFound
        else
          var (page, index) := PageAndOffset(settings, req.page, currentPage, topicIndex);
          var (key, reverse) := SortedSet(cid, EffectiveSort(req.sort, settings.categoryTopicSort));
          var start := (page - 1) * perPage + index;
          var stop := start + perPage - 1;
          Success(Window(TagSet(AuthorSet(cid, key, input.authorUid), req.tag),
                         reverse, start, stop, page, pageCount))
  }
}
