/**
 * What the category page handler guarantees about the window it resolves:
 * the order of its guards, the page and index bounds it keeps, where a deep
 * link lands, and how the storage set is chosen.
 */
module WindowProperties {
  import opened Wrappers
  import opened Decimal
  import opened CategoryWindow

  // ---------------------------------------------------------------------------
  // Arithmetic facts about ceiling division

  lemma MulLeftMonotone(a: int, b: int, n: int)
    requires a <= b
    requires n > 0
    ensures a * n <= b * n
  {
    assert b * n - a * n == (b - a) * n;
  }

  /** Ceiling division is monotone in its dividend. */
  lemma CeilDivMonotone(a: int, b: int, n: int)
    requires a <= b
    requires n > 0
    ensures CeilDiv(a, n) <= CeilDiv(b, n)
  {
    var ra, rb := CeilDiv(a, n), CeilDiv(b, n);
    if ra > rb {
      MulLeftMonotone(rb, ra - 1, n);
      assert false;
    }
  }

  /** A positive dividend needs at least one page. */
  lemma CeilDivPositive(a: int, n: int)
    requires a > 0
    requires n > 0
    ensures CeilDiv(a, n) >= 1
  {
    var r := CeilDiv(a, n);
    if r <= 0 {
      MulLeftMonotone(r, 0, n);
      assert false;
    }
  }

  /** Half a page, rounded up, is between one topic and a whole page. */
  lemma HalfPageBounds(perPage: int)
    requires perPage > 0
    ensures 1 <= CeilDiv(perPage, 2) <= perPage
  {
    CeilDivPositive(perPage, 2);
  }

  // ---------------------------------------------------------------------------
  // Guards

  /** The early outcomes, in the order the handler checks them: the first
      guard that matches decides, whatever the later inputs are. */
  lemma GuardPrecedence(input: Input)
    requires input.settings.topicsPerPage > 0
    ensures Malformed(input.req) ==> Resolve(input) == NotFound
    ensures !Malformed(input.req) && Unavailable(input.category) ==> Resolve(input) == NotFound
    ensures !Malformed(input.req) && !Unavailable(input.category) && !input.canRead
            ==> Resolve(input) == Forbidden
    ensures !Malformed(input.req) && !Unavailable(input.category) && input.canRead
            && NeedsCanonicalRedirect(input.req, input.category)
            ==> Resolve(input) == Redirect("/category/" + input.category.slug)
  {
  }

  /** Access is refused exactly when the request is well formed, the category
      is available and the reader lacks the read privilege. */
  lemma ForbiddenExactly(input: Input)
    requires input.settings.topicsPerPage > 0
    ensures Resolve(input) == Forbidden
            <==> !Malformed(input.req) && !Unavailable(input.category) && !input.canRead
  {
  }

  /** A disabled category, or one without a slug, is never shown: whatever
      else the request says, it is not found or (for a malformed request)
      not found earlier. */
  lemma UnavailableNeverShown(input: Input)
    requires input.settings.topicsPerPage > 0
    requires Unavailable(input.category)
    ensures Resolve(input) == NotFound
  {
  }

  /** The canonical-slug redirect is the only thing that sets a page request
      apart from the same request made through the API: once the slug is
      canonical (or the category's slug is the bare `<cid>/`), both resolve
      alike. */
  lemma CanonicalRequestLikeApi(input: Input)
    requires input.settings.topicsPerPage > 0
    requires
      || input.category.slug == input.req.categoryId + "/"
      || (Truthy(input.req.slug)
          && input.category.slug == input.req.categoryId + "/" + input.req.slug.value)
    ensures Resolve(input) == Resolve(input.(req := input.req.(isApi := true)))
  {
  }

  // ---------------------------------------------------------------------------
  // Topic index

  /** Once past the first four guards, the handler redirects exactly when the
      requested topic index is outside `[0, max(topicCount - 1, 0)]`. The path
      carries the topic count only when the index lies beyond it, so an index
      equal to the count redirects to the bare category path. */
  lemma IndexRedirect(input: Input)
    requires input.settings.topicsPerPage > 0
    requires !Malformed(input.req) && !Unavailable(input.category) && input.canRead
    requires !NeedsCanonicalRedirect(input.req, input.category)
    ensures var i, n := RequestedIndex(input.req.topicIndex), input.category.topicCount;
            var base := "/category/" + input.req.categoryId + "/" + SlugText(input.req.slug);
            && (Resolve(input).Redirect? <==> IndexOutOfRange(i, n))
            && (IndexOutOfRange(i, n) && i <= n ==> Resolve(input) == Redirect(base))
            && (i > n ==> Resolve(input) == Redirect(base + "/" + NatToString(n)))
  {
    var i, n := RequestedIndex(input.req.topicIndex), input.category.topicCount;
    var base := "/category/" + input.req.categoryId + "/" + SlugText(input.req.slug);
    if IndexOutOfRange(i, n) && i <= n {
      assert base + "" == base;
    }
  }

  /** Only a `topic_index` parameter can trigger the index redirect: without
      one the handler starts at topic 0, which is always in range. */
  lemma IndexRedirectNeedsIndex(input: Input)
    requires input.settings.topicsPerPage > 0
    requires !Malformed(input.req) && !Unavailable(input.category) && input.canRead
    requires !NeedsCanonicalRedirect(input.req, input.category)
    requires Resolve(input).Redirect?
    ensures input.req.topicIndex.IndexText?
  {
  }

  // ---------------------------------------------------------------------------
  // Pages

  /** Past the index check, a paginated request is not found exactly when the
      page it asks for lies outside `[1, pageCount]`; an unpaginated request is
      never turned away for its page. */
  lemma PageOutOfRangeNotFound(input: Input)
    requires input.settings.topicsPerPage > 0
    requires !Malformed(input.req) && !Unavailable(input.category)
    ensures var p := InitialPage(input.req.page);
            var pageCount := PageCount(input.category.topicCount, input.settings.topicsPerPage);
            Resolve(input) == NotFound
            <==> && input.canRead
                 && !NeedsCanonicalRedirect(input.req, input.category)
                 && !IndexOutOfRange(RequestedIndex(input.req.topicIndex), input.category.topicCount)
                 && input.settings.usePagination
                 && (p < 1 || p > pageCount)
  {
  }

  /** Every paginated window is on an existing page and starts at or after
      the first topic. */
  lemma PaginatedWindowBounds(input: Input)
    requires input.settings.topicsPerPage > 0
    requires input.settings.usePagination
    requires Resolve(input).Success?
    ensures var w := Resolve(input).window;
            && 1 <= w.currentPage <= w.pageCount
            && w.pageCount == PageCount(input.category.topicCount, input.settings.topicsPerPage)
            && w.start >= 0
  {
    var perPage, n: int := input.settings.topicsPerPage, input.category.topicCount;
    var i, p := RequestedIndex(input.req.topicIndex), InitialPage(input.req.page);
    var pageCount := PageCount(n, perPage);
    var w := Resolve(input).window;
    assert 0 <= i <= Max(n - 1, 0) && 1 <= p <= pageCount;
    var (page, offset) := PageAndOffset(input.settings, input.req.page, p, i);
    assert w.currentPage == page && w.pageCount == pageCount;
    assert w.start == (page - 1) * perPage + offset && offset >= 0;
    if !input.req.page.PageText? {
      CeilDivPositive(i + 1, perPage);
      if n == 0 {
        CeilDivMonotone(i + 1, 1, perPage);
        assert CeilDiv(1, perPage) == 1;
      } else {
        CeilDivMonotone(i + 1, n, perPage);
      }
    }
    MulLeftMonotone(0, page - 1, perPage);
  }

  /** A paginated request that names its page gets that page as parsed, and
      its window starts at the requested topic's offset past the page's first
      topic: the index is not reset. */
  lemma ExplicitPageWindow(input: Input)
    requires input.settings.topicsPerPage > 0
    requires input.settings.usePagination
    requires input.req.page.PageText?
    requires Resolve(input).Success?
    ensures var w := Resolve(input).window;
            var perPage := input.settings.topicsPerPage;
            && w.currentPage == InitialPage(input.req.page)
            && w.start == (w.currentPage - 1) * perPage + RequestedIndex(input.req.topicIndex)
            && w.stop == w.currentPage * perPage + RequestedIndex(input.req.topicIndex) - 1
  {
    var perPage, page := input.settings.topicsPerPage, InitialPage(input.req.page);
    var i := RequestedIndex(input.req.topicIndex);
    assert PageAndOffset(input.settings, input.req.page, page, i) == (page, i);
    assert page * perPage == (page - 1) * perPage + perPage;
  }

  /** Without pagination the requested page is used as parsed, with no range
      check, and the window starts at most half a page before the requested
      topic, never before the first topic of that page. */
  lemma UnpaginatedWindow(input: Input)
    requires input.settings.topicsPerPage > 0
    requires !input.settings.usePagination
    requires Resolve(input).Success?
    ensures var w := Resolve(input).window;
            var perPage := input.settings.topicsPerPage;
            var i := RequestedIndex(input.req.topicIndex);
            var offset := w.start - (w.currentPage - 1) * perPage;
            && w.currentPage == InitialPage(input.req.page)
            && w.pageCount == PageCount(input.category.topicCount, perPage)
            && 0 <= offset <= i
            && (offset == 0 <==> i <= CeilDiv(perPage, 2) - 1)
            && (offset > 0 ==> i - offset == CeilDiv(perPage, 2) - 1)
  {
  }

  /** Without pagination any page the query names reaches the store as it
      was parsed, out of range or not, and moves the window by whole pages
      without changing where it starts within a page. */
  lemma UnpaginatedPageUnchecked(input: Input, p: int)
    requires input.settings.topicsPerPage > 0
    requires !input.settings.usePagination
    requires Resolve(input).Success?
    requires p != 0
    ensures var perPage := input.settings.topicsPerPage;
            var a, b := Resolve(input), Resolve(input.(req := input.req.(page := PageText(Some(p)))));
            && b.Success?
            && b.window.currentPage == p
            && b.window.start - (p - 1) * perPage
               == a.window.start - (a.window.currentPage - 1) * perPage
  {
  }

  /** Without a `page` parameter the page and offset chosen for a topic index
      put that topic inside the page-sized window they describe. */
  lemma DeepLinkOffsetHoldsTopic(settings: Settings, i: int)
    requires settings.topicsPerPage > 0
    requires i >= 0
    ensures var (page, offset) := PageAndOffset(settings, PageAbsent, 1, i);
            var start := (page - 1) * settings.topicsPerPage + offset;
            start <= i <= start + settings.topicsPerPage - 1
  {
    var perPage := settings.topicsPerPage;
    if !settings.usePagination {
      HalfPageBounds(perPage);
    }
  }

  /** A deep link without a `page` parameter always fetches a window holding
      the linked topic: with pagination it lands on the page containing the
      topic, without pagination the window is centred on it. */
  lemma DeepLinkWindowHoldsTopic(input: Input)
    requires input.settings.topicsPerPage > 0
    requires input.req.page == PageAbsent
    requires Resolve(input).Success?
    ensures var w := Resolve(input).window;
            var i := RequestedIndex(input.req.topicIndex);
            w.start <= i <= w.stop
  {
    var perPage := input.settings.topicsPerPage;
    var i := RequestedIndex(input.req.topicIndex);
    var w := Resolve(input).window;
    assert i >= 0 && InitialPage(input.req.page) == 1;
    var (page, offset) := PageAndOffset(input.settings, PageAbsent, 1, i);
    assert w.start == (page - 1) * perPage + offset;
    assert w.stop == w.start + perPage - 1;
    DeepLinkOffsetHoldsTopic(input.settings, i);
  }

  /** With pagination and no `page` parameter the page is the one holding the
      requested topic, and the window starts at that page's first topic. */
  lemma DeepLinkPage(input: Input)
    requires input.settings.topicsPerPage > 0
    requires input.settings.usePagination
    requires input.req.page == PageAbsent
    requires Resolve(input).Success?
    ensures var w := Resolve(input).window;
            var perPage := input.settings.topicsPerPage;
            var i := RequestedIndex(input.req.topicIndex);
            && (w.currentPage - 1) * perPage <= i < w.currentPage * perPage
            && w.start == (w.currentPage - 1) * perPage
  {
  }

  // ---------------------------------------------------------------------------
  // Storage set and order

  /** How the set and the direction follow from the sort, the author and the
      tags: the query's sort wins over the setting; newest-first and
      most-posts reverse the order; most-posts reads the post-count set; a
      resolved author replaces the set and keeps the order; tags append one
      set each, in request order, after the base set. */
  lemma SetSelection(input: Input)
    requires input.settings.topicsPerPage > 0
    requires Resolve(input).Success?
    ensures var w := Resolve(input).window;
            var cid := input.req.categoryId;
            var sort := EffectiveSort(input.req.sort, input.settings.categoryTopicSort);
            var author := input.authorUid.Some? && input.authorUid.value != 0;
            && (input.req.sort != "" ==> sort == input.req.sort)
            && (input.req.sort == "" ==> sort == input.settings.categoryTopicSort)
            && (w.reverse <==> sort == "newest_to_oldest" || sort == "most_posts")
            && (author ==> FirstKey(w.sets) == AuthorKey(cid, input.authorUid.value))
            && (!author && sort == "most_posts" ==> FirstKey(w.sets) == PostCountKey(cid))
            && (!author && sort != "most_posts" ==> FirstKey(w.sets) == CategoryKey(cid))
  {
  }

  /** Different authors read different sets: the uid is recoverable from the
      author key. */
  lemma AuthorKeyInjective(cid: string, u: int, v: int)
    requires AuthorKey(cid, u) == AuthorKey(cid, v)
    ensures u == v
  {
    var pre := "cid:" + cid + ":uid:";
    var su, sv := IntToString(u), IntToString(v);
    var k := AuthorKey(cid, u);
    assert k == pre + su + ":tids" && k == pre + sv + ":tids";
    assert |su| == |sv|;
    assert su == k[|pre|..|pre| + |su|];
    assert sv == k[|pre|..|pre| + |sv|];
    IntToStringInjective(u, v);
  }

  /** The shape of the set list for each form of the `tag` parameter. */
  lemma TagSetShape(input: Input)
    requires input.settings.topicsPerPage > 0
    requires Resolve(input).Success?
    ensures var s := Resolve(input).window.sets;
            && (input.req.tag == NoTag || input.req.tag == OneTag("") ==> s.Single?)
            && (input.req.tag.OneTag? && input.req.tag.tag != "" ==>
                  s.Intersection? && s.keys == [FirstKey(s), TagKey(input.req.tag.tag)])
            && (input.req.tag.TagList? ==>
                  && s.Intersection?
                  && |s.keys| == 1 + |input.req.tag.tags|
                  && s.keys[0] == FirstKey(s)
                  && (forall j :: 0 <= j < |input.req.tag.tags| ==>
                        s.keys[j + 1] == TagKey(input.req.tag.tags[j])))
  {
    var s := Resolve(input).window.sets;
    if input.req.tag.TagList? {
      var ts := input.req.tag.tags;
      forall j | 0 <= j < |ts|
        ensures s.keys[j + 1] == TagKey(ts[j])
      {
        assert s.keys[j + 1] == TagKeys(ts)[j];
      }
    }
  }

  /** The author filter changes nothing but the set: the outcome kind, the
      order, the bounds and the pages stay those of the unfiltered request. */
  lemma AuthorOnlyChangesSet(input: Input, uid: Option<int>)
    requires input.settings.topicsPerPage > 0
    ensures var a, b := Resolve(input), Resolve(input.(authorUid := uid));
            && a.Success? == b.Success?
            && (!a.Success? ==> a == b)
            && (a.Success? ==> a.window.(sets := b.window.sets) == b.window)
  {
  }

  /** The tag filter likewise changes nothing but the set, and the set it
      builds starts with the set the request would read without it. */
  lemma TagOnlyChangesSet(input: Input, tag: TagQuery)
    requires input.settings.topicsPerPage > 0
    ensures var a, b := Resolve(input), Resolve(input.(req := input.req.(tag := tag)));
            && a.Success? == b.Success?
            && (!a.Success? ==> a == b)
            && (a.Success? ==> a.window.(sets := b.window.sets) == b.window)
            && (a.Success? && input.req.tag == NoTag ==> FirstKey(b.window.sets) == a.window.sets.key)
  {
  }
}
