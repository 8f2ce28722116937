/**
 * Concrete requests against category 5, whose canonical slug is "5/general",
 * and what the resolver answers for each.
 */
module WindowExamples {
  import opened Wrappers
  import opened CategoryWindow

  /** A readable category 5 with `topicCount` topics, requested through the
      page route with the given slug, index and page, sorted by the setting
      "oldest_to_newest" unless the query says otherwise. */
  function Sample(slug: Option<string>, index: IndexParam, page: PageQuery, topicCount: nat,
                  perPage: int, paginate: bool): (input: Input)
    ensures input.req.categoryId == "5" && input.category.slug == "5/general"
    ensures input.settings.topicsPerPage == perPage
  {
    Input(
      Request("5", true, slug, index, page, "", NoTag, false),
      CategoryFields("5/general", 0, topicCount),
      true,
      Settings(perPage, paginate, "oldest_to_newest"),
      None)
  }

  /** A request without a slug is sent to the canonical one. */
  lemma MissingSlugRedirects()
    ensures Resolve(Sample(None, IndexAbsent, PageAbsent, 10, 20, true))
            == Redirect("/category/5/general")
  {
  }

  /** A request with the canonical slug is served from the first page. */
  lemma CanonicalSlugServed()
    ensures var r := Resolve(Sample(Some("general"), IndexAbsent, PageAbsent, 10, 20, true));
            r == Success(Window(Single("cid:5:tids"), false, 0, 19, 1, 1))
  {
    assert CategoryKey("5") == "cid:5:tids";
  }

  /** Topic 50 of 10 sends the reader to the category with the count as index. */
  lemma IndexBeyondCountRedirects()
    ensures Resolve(Sample(Some("general"), IndexText(true, 50), PageAbsent, 10, 20, true))
            == Redirect("/category/5/general/10")
  {
  }

  /** Topic 11 of 10 (index 10, equal to the count) redirects without a suffix. */
  lemma IndexAtCountRedirectsBare()
    ensures Resolve(Sample(Some("general"), IndexText(true, 11), PageAbsent, 10, 20, true))
            == Redirect("/category/5/general")
  {
  }

  /** A disabled category is not found even for an otherwise perfect request. */
  lemma DisabledNotFound()
    ensures var input := Sample(Some("general"), IndexAbsent, PageAbsent, 10, 20, true);
            Resolve(input.(category := input.category.(disabled := 1))) == NotFound
  {
  }

  /** Without pagination, topic 21 with 20 per page: the window starts at
      index 20 - (10 - 1) = 11. */
  lemma UnpaginatedRecentres()
    ensures var r := Resolve(Sample(Some("general"), IndexText(true, 21), PageAbsent, 50, 20, false));
            r.Success? && r.window.start == 11 && r.window.stop == 30 && r.window.currentPage == 1
  {
  }

  /** Without pagination a page of -2 reaches the store and the window starts
      before the first topic. */
  lemma UnpaginatedNegativePage()
    ensures var r := Resolve(Sample(Some("general"), IndexAbsent, PageText(Some(-2)), 50, 20, false));
            r.Success? && r.window.currentPage == -2 && r.window.start == -60
  {
  }

  /** With pagination, a page of "0" parses to the first page but still counts
      as a page given, so a deep link to topic 40 is not moved to its own page:
      the window starts at the topic itself. */
  lemma PageZeroIsFirstPage()
    ensures var r := Resolve(Sample(Some("general"), IndexText(true, 40), PageText(Some(0)), 50, 20, true));
            r.Success? && r.window.currentPage == 1 && r.window.start == 39 && r.window.stop == 58
  {
  }

  /** With pagination, page 4 of 3 is not found. */
  lemma PageBeyondLastNotFound()
    ensures Resolve(Sample(Some("general"), IndexAbsent, PageText(Some(4)), 50, 20, true)) == NotFound
  {
  }

  /** With pagination and no page, topic 40 (index 39) at 20 per page lands on
      page 2, whose window starts at index 20. */
  lemma DeepLinkToSecondPage()
    ensures var r := Resolve(Sample(Some("general"), IndexText(true, 40), PageAbsent, 50, 20, true));
            r.Success? && r.window.currentPage == 2 && r.window.start == 20 && r.window.stop == 39
  {
  }

  /** The query's sort wins over the setting: most posts, reversed. */
  lemma QuerySortWins()
    ensures var input := Sample(Some("general"), IndexAbsent, PageAbsent, 10, 20, true);
            var input' := input.(req := input.req.(sort := "most_posts"),
                                 settings := input.settings.(categoryTopicSort := "newest_to_oldest"));
            var r := Resolve(input');
            r.Success? && r.window.sets == Single("cid:5:tids:posts") && r.window.reverse
  {
  }

  /** An author narrows most-posts to the author's set, still reversed. */
  lemma AuthorKeepsOrder()
    ensures var input := Sample(Some("general"), IndexAbsent, PageAbsent, 10, 20, true);
            var input' := input.(req := input.req.(sort := "most_posts"), authorUid := Some(7));
            var r := Resolve(input');
            r.Success? && r.window.sets == Single("cid:5:uid:7:tids") && r.window.reverse
  {
  }

  /** Two tags give three sets, the base first and the tags in request order. */
  lemma TwoTagsThreeSets()
    ensures var input := Sample(Some("general"), IndexAbsent, PageAbsent, 10, 20, true);
            var r := Resolve(input.(req := input.req.(tag := TagList(["a", "b"]))));
            r.Success? && r.window.sets == Intersection(["cid:5:tids", "tag:a:topics", "tag:b:topics"])
  {
    assert CategoryKey("5") == "cid:5:tids";
    assert ["a", "b"][1..] == ["b"] && ["b"][1..] == [];
    assert TagKey("a") == "tag:a:topics" && TagKey("b") == "tag:b:topics";
    assert TagKeys(["a", "b"]) == ["tag:a:topics", "tag:b:topics"];
  }
}
