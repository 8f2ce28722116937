/**
 * What the category page handler adds around the topics it fetched: the
 * breadcrumb trail, the RSS feed url, and the meta and link tags it leaves in
 * the response locals for the page template (lib/category.js).
 */
module Navigation {
  import opened Wrappers
  import opened Decimal

  // ---------------------------------------------------------------------------
  // Breadcrumbs

  datatype Breadcrumb = Breadcrumb(text: string, url: string)

  /** The trail: the ancestors' crumbs as the breadcrumb service gives them,
      then one crumb for this category, linking to its page under the site's
      relative path. */
  function BuildBreadcrumbs(ancestors: seq<Breadcrumb>, name: string, relativePath: string, slug: string)
    : (r: seq<Breadcrumb>)
    ensures |r| == |ancestors| + 1
    ensures r[..|ancestors|] == ancestors
    ensures r[|ancestors|].text == name
    ensures r[|ancestors|].url == relativePath + "/category/" + slug
  {
    ancestors + [Breadcrumb(name, relativePath + "/category/" + slug)]
  }

  // ---------------------------------------------------------------------------
  // RSS feed url

  function FeedBase(url: string, cid: string): string {
    url + "/category/" + cid + ".rss"
  }

  /** The category's feed url; a signed-in reader (non-zero uid) gets their uid
      and feed token appended as a query string, a guest the bare url. */
  function RssFeedUrl(url: string, cid: string, uid: int, token: string): (r: string)
    ensures |r| >= |FeedBase(url, cid)| && r[..|FeedBase(url, cid)|] == FeedBase(url, cid)
    ensures r == FeedBase(url, cid) <==> uid == 0
    ensures uid != 0 ==> r[|FeedBase(url, cid)|..] == "?uid=" + IntToString(uid) + "&token=" + token
  {
    var base := FeedBase(url, cid);
    if uid != 0 then
      var query := "?uid=" + IntToString(uid) + "&token=" + token;
      assert (base + query)[..|base|] == base && (base + query)[|base|..] == query;
      base + query
    else base
  }

  // ---------------------------------------------------------------------------
  // Meta and link tags

  /** Whether a meta tag is keyed by a `name` or a `property` attribute. */
  datatype MetaAttr = NameAttr | PropertyAttr

  datatype MetaTag = MetaTag(attr: MetaAttr, key: string, content: string)

  /** A link tag; `mediaType` is its optional `type` attribute. */
  datatype LinkTag = LinkTag(rel: string, mediaType: Option<string>, href: string)

  /** The four meta tags every category page carries. */
  function FixedMetaTags(name: string, description: string): seq<MetaTag> {
    [ MetaTag(NameAttr, "title", name),
      MetaTag(PropertyAttr, "og:title", name),
      MetaTag(NameAttr, "description", description),
      MetaTag(PropertyAttr, "og:type", "website") ]
  }

  /** The page's meta tags: the fixed four in order, then an `og:image` tag
      exactly when the category has a background image ("" is none). */
  function CategoryMetaTags(name: string, description: string, backgroundImage: string): (r: seq<MetaTag>)
    ensures |r| == if backgroundImage != "" then 5 else 4
    ensures r[..4] == FixedMetaTags(name, description)
    ensures (exists k :: 0 <= k < |r| && r[k].key == "og:image") <==> backgroundImage != ""
    ensures backgroundImage != "" ==> r[4] == MetaTag(NameAttr, "og:image", backgroundImage)
  {
    var fixed := FixedMetaTags(name, description);
    if backgroundImage != "" then
      var tags := fixed + [MetaTag(NameAttr, "og:image", backgroundImage)];
      assert tags[4].key == "og:image";
      tags
    else fixed
  }

  /** The page's link tags: the RSS alternate, then `up` to the site root. */
  function CategoryLinkTags(rssFeedUrl: string, url: string): (r: seq<LinkTag>)
    ensures |r| == 2
    ensures r[0].rel == "alternate" && r[0].href == rssFeedUrl
    ensures r[0].mediaType == Some("application/rss+xml")
    ensures r[1].rel == "up" && r[1].href == url && r[1].mediaType.None?
  {
    [LinkTag("alternate", Some("application/rss+xml"), rssFeedUrl), LinkTag("up", None, url)]
  }

  /** The pagination's relative links, each made absolute by prefixing its
      href with the category page's url. */
  function Absolutised(rels: seq<LinkTag>, base: string): (r: seq<LinkTag>)
    ensures |r| == |rels|
    ensures forall i :: 0 <= i < |rels| ==>
              r[i].rel == rels[i].rel && r[i].mediaType == rels[i].mediaType
              && r[i].href == base + rels[i].href
  {
    if rels == [] then []
    else [rels[0].(href := base + rels[0].href)] + Absolutised(rels[1..], base)
  }

  /** The response locals the handler fills for the template. */
  class ResponseLocals {
    var metaTags: seq<MetaTag>
    var linkTags: seq<LinkTag>

    constructor ()
      ensures metaTags == [] && linkTags == []
    {
      metaTags := [];
      linkTags := [];
    }

    /** Replaces both tag lists with the category page's own. */
    method AddTags(name: string, description: string, backgroundImage: string, rssFeedUrl: string, url: string)
      modifies this
      ensures metaTags == CategoryMetaTags(name, description, backgroundImage)
      ensures linkTags == CategoryLinkTags(rssFeedUrl, url)
    {
      metaTags := [
        MetaTag(NameAttr, "title", name),
        MetaTag(PropertyAttr, "og:title", name),
        MetaTag(NameAttr, "description", description),
        MetaTag(PropertyAttr, "og:type", "website")
      ];
      if backgroundImage != "" {
        metaTags := metaTags + [MetaTag(NameAttr, "og:image", backgroundImage)];
      }
      linkTags := [
        LinkTag("alternate", Some("application/rss+xml"), rssFeedUrl),
        LinkTag("up", None, url)
      ];
    }

    /** Makes each pagination link absolute, in place in the pagination's own
        list, and appends it to the link tags, in order. */
    method AddPaginationLinks(rels: array<LinkTag>, url: string, slug: string)
      modifies this, rels
      ensures rels[..] == Absolutised(old(rels[..]), url + "/category/" + slug)
      ensures linkTags == old(linkTags) + rels[..]
      ensures metaTags == old(metaTags)
    {
      var base := url + "/category/" + slug;
      var i := 0;
      while i < rels.Length
        invariant 0 <= i <= rels.Length
        invariant rels[..i] == Absolutised(old(rels[..i]), base)
        invariant rels[i..] == old(rels[i..])
        invariant linkTags == old(linkTags) + rels[..i]
        invariant metaTags == old(metaTags)
      {
        rels[i] := rels[i].(href := base + rels[i].href);
        linkTags := linkTags + [rels[i]];
        i := i + 1;
      }
      assert rels[..] == rels[..i] && old(rels[..]) == old(rels[..i]);
    }
  }

  /** The tail of the handler: compute the feed url, set the meta and link
      tags, then append the absolute pagination links. */
  method DecoratePage(locals: ResponseLocals, rels: array<LinkTag>,
                      url: string, cid: string, uid: int, token: string,
                      name: string, description: string, backgroundImage: string, slug: string)
      returns (rssFeedUrl: string)
    modifies locals, rels
    ensures rssFeedUrl == RssFeedUrl(url, cid, uid, token)
    ensures rels[..] == Absolutised(old(rels[..]), url + "/category/" + slug)
    ensures locals.metaTags == CategoryMetaTags(name, description, backgroundImage)
    ensures locals.linkTags == CategoryLinkTags(rssFeedUrl, url)
                               + Absolutised(old(rels[..]), url + "/category/" + slug)
  {
    rssFeedUrl := RssFeedUrl(url, cid, uid, token);
    locals.AddTags(name, description, backgroundImage, rssFeedUrl, url);
    locals.AddPaginationLinks(rels, url, slug);
  }
}
