/**
 * The mapping from the upstream JSON Feed document to the canonical feed model
 * (convertJSON2Feed and convertJSON2Item in modules/load_balancer.go).
 */
module JsonConversion {
  import opened Wrappers
  import opened Feeds

  /**
   * The author rule shared by feeds and items: the first entry of the authors list wins,
   * else the singular author, else no author. Only the name is carried over.
   */
  function AuthorFrom(authors: seq<JSONAuthor>, author: Option<JSONAuthor>): (a: Option<Author>)
    ensures a.Some? <==> |authors| > 0 || author.Some?
    ensures |authors| > 0 ==> a == Some(Author(authors[0].name))
    ensures |authors| == 0 && author.Some? ==> a == Some(Author(author.value.name))
  {
    if |authors| > 0 then Some(Author(authors[0].name))
    else if author.Some? then Some(Author(author.value.name))
    else None
  }

  /** A link is made only from a non-empty URL. */
  function LinkFrom(href: string): (l: Option<Link>)
    ensures l.Some? <==> href != ""
    ensures l.Some? ==> l.value.href == href
  {
    if href != "" then Some(Link(href)) else None
  }

  /** A timestamp is copied only when present and non-zero; otherwise the zero time stays. */
  function TimeFrom(t: Option<Time>): (r: Time)
    ensures r.IsZero() <==> t.None? || t.value.IsZero()
    ensures !r.IsZero() ==> t == Some(r)
  {
    if t.Some? && !t.value.IsZero() then t.value else ZeroTime
  }

  function ConvertJSON2Item(j: JSONItem): (item: Item)
    ensures item.id == j.id && item.title == j.title
    ensures item.description == j.summary && item.content == j.contentHTML
    ensures item.link.Some? <==> j.url != ""
    ensures item.link.Some? ==> item.link.value.href == j.url
    ensures item.source.Some? <==> j.externalUrl != ""
    ensures item.source.Some? ==> item.source.value.href == j.externalUrl
    ensures item.author == AuthorFrom(j.authors, j.author)
    ensures item.created.IsZero() <==> j.publishedDate.None? || j.publishedDate.value.IsZero()
    ensures !item.created.IsZero() ==> j.publishedDate == Some(item.created)
    ensures item.updated.IsZero() <==> j.modifiedDate.None? || j.modifiedDate.value.IsZero()
    ensures !item.updated.IsZero() ==> j.modifiedDate == Some(item.updated)
    ensures item.enclosure.Some? <==> j.image != ""
    ensures item.enclosure.Some? ==> item.enclosure.value.url == j.image
  {
    Item(
      id := j.id,
      title := j.title,
      link := LinkFrom(j.url),
      source := LinkFrom(j.externalUrl),
      author := AuthorFrom(j.authors, j.author),
      description := j.summary,
      content := j.contentHTML,
      created := TimeFrom(j.publishedDate),
      updated := TimeFrom(j.modifiedDate),
      enclosure := if j.image != "" then Some(Enclosure(j.image)) else None)
  }

  /** The shape every converted item has: no optional value holds an empty URL. */
  predicate WellFormedItem(item: Item)
  {
    && (item.link.Some? ==> item.link.value.href != "")
    && (item.source.Some? ==> item.source.value.href != "")
    && (item.enclosure.Some? ==> item.enclosure.value.url != "")
  }

  /**
   * The reverse direction, from a canonical item to a JSON Feed item, restricted to the
   * fields the conversion reads; an author goes to the singular author field.
   */
  function ItemToJSON(item: Item): JSONItem
  {
    JSONItem(
      id := item.id,
      url := if item.link.Some? then item.link.value.href else "",
      externalUrl := if item.source.Some? then item.source.value.href else "",
      title := item.title,
      contentHTML := item.content,
      summary := item.description,
      image := if item.enclosure.Some? then item.enclosure.value.url else "",
      publishedDate := if item.created.IsZero() then None else Some(item.created),
      modifiedDate := if item.updated.IsZero() then None else Some(item.updated),
      author := if item.author.Some? then Some(JSONAuthor(item.author.value.name, "")) else None,
      authors := [])
  }

  /** Converting back the JSON image of a well-formed item gives the item itself: no field is lost. */
  lemma ConvertItemRoundTrip(item: Item)
    requires WellFormedItem(item)
    ensures ConvertJSON2Item(ItemToJSON(item)) == item
  {
  }

  /** Every converted item is well formed, so the round trip above applies to it. */
  lemma ConvertedItemWellFormed(j: JSONItem)
    ensures WellFormedItem(ConvertJSON2Item(j))
  {
  }

  /** What convertJSON2Feed promises about the feed it builds from a JSON Feed document. */
  predicate IsConversionOf(j: JSONFeed, f: Feed)
  {
    && f.title == j.title
    && f.description == j.description
    && f.link == LinkFrom(j.homePageUrl)
    && f.author == AuthorFrom(j.authors, j.author)
    && |f.items| == |j.items|
    && forall k :: 0 <= k < |j.items| ==> f.items[k] == ConvertJSON2Item(j.items[k])
  }

  /** The conversion is deterministic: one document has exactly one converted feed. */
  lemma ConversionUnique(j: JSONFeed, f1: Feed, f2: Feed)
    requires IsConversionOf(j, f1) && IsConversionOf(j, f2)
    ensures f1 == f2
  {
    assert f1.items == f2.items;
  }

  /** A nil document converts to nil; otherwise the items are appended one by one, in order. */
  method ConvertJSON2Feed(j: Option<JSONFeed>) returns (f: Option<Feed>)
    ensures f.Some? <==> j.Some?
    ensures j.Some? ==> IsConversionOf(j.value, f.value)
  {
    if j.None? {
      return None;
    }
    var jsonFeed := j.value;
    var feed := Feed(jsonFeed.title, jsonFeed.description, None, None, []);
    if jsonFeed.homePageUrl != "" {
      feed := feed.(link := Some(Link(jsonFeed.homePageUrl)));
    }
    if |jsonFeed.authors| > 0 {
      feed := feed.(author := Some(Author(jsonFeed.authors[0].name)));
    } else if jsonFeed.author.Some? {
      feed := feed.(author := Some(Author(jsonFeed.author.value.name)));
    }
    var k := 0;
    while k < |jsonFeed.items|
      invariant 0 <= k <= |jsonFeed.items|
      invariant feed.title == jsonFeed.title && feed.description == jsonFeed.description
      invariant feed.link == LinkFrom(jsonFeed.homePageUrl)
      invariant feed.author == AuthorFrom(jsonFeed.authors, jsonFeed.author)
      invariant |feed.items| == k
      invariant forall i :: 0 <= i < k ==> feed.items[i] == ConvertJSON2Item(jsonFeed.items[i])
    {
      feed := feed.(items := feed.items + [ConvertJSON2Item(jsonFeed.items[k])]);
      k := k + 1;
    }
    f := Some(feed);
  }
}
