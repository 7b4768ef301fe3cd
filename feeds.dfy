/**
 * The feed shapes the core moves between: the upstream JSON Feed document (feeds.JSONFeed) and
 * the canonical feed model (feeds.Feed). Only the fields the core reads or writes are kept.
 */
module Feeds {
  import opened Wrappers

  /** A time.Time, opaque apart from its zero value. */
  datatype Time = Time(instant: int) {
    predicate IsZero() { instant == 0 }
  }
  const ZeroTime := Time(0)

  datatype JSONAuthor = JSONAuthor(name: string, url: string)

  datatype JSONItem = JSONItem(
    id: string,
    url: string,
    externalUrl: string,
    title: string,
    contentHTML: string,
    summary: string,
    image: string,
    publishedDate: Option<Time>,
    modifiedDate: Option<Time>,
    author: Option<JSONAuthor>,
    authors: seq<JSONAuthor>)

  datatype JSONFeed = JSONFeed(
    title: string,
    description: string,
    homePageUrl: string,
    author: Option<JSONAuthor>,
    authors: seq<JSONAuthor>,
    items: seq<JSONItem>)

  datatype Link = Link(href: string)
  datatype Author = Author(name: string)
  datatype Enclosure = Enclosure(url: string)

  /** feeds.Item; created and updated hold ZeroTime when unset, as Go's zero time.Time. */
  datatype Item = Item(
    id: string,
    title: string,
    link: Option<Link>,
    source: Option<Link>,
    author: Option<Author>,
    description: string,
    content: string,
    created: Time,
    updated: Time,
    enclosure: Option<Enclosure>)

  datatype Feed = Feed(
    title: string,
    description: string,
    link: Option<Link>,
    author: Option<Author>,
    items: seq<Item>)
}
