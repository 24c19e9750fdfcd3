/**
 * The parts of the publishing library that the theme reads: the site
 * configuration, locations (anything with a path, title and description),
 * items, sections, and the tag query used by the tag details page. Loading
 * content, Markdown rendering and date formatting happen in the library; their
 * results appear here as plain fields.
 */
module Publishing {
  import opened Wrappers

  type Tag = string

  /** The library's default feed path (`Path.defaultForRSSFeed`). */
  const DefaultRssFeedPath: string := "feed.rss"

  /**
   * `Path.absoluteString`: the path itself when it already starts with "/",
   * otherwise the path with "/" put in front.
   */
  /** The default feed is linked at "/feed.rss". */
  lemma DefaultFeedHref()
    ensures AbsoluteString(DefaultRssFeedPath) == "/feed.rss"
  {
    assert DefaultRssFeedPath[0] == 'f';
  }

  function AbsoluteString(path: string): string {
    if |path| > 0 && path[0] == '/' then path else "/" + path
  }

  /**
   * An absolute path starts with "/" and ends with the path it was made
   * from; it is that path exactly when the path was already absolute, and
   * making it absolute again changes nothing.
   */
  lemma AbsoluteStringShape(path: string)
    ensures var r := AbsoluteString(path);
      && |r| > 0 && r[0] == '/'
      && |path| <= |r| <= |path| + 1 && r[|r| - |path|..] == path
      && (r == path <==> |path| > 0 && path[0] == '/')
      && AbsoluteString(r) == r
  {
  }

  /** The website configuration (`Website`). */
  datatype Site = Site(
    name: string,
    description: string,
    url: string,              // `url.absoluteString`
    language: string,
    imagePath: Option<string>,
    favicon: Option<string>)

  /** Anything a page can be made for (`Location`). */
  datatype Location = Location(
    path: string,
    title: string,
    description: string,
    imagePath: Option<string>)

  /** A date with the medium-style text the site shows for it (`Date.short`). */
  datatype Date = Date(stamp: int, short: string)

  datatype Item = Item(
    location: Location,
    sectionId: string,
    date: Date,
    tags: seq<Tag>,
    body: string,             // the rendered Markdown body
    htmlDescription: string)  // the description rendered from Markdown

  datatype Section = Section(id: string, location: Location, items: seq<Item>)

  /** A static page: a location with its rendered body. */
  datatype Page = Page(location: Location, body: string)

  datatype TagListPage = TagListPage(location: Location, tags: seq<Tag>)

  datatype TagDetailsPage = TagDetailsPage(location: Location, tag: Tag)

  /**
   * What the theme reads from the publishing context: the site, one section
   * per section ID in declaration order (`SectionID.allCases`), and the path
   * of the tag list page.
   */
  datatype Context = Context(site: Site, sections: seq<Section>, tagListPath: string)

  /** Every item of every section, in section order. */
  function AllItems(sections: seq<Section>): (r: seq<Item>)
    ensures forall x :: x in r <==> exists k :: 0 <= k < |sections| && x in sections[k].items
  {
    if |sections| == 0 then []
    else
      var rest := AllItems(sections[1..]);
      assert forall k :: 1 <= k < |sections| ==> sections[k] == sections[1..][k - 1];
      sections[0].items + rest
  }

  /** The items carrying `tag`, in their original order. */
  function Tagged(items: seq<Item>, tag: Tag): (r: seq<Item>)
    ensures forall x :: x in r <==> x in items && tag in x.tags
    ensures multiset(r) <= multiset(items)
    ensures forall x :: multiset(r)[x] == if tag in x.tags then multiset(items)[x] else 0
  {
    if |items| == 0 then []
    else
      var rest := Tagged(items[1..], tag);
      assert items == [items[0]] + items[1..];
      if tag in items[0].tags then [items[0]] + rest else rest
  }

  predicate NewestFirst(s: seq<Item>) {
    forall i, j :: 0 <= i < j < |s| ==> s[i].date.stamp >= s[j].date.stamp
  }

  function InsertByDate(x: Item, s: seq<Item>): (r: seq<Item>)
    requires NewestFirst(s)
    ensures NewestFirst(r)
    ensures multiset(r) == multiset(s) + multiset{x}
  {
    if |s| == 0 then [x]
    else if x.date.stamp >= s[0].date.stamp then
      assert s == [s[0]] + s[1..];
      [x] + s
    else
      var rest := InsertByDate(x, s[1..]);
      assert s == [s[0]] + s[1..];
      NewestBeforeAll(s[0], s[1..], x, rest);
      [s[0]] + rest
  }

  /** An item at least as new as all of `tail` and `x` may head any arrangement of them. */
  lemma NewestBeforeAll(h: Item, tail: seq<Item>, x: Item, rest: seq<Item>)
    requires NewestFirst([h] + tail) && NewestFirst(rest)
    requires h.date.stamp > x.date.stamp
    requires multiset(rest) == multiset(tail) + multiset{x}
    ensures NewestFirst([h] + rest)
  {
    forall k | 0 <= k < |rest| ensures h.date.stamp >= rest[k].date.stamp {
      var y := rest[k];
      assert y in multiset(rest);
      if y != x {
        assert y in multiset(tail);
        assert y in tail;
        var j :| 0 <= j < |tail| && tail[j] == y;
        assert ([h] + tail)[0] == h && ([h] + tail)[j + 1] == y;
      }
    }
    var r := [h] + rest;
    forall i, j | 0 <= i < j < |r| ensures r[i].date.stamp >= r[j].date.stamp {
      if i > 0 {
        assert r[i] == rest[i - 1] && r[j] == rest[j - 1];
      }
    }
  }

  /** A sort by date, newest first. */
  function SortByDateDescending(s: seq<Item>): (r: seq<Item>)
    ensures NewestFirst(r)
    ensures multiset(r) == multiset(s)
  {
    if |s| == 0 then []
    else
      assert s == [s[0]] + s[1..];
      InsertByDate(s[0], SortByDateDescending(s[1..]))
  }

  /**
   * `items(taggedWith:sortedBy: \.date, order: .descending)`: the items
   * carrying `tag`, newest first.
   */
  function ItemsTaggedNewestFirst(items: seq<Item>, tag: Tag): (r: seq<Item>)
    ensures NewestFirst(r)
    ensures multiset(r) == multiset(Tagged(items, tag))
    ensures forall x :: x in r <==> x in items && tag in x.tags
    ensures forall x :: multiset(r)[x] == if tag in x.tags then multiset(items)[x] else 0
  {
    var r := SortByDateDescending(Tagged(items, tag));
    assert forall x :: x in r <==> x in multiset(r);
    r
  }

  /**
   * `items` lists exactly the items of `sections` that carry `tag`, each as
   * often as the sections hold it, newest first.
   */
  ghost predicate ListsTagged(items: seq<Item>, sections: seq<Section>, tag: Tag) {
    && NewestFirst(items)
    && (forall x :: x in items <==> (exists k :: 0 <= k < |sections| && x in sections[k].items) && tag in x.tags)
    && (forall x :: multiset(items)[x] == if tag in x.tags then multiset(AllItems(sections))[x] else 0)
  }

  /** The query for the items tagged with `tag`, run over all items of the site, lists them. */
  lemma TaggedListing(sections: seq<Section>, tag: Tag)
    ensures ListsTagged(ItemsTaggedNewestFirst(AllItems(sections), tag), sections, tag)
  {
    var items := AllItems(sections);
    var r := ItemsTaggedNewestFirst(items, tag);
    forall x ensures x in r <==> (exists k :: 0 <= k < |sections| && x in sections[k].items) && tag in x.tags {
      assert x in r <==> x in items && tag in x.tags;
    }
  }
}
