/**
 * The `<head>` of every page: the resolved title and description, the social
 * card metadata, stylesheets, the RSS feed link and, for legacy stub pages, a
 * client-side refresh. Two variants exist: `HeadWithRefresh` (the overload
 * taking `refreshToPage`) and `Head` (the one that also emits a favicon and a
 * social image).
 *
 * A head is the sequence of its entries in document order. Each node the page
 * lists becomes a group of entries (one entry, or none or one for an optional
 * node, or one per path for the stylesheets), and the head is the groups
 * joined. The properties are stated by counting entries of each kind, so
 * "exactly one title, and it is the resolved one" reads
 * `Count(h, TitleEntry) == 1 && Title(resolved) in h`.
 */
module HeadMetadata {
  import opened Wrappers
  import opened Markup
  import opened Publishing

  const DefaultTitleSeparator: string := " | "

  const DefaultStylesheets: seq<string> := ["/styles.css"]

  datatype CardType = Summary | SummaryLargeImage

  /** One entry of the head. */
  datatype HeadEntry =
    | Encoding(charset: string)
    | SiteName(name: string)
    | CanonicalUrl(path: string)             // the site URL of this location's path
    | Title(text: string)
    | Meta(name: string, content: string)
    | SelfClosed(element: Element)           // `<meta http-equiv>`, `<link>`
    | Description(text: string)
    | TwitterCard(card: CardType)
    | Stylesheet(path: string)
    | Viewport
    | Favicon(path: string)
    | RssFeedLink(path: string, title: string)
    | SocialImage(path: string)              // the site URL of this image path

  /** The title shown for a location: its own title, the separator, then the site name. */
  function ResolvedTitle(title: string, separator: string, siteName: string): (r: string)
    ensures r == siteName <==> title == ""
    ensures |r| >= |siteName| && r[|r| - |siteName|..] == siteName
    ensures title != "" ==>
      (|r| == |title| + |separator| + |siteName|
       && r[..|title|] == title && r[|title|..|title| + |separator|] == separator)
    ensures siteName != "" ==> r != ""
  {
    if title == "" then siteName else title + separator + siteName
  }

  /** The description of a location, or the site's when it has none. */
  function ResolvedDescription(description: string, siteDescription: string): (r: string)
    ensures description != "" ==> r == description
    ensures description == "" ==> r == siteDescription
  {
    if description == "" then siteDescription else description
  }

  /**
   * The opening of both head builders: the title and description are copied
   * into local variables and then completed from the site's values.
   */
  method ResolveTitleAndDescription(location: Location, site: Site, titleSeparator: string)
    returns (title: string, description: string)
    ensures location.title == "" ==> title == site.name
    ensures location.title != "" ==> title == location.title + titleSeparator + site.name
    ensures location.description == "" ==> description == site.description
    ensures location.description != "" ==> description == location.description
    ensures title == ResolvedTitle(location.title, titleSeparator, site.name)
    ensures description == ResolvedDescription(location.description, site.description)
  {
    title := location.title;
    if title == "" {
      title := site.name;
    } else {
      title := title + (titleSeparator + site.name);
    }
    description := location.description;
    if description == "" {
      description := site.description;
    }
  }

  /** The card type announced for a location: large when it has its own image. */
  function CardFor(location: Location): CardType {
    if location.imagePath.None? then Summary else SummaryLargeImage
  }

  /** The `<meta http-equiv="refresh">` that sends the browser to `link` at once. */
  function RefreshTo(link: string): HeadEntry {
    SelfClosed(Element("meta", [Attr("http-equiv", "refresh"), Attr("content", "0; url=" + link)]))
  }

  predicate IsRefresh(e: HeadEntry) {
    e.SelfClosed? && e.element.name == "meta"
    && AttrValue(e.element.attrs, "http-equiv") == Some("refresh")
  }

  function RssTitle(site: Site, rssFeedTitle: Option<string>): string {
    rssFeedTitle.GetOr("Subscribe to " + site.name)
  }

  /** The fixed Open Graph and Twitter metadata both variants share. */
  function SocialMeta(site: Site): (r: seq<HeadEntry>)
    ensures forall e | e in r :: e.Meta?
  {
    [
      Meta("og:site_name", site.description),
      Meta("og:title", site.description),
      Meta("og:description", site.description),
      Meta("og:image", "linkedin.png"),
      Meta("og:type", "website"),
      Meta("og:url", site.url),
      Meta("twitter:card", "summary"),
      Meta("twitter:site", "@fassko"),
      Meta("twitter:title", site.name),
      Meta("twitter:description", site.description),
      Meta("twitter:image", "fb-og.png")
    ]
  }

  /** The font and touch-icon links both variants share. */
  function FixedLinks(): (r: seq<HeadEntry>)
    ensures forall e | e in r :: e.SelfClosed? && e.element.name == "link"
  {
    [
      SelfClosed(Element("link", [Attr("href", "https://fonts.gstatic.com"), Attr("rel", "preconnect")])),
      SelfClosed(Element("link", [
        Attr("href", "https://fonts.googleapis.com/css2?family=Source+Code+Pro&display=swap"),
        Attr("rel", "stylesheet")])),
      SelfClosed(Element("link", [
        Attr("rel", "apple-touch-icon-precomposed"),
        Attr("sizes", "120x120"),
        Attr("href", "apple-touch-icon-120x120.png")]))
    ]
  }

  // The groups of entries that the optional and repeated nodes produce.

  function RefreshGroup(refreshToPage: Option<string>): seq<HeadEntry> {
    if refreshToPage.Some? then [RefreshTo(refreshToPage.value)] else []
  }

  function Stylesheets(paths: seq<string>): seq<HeadEntry> {
    if |paths| == 0 then [] else [Stylesheet(paths[0])] + Stylesheets(paths[1..])
  }

  function FeedGroup(site: Site, rssFeedPath: Option<string>, rssFeedTitle: Option<string>): seq<HeadEntry> {
    if rssFeedPath.Some? then [RssFeedLink(AbsoluteString(rssFeedPath.value), RssTitle(site, rssFeedTitle))] else []
  }

  function FaviconGroup(site: Site): seq<HeadEntry> {
    if site.favicon.Some? then [Favicon(site.favicon.value)] else []
  }

  /** The social image: the location's own, else the site's. */
  function ImageGroup(location: Location, site: Site): seq<HeadEntry> {
    match location.imagePath.OrElse(site.imagePath)
    case Some(path) => [SocialImage(path)]
    case None => []
  }

  /**
   * The head of a page that may have to send the browser elsewhere
   * (`head(for:on:titleSeparator:stylesheetPaths:rssFeedPath:rssFeedTitle:refreshToPage:)`).
   */
  function HeadWithRefresh(
    location: Location,
    site: Site,
    titleSeparator: string := DefaultTitleSeparator,
    stylesheetPaths: seq<string> := DefaultStylesheets,
    rssFeedPath: Option<string> := Some(DefaultRssFeedPath),
    rssFeedTitle: Option<string> := None,
    refreshToPage: Option<string> := None): seq<HeadEntry>
  {
    [Encoding("utf-8")]
    + ([SiteName(site.name)]
    + ([CanonicalUrl(location.path)]
    + ([Title(ResolvedTitle(location.title, titleSeparator, site.name))]
    + (RefreshGroup(refreshToPage)
    + ([Meta("author", site.name)]
    + (SocialMeta(site)
    + (FixedLinks()
    + ([Description(ResolvedDescription(location.description, site.description))]
    + ([TwitterCard(CardFor(location))]
    + (Stylesheets(stylesheetPaths)
    + ([Viewport]
    + FeedGroup(site, rssFeedPath, rssFeedTitle))))))))))))
  }

  /**
   * The head of every other page
   * (`head(for:on:titleSeparator:stylesheetPaths:rssFeedPath:rssFeedTitle:)`).
   */
  function Head(
    location: Location,
    site: Site,
    titleSeparator: string := DefaultTitleSeparator,
    stylesheetPaths: seq<string> := DefaultStylesheets,
    rssFeedPath: Option<string> := Some(DefaultRssFeedPath),
    rssFeedTitle: Option<string> := None): seq<HeadEntry>
  {
    [Encoding("utf-8")]
    + ([SiteName(site.name)]
    + ([CanonicalUrl(location.path)]
    + ([Title(ResolvedTitle(location.title, titleSeparator, site.name))]
    + ([Description(ResolvedDescription(location.description, site.description))]
    + (SocialMeta(site)
    + (FixedLinks()
    + ([TwitterCard(CardFor(location))]
    + (Stylesheets(stylesheetPaths)
    + ([Viewport]
    + (FaviconGroup(site)
    + (FeedGroup(site, rssFeedPath, rssFeedTitle)
    + ImageGroup(location, site))))))))))))
  }

  // ---------------------------------------------------------------------
  // Counting entries by kind

  /** What an entry is, as far as the properties of a head are concerned. */
  datatype EntryKind =
    | TitleEntry | DescriptionEntry | CardEntry | StylesheetEntry | FeedEntry
    | RefreshEntry | FaviconEntry | ImageEntry | OtherEntry

  function KindOf(e: HeadEntry): EntryKind {
    match e
    case Title(_) => TitleEntry
    case Description(_) => DescriptionEntry
    case TwitterCard(_) => CardEntry
    case Stylesheet(_) => StylesheetEntry
    case RssFeedLink(_, _) => FeedEntry
    case SelfClosed(_) => if IsRefresh(e) then RefreshEntry else OtherEntry
    case Favicon(_) => FaviconEntry
    case SocialImage(_) => ImageEntry
    case _ => OtherEntry
  }

  /** How many entries of `h` are of kind `k`. */
  function Count(h: seq<HeadEntry>, k: EntryKind): nat {
    if |h| == 0 then 0 else (if KindOf(h[0]) == k then 1 else 0) + Count(h[1..], k)
  }

  lemma {:induction false} CountConcat(a: seq<HeadEntry>, b: seq<HeadEntry>, k: EntryKind)
    ensures Count(a + b, k) == Count(a, k) + Count(b, k)
  {
    if |a| > 0 {
      assert (a + b)[1..] == a[1..] + b;
      CountConcat(a[1..], b, k);
    } else {
      assert a + b == b;
    }
  }

  lemma {:induction false} CountNone(s: seq<HeadEntry>, k: EntryKind)
    requires forall e | e in s :: KindOf(e) != k
    ensures Count(s, k) == 0
  {
    if |s| > 0 {
      assert s[0] in s;
      CountNone(s[1..], k);
    }
  }

  lemma CountOne(x: HeadEntry, k: EntryKind)
    ensures Count([x], k) == if KindOf(x) == k then 1 else 0
  {
    assert [x][1..] == [];
  }

  /** A present entry is counted under its kind. */
  lemma {:induction false} CountedMember(h: seq<HeadEntry>, e: HeadEntry)
    requires e in h
    ensures Count(h, KindOf(e)) > 0
  {
    if h[0] != e {
      CountedMember(h[1..], e);
    }
  }

  /** A zero count means no entry of that kind. */
  lemma NoneCounted(h: seq<HeadEntry>, k: EntryKind)
    requires Count(h, k) == 0
    ensures forall e | e in h :: KindOf(e) != k
  {
    forall e | e in h ensures KindOf(e) != k {
      CountedMember(h, e);
    }
  }

  // Closed-form counts of each group.

  lemma SharedGroupsPlain(site: Site, k: EntryKind)
    requires k != OtherEntry
    ensures Count(SocialMeta(site), k) == 0 && Count(FixedLinks(), k) == 0
  {
    CountNone(SocialMeta(site), k);
    CountNone(FixedLinks(), k);
  }

  lemma RefreshKind(link: string)
    ensures KindOf(RefreshTo(link)) == RefreshEntry
  {
    assert RefreshTo(link).element.attrs[0] == Attr("http-equiv", "refresh");
  }

  lemma RefreshGroupCount(refreshToPage: Option<string>, k: EntryKind)
    ensures Count(RefreshGroup(refreshToPage), k) == if k == RefreshEntry && refreshToPage.Some? then 1 else 0
  {
    if refreshToPage.Some? {
      RefreshKind(refreshToPage.value);
      CountOne(RefreshTo(refreshToPage.value), k);
    }
  }

  lemma {:induction false} StylesheetsCount(paths: seq<string>, k: EntryKind)
    ensures Count(Stylesheets(paths), k) == if k == StylesheetEntry then |paths| else 0
  {
    if |paths| > 0 {
      StylesheetsCount(paths[1..], k);
      CountConcat([Stylesheet(paths[0])], Stylesheets(paths[1..]), k);
      CountOne(Stylesheet(paths[0]), k);
    }
  }

  /** One stylesheet link per path, and nothing else. */
  lemma {:induction false} StylesheetsMembership(paths: seq<string>)
    ensures forall e :: e in Stylesheets(paths) <==> e.Stylesheet? && e.path in paths
  {
    if |paths| > 0 {
      StylesheetsMembership(paths[1..]);
      assert paths == [paths[0]] + paths[1..];
    }
  }

  lemma FeedGroupCount(site: Site, rssFeedPath: Option<string>, rssFeedTitle: Option<string>, k: EntryKind)
    ensures Count(FeedGroup(site, rssFeedPath, rssFeedTitle), k) == if k == FeedEntry && rssFeedPath.Some? then 1 else 0
  {
    if rssFeedPath.Some? {
      CountOne(RssFeedLink(AbsoluteString(rssFeedPath.value), RssTitle(site, rssFeedTitle)), k);
    }
  }

  lemma FaviconGroupCount(site: Site, k: EntryKind)
    ensures Count(FaviconGroup(site), k) == if k == FaviconEntry && site.favicon.Some? then 1 else 0
  {
    if site.favicon.Some? {
      CountOne(Favicon(site.favicon.value), k);
    }
  }

  lemma ImageGroupCount(location: Location, site: Site, k: EntryKind)
    ensures Count(ImageGroup(location, site), k)
      == if k == ImageEntry && location.imagePath.OrElse(site.imagePath).Some? then 1 else 0
  {
    match location.imagePath.OrElse(site.imagePath)
    case Some(path) => CountOne(SocialImage(path), k);
    case None =>
  }

  /** The card, stylesheet and viewport groups, which both variants list in a row. */
  lemma CardStylesCount(location: Location, stylesheetPaths: seq<string>, k: EntryKind)
    requires k != OtherEntry
    ensures Count([TwitterCard(CardFor(location))], k) + Count(Stylesheets(stylesheetPaths), k) + Count([Viewport], k)
      == (if k == CardEntry then 1 else 0) + (if k == StylesheetEntry then |stylesheetPaths| else 0)
  {
    CardCount(CardFor(location), k);
    ViewportCount(k);
    StylesheetsCount(stylesheetPaths, k);
  }

  lemma DescriptionCount(text: string, k: EntryKind)
    ensures Count([Description(text)], k) == if k == DescriptionEntry then 1 else 0
  {
    CountOne(Description(text), k);
  }

  lemma CardCount(card: CardType, k: EntryKind)
    ensures Count([TwitterCard(card)], k) == if k == CardEntry then 1 else 0
  {
    CountOne(TwitterCard(card), k);
  }

  lemma ViewportCount(k: EntryKind)
    requires k != OtherEntry
    ensures Count([Viewport], k) == 0
  {
    CountOne(Viewport, k);
  }

  /** The encoding, site name and address groups that open both variants. */
  lemma OpeningCount(location: Location, site: Site, k: EntryKind)
    requires k != OtherEntry
    ensures Count([Encoding("utf-8")], k) + Count([SiteName(site.name)], k) + Count([CanonicalUrl(location.path)], k) == 0
  {
    CountOne(Encoding("utf-8"), k);
    CountOne(SiteName(site.name), k);
    CountOne(CanonicalUrl(location.path), k);
  }

  /** Every stylesheet link in `h` is for one of `paths`. */
  ghost predicate StylesheetsWithin(h: seq<HeadEntry>, paths: seq<string>) {
    forall e | e in h && e.Stylesheet? :: e.path in paths
  }

  lemma StylesheetsWithinConcat(a: seq<HeadEntry>, b: seq<HeadEntry>, paths: seq<string>)
    requires StylesheetsWithin(a, paths) && StylesheetsWithin(b, paths)
    ensures StylesheetsWithin(a + b, paths)
  {
  }

  /**
   * What every head carries, whatever its variant: exactly one title, the
   * resolved one; exactly one description, the resolved one; exactly one card
   * type, following the location's own image; one stylesheet link per given
   * path and no other; and a feed link exactly when a feed path is given,
   * titled after the site unless a title is given.
   */
  ghost predicate CommonHead(h: seq<HeadEntry>, location: Location, site: Site, titleSeparator: string,
                             stylesheetPaths: seq<string>, rssFeedPath: Option<string>, rssFeedTitle: Option<string>)
  {
    && Count(h, TitleEntry) == 1
    && Title(ResolvedTitle(location.title, titleSeparator, site.name)) in h
    && Count(h, DescriptionEntry) == 1
    && Description(ResolvedDescription(location.description, site.description)) in h
    && Count(h, CardEntry) == 1
    && TwitterCard(CardFor(location)) in h
    && Count(h, StylesheetEntry) == |stylesheetPaths|
    && StylesheetsWithin(h, stylesheetPaths)
    && (forall p | p in stylesheetPaths :: Stylesheet(p) in h)
    && Count(h, FeedEntry) == (if rssFeedPath.Some? then 1 else 0)
    && (rssFeedPath.Some? ==> RssFeedLink(AbsoluteString(rssFeedPath.value), RssTitle(site, rssFeedTitle)) in h)
  }

  // ---------------------------------------------------------------------
  // The redirecting variant

  lemma HeadWithRefreshGroups(location: Location, site: Site, titleSeparator: string,
                              stylesheetPaths: seq<string>, rssFeedPath: Option<string>,
                              rssFeedTitle: Option<string>, refreshToPage: Option<string>, k: EntryKind)
    ensures Count(HeadWithRefresh(location, site, titleSeparator, stylesheetPaths, rssFeedPath, rssFeedTitle, refreshToPage), k)
      == Count([Encoding("utf-8")], k) + Count([SiteName(site.name)], k) + Count([CanonicalUrl(location.path)], k)
       + Count([Title(ResolvedTitle(location.title, titleSeparator, site.name))], k) + Count(RefreshGroup(refreshToPage), k)
       + Count([Meta("author", site.name)], k) + Count(SocialMeta(site), k) + Count(FixedLinks(), k)
       + Count([Description(ResolvedDescription(location.description, site.description))], k)
       + Count([TwitterCard(CardFor(location))], k) + Count(Stylesheets(stylesheetPaths), k) + Count([Viewport], k)
       + Count(FeedGroup(site, rssFeedPath, rssFeedTitle), k)
  {
    var p1, p2, p3, p4 := [Encoding("utf-8")], [SiteName(site.name)], [CanonicalUrl(location.path)],
      [Title(ResolvedTitle(location.title, titleSeparator, site.name))];
    var p5, p6, p7, p8 := RefreshGroup(refreshToPage), [Meta("author", site.name)], SocialMeta(site), FixedLinks();
    var p9, p10 := [Description(ResolvedDescription(location.description, site.description))], [TwitterCard(CardFor(location))];
    var p11, p12, p13 := Stylesheets(stylesheetPaths), [Viewport], FeedGroup(site, rssFeedPath, rssFeedTitle);
    CountConcat(p12, p13, k);
    CountConcat(p11, p12 + p13, k);
    CountConcat(p10, p11 + (p12 + p13), k);
    CountConcat(p9, p10 + (p11 + (p12 + p13)), k);
    CountConcat(p8, p9 + (p10 + (p11 + (p12 + p13))), k);
    CountConcat(p7, p8 + (p9 + (p10 + (p11 + (p12 + p13)))), k);
    CountConcat(p6, p7 + (p8 + (p9 + (p10 + (p11 + (p12 + p13))))), k);
    CountConcat(p5, p6 + (p7 + (p8 + (p9 + (p10 + (p11 + (p12 + p13)))))), k);
    CountConcat(p4, p5 + (p6 + (p7 + (p8 + (p9 + (p10 + (p11 + (p12 + p13))))))), k);
    CountConcat(p3, p4 + (p5 + (p6 + (p7 + (p8 + (p9 + (p10 + (p11 + (p12 + p13)))))))), k);
    CountConcat(p2, p3 + (p4 + (p5 + (p6 + (p7 + (p8 + (p9 + (p10 + (p11 + (p12 + p13))))))))), k);
    CountConcat(p1, p2 + (p3 + (p4 + (p5 + (p6 + (p7 + (p8 + (p9 + (p10 + (p11 + (p12 + p13)))))))))), k);
  }

  lemma HeadWithRefreshFront(location: Location, site: Site, titleSeparator: string,
                             refreshToPage: Option<string>, k: EntryKind)
    requires k != OtherEntry
    ensures Count([Encoding("utf-8")], k) + Count([SiteName(site.name)], k) + Count([CanonicalUrl(location.path)], k)
       + Count([Title(ResolvedTitle(location.title, titleSeparator, site.name))], k) + Count(RefreshGroup(refreshToPage), k)
       + Count([Meta("author", site.name)], k) + Count(SocialMeta(site), k) + Count(FixedLinks(), k)
      == (if k == TitleEntry then 1 else 0) + (if k == RefreshEntry && refreshToPage.Some? then 1 else 0)
  {
    OpeningCount(location, site, k);
    CountOne(Title(ResolvedTitle(location.title, titleSeparator, site.name)), k);
    CountOne(Meta("author", site.name), k);
    RefreshGroupCount(refreshToPage, k);
    SharedGroupsPlain(site, k);
  }

  lemma HeadWithRefreshBack(location: Location, site: Site, stylesheetPaths: seq<string>,
                            rssFeedPath: Option<string>, rssFeedTitle: Option<string>, k: EntryKind)
    requires k != OtherEntry
    ensures Count([Description(ResolvedDescription(location.description, site.description))], k)
       + Count([TwitterCard(CardFor(location))], k) + Count(Stylesheets(stylesheetPaths), k) + Count([Viewport], k)
       + Count(FeedGroup(site, rssFeedPath, rssFeedTitle), k)
      == (if k == DescriptionEntry then 1 else 0) + (if k == CardEntry then 1 else 0)
       + (if k == StylesheetEntry then |stylesheetPaths| else 0)
       + (if k == FeedEntry && rssFeedPath.Some? then 1 else 0)
  {
    DescriptionCount(ResolvedDescription(location.description, site.description), k);
    CardStylesCount(location, stylesheetPaths, k);
    FeedGroupCount(site, rssFeedPath, rssFeedTitle, k);
  }

  /** How many entries of each kind the redirecting head holds. */
  lemma HeadWithRefreshCount(location: Location, site: Site, titleSeparator: string,
                             stylesheetPaths: seq<string>, rssFeedPath: Option<string>,
                             rssFeedTitle: Option<string>, refreshToPage: Option<string>, k: EntryKind)
    requires k != OtherEntry
    ensures Count(HeadWithRefresh(location, site, titleSeparator, stylesheetPaths, rssFeedPath, rssFeedTitle, refreshToPage), k)
      == (if k == TitleEntry then 1 else 0) + (if k == RefreshEntry && refreshToPage.Some? then 1 else 0)
       + (if k == DescriptionEntry then 1 else 0) + (if k == CardEntry then 1 else 0)
       + (if k == StylesheetEntry then |stylesheetPaths| else 0)
       + (if k == FeedEntry && rssFeedPath.Some? then 1 else 0)
  {
    HeadWithRefreshGroups(location, site, titleSeparator, stylesheetPaths, rssFeedPath, rssFeedTitle, refreshToPage, k);
    HeadWithRefreshFront(location, site, titleSeparator, refreshToPage, k);
    HeadWithRefreshBack(location, site, stylesheetPaths, rssFeedPath, rssFeedTitle, k);
  }

  /** The entries the redirecting head is built to carry are all in it. */
  lemma HeadWithRefreshMembers(location: Location, site: Site, titleSeparator: string,
                               stylesheetPaths: seq<string>, rssFeedPath: Option<string>,
                               rssFeedTitle: Option<string>, refreshToPage: Option<string>)
    ensures var h := HeadWithRefresh(location, site, titleSeparator, stylesheetPaths, rssFeedPath, rssFeedTitle, refreshToPage);
      && Title(ResolvedTitle(location.title, titleSeparator, site.name)) in h
      && Description(ResolvedDescription(location.description, site.description)) in h
      && TwitterCard(CardFor(location)) in h
      && Meta("author", site.name) in h
      && (rssFeedPath.Some? ==> RssFeedLink(AbsoluteString(rssFeedPath.value), RssTitle(site, rssFeedTitle)) in h)
      && (refreshToPage.Some? ==> RefreshTo(refreshToPage.value) in h)
  {
  }

  /** Every stylesheet link of the redirecting head is for one of the given paths. */
  lemma HeadWithRefreshStylesheetsWithin(location: Location, site: Site, titleSeparator: string,
      stylesheetPaths: seq<string>, rssFeedPath: Option<string>,
      rssFeedTitle: Option<string>, refreshToPage: Option<string>)
    ensures StylesheetsWithin(HeadWithRefresh(location, site, titleSeparator, stylesheetPaths, rssFeedPath, rssFeedTitle, refreshToPage), stylesheetPaths)
  {
    var p1, p2, p3, p4 := [Encoding("utf-8")], [SiteName(site.name)], [CanonicalUrl(location.path)],
      [Title(ResolvedTitle(location.title, titleSeparator, site.name))];
    var p5, p6, p7, p8 := RefreshGroup(refreshToPage), [Meta("author", site.name)], SocialMeta(site), FixedLinks();
    var p9, p10 := [Description(ResolvedDescription(location.description, site.description))], [TwitterCard(CardFor(location))];
    var p11, p12, p13 := Stylesheets(stylesheetPaths), [Viewport], FeedGroup(site, rssFeedPath, rssFeedTitle);
    StylesheetsMembership(stylesheetPaths);
    assert StylesheetsWithin(p11, stylesheetPaths);
    StylesheetsWithinConcat(p12, p13, stylesheetPaths);
    StylesheetsWithinConcat(p11, p12 + p13, stylesheetPaths);
    StylesheetsWithinConcat(p10, p11 + (p12 + p13), stylesheetPaths);
    StylesheetsWithinConcat(p9, p10 + (p11 + (p12 + p13)), stylesheetPaths);
    StylesheetsWithinConcat(p8, p9 + (p10 + (p11 + (p12 + p13))), stylesheetPaths);
    StylesheetsWithinConcat(p7, p8 + (p9 + (p10 + (p11 + (p12 + p13)))), stylesheetPaths);
    StylesheetsWithinConcat(p6, p7 + (p8 + (p9 + (p10 + (p11 + (p12 + p13))))), stylesheetPaths);
    StylesheetsWithinConcat(p5, p6 + (p7 + (p8 + (p9 + (p10 + (p11 + (p12 + p13)))))), stylesheetPaths);
    StylesheetsWithinConcat(p4, p5 + (p6 + (p7 + (p8 + (p9 + (p10 + (p11 + (p12 + p13))))))), stylesheetPaths);
    StylesheetsWithinConcat(p3, p4 + (p5 + (p6 + (p7 + (p8 + (p9 + (p10 + (p11 + (p12 + p13)))))))), stylesheetPaths);
    StylesheetsWithinConcat(p2, p3 + (p4 + (p5 + (p6 + (p7 + (p8 + (p9 + (p10 + (p11 + (p12 + p13))))))))), stylesheetPaths);
    StylesheetsWithinConcat(p1, p2 + (p3 + (p4 + (p5 + (p6 + (p7 + (p8 + (p9 + (p10 + (p11 + (p12 + p13)))))))))), stylesheetPaths);
  }

  /** Every given path has a stylesheet link in the redirecting head. */
  lemma HeadWithRefreshStylesheetsListed(location: Location, site: Site, titleSeparator: string,
      stylesheetPaths: seq<string>, rssFeedPath: Option<string>,
      rssFeedTitle: Option<string>, refreshToPage: Option<string>)
    ensures forall p | p in stylesheetPaths :: Stylesheet(p) in HeadWithRefresh(location, site, titleSeparator, stylesheetPaths, rssFeedPath, rssFeedTitle, refreshToPage)
  {
    StylesheetsMembership(stylesheetPaths);
  }

  /**
   * The redirecting head carries everything every head carries, plus the
   * author, and a refresh instruction exactly when a target is given, pointing
   * at it; it never lists a favicon or a social image.
   */
  lemma HeadWithRefreshShape(location: Location, site: Site, titleSeparator: string,
                             stylesheetPaths: seq<string>, rssFeedPath: Option<string>,
                             rssFeedTitle: Option<string>, refreshToPage: Option<string>)
    ensures var h := HeadWithRefresh(location, site, titleSeparator, stylesheetPaths, rssFeedPath, rssFeedTitle, refreshToPage);
      && CommonHead(h, location, site, titleSeparator, stylesheetPaths, rssFeedPath, rssFeedTitle)
      && Count(h, RefreshEntry) == (if refreshToPage.Some? then 1 else 0)
      && (refreshToPage.Some? ==> RefreshTo(refreshToPage.value) in h)
      && Count(h, FaviconEntry) == 0
      && Count(h, ImageEntry) == 0
      && Meta("author", site.name) in h
  {
    HeadWithRefreshCount(location, site, titleSeparator, stylesheetPaths, rssFeedPath, rssFeedTitle, refreshToPage, TitleEntry);
    HeadWithRefreshCount(location, site, titleSeparator, stylesheetPaths, rssFeedPath, rssFeedTitle, refreshToPage, DescriptionEntry);
    HeadWithRefreshCount(location, site, titleSeparator, stylesheetPaths, rssFeedPath, rssFeedTitle, refreshToPage, CardEntry);
    HeadWithRefreshCount(location, site, titleSeparator, stylesheetPaths, rssFeedPath, rssFeedTitle, refreshToPage, StylesheetEntry);
    HeadWithRefreshCount(location, site, titleSeparator, stylesheetPaths, rssFeedPath, rssFeedTitle, refreshToPage, FeedEntry);
    HeadWithRefreshCount(location, site, titleSeparator, stylesheetPaths, rssFeedPath, rssFeedTitle, refreshToPage, RefreshEntry);
    HeadWithRefreshCount(location, site, titleSeparator, stylesheetPaths, rssFeedPath, rssFeedTitle, refreshToPage, FaviconEntry);
    HeadWithRefreshCount(location, site, titleSeparator, stylesheetPaths, rssFeedPath, rssFeedTitle, refreshToPage, ImageEntry);
    HeadWithRefreshMembers(location, site, titleSeparator, stylesheetPaths, rssFeedPath, rssFeedTitle, refreshToPage);
    HeadWithRefreshStylesheetsWithin(location, site, titleSeparator, stylesheetPaths, rssFeedPath, rssFeedTitle, refreshToPage);
    HeadWithRefreshStylesheetsListed(location, site, titleSeparator, stylesheetPaths, rssFeedPath, rssFeedTitle, refreshToPage);
  }

  /** The redirecting head carries no favicon at all. */
  lemma HeadWithRefreshOmitsFavicon(location: Location, site: Site, titleSeparator: string,
      stylesheetPaths: seq<string>, rssFeedPath: Option<string>,
      rssFeedTitle: Option<string>, refreshToPage: Option<string>)
    ensures forall e | e in HeadWithRefresh(location, site, titleSeparator, stylesheetPaths, rssFeedPath, rssFeedTitle, refreshToPage) ::
      KindOf(e) != FaviconEntry
  {
    var h := HeadWithRefresh(location, site, titleSeparator, stylesheetPaths, rssFeedPath, rssFeedTitle, refreshToPage);
    HeadWithRefreshCount(location, site, titleSeparator, stylesheetPaths, rssFeedPath, rssFeedTitle, refreshToPage, FaviconEntry);
    NoneCounted(h, FaviconEntry);
  }

  /** The redirecting head carries no social image at all. */
  lemma HeadWithRefreshOmitsImage(location: Location, site: Site, titleSeparator: string,
      stylesheetPaths: seq<string>, rssFeedPath: Option<string>,
      rssFeedTitle: Option<string>, refreshToPage: Option<string>)
    ensures forall e | e in HeadWithRefresh(location, site, titleSeparator, stylesheetPaths, rssFeedPath, rssFeedTitle, refreshToPage) ::
      KindOf(e) != ImageEntry
  {
    var h := HeadWithRefresh(location, site, titleSeparator, stylesheetPaths, rssFeedPath, rssFeedTitle, refreshToPage);
    HeadWithRefreshCount(location, site, titleSeparator, stylesheetPaths, rssFeedPath, rssFeedTitle, refreshToPage, ImageEntry);
    NoneCounted(h, ImageEntry);
  }

  // ---------------------------------------------------------------------
  // The plain variant

  lemma HeadGroups(location: Location, site: Site, titleSeparator: string,
                   stylesheetPaths: seq<string>, rssFeedPath: Option<string>,
                   rssFeedTitle: Option<string>, k: EntryKind)
    ensures Count(Head(location, site, titleSeparator, stylesheetPaths, rssFeedPath, rssFeedTitle), k)
      == Count([Encoding("utf-8")], k) + Count([SiteName(site.name)], k) + Count([CanonicalUrl(location.path)], k)
       + Count([Title(ResolvedTitle(location.title, titleSeparator, site.name))], k)
       + Count([Description(ResolvedDescription(location.description, site.description))], k)
       + Count(SocialMeta(site), k) + Count(FixedLinks(), k)
       + Count([TwitterCard(CardFor(location))], k) + Count(Stylesheets(stylesheetPaths), k) + Count([Viewport], k)
       + Count(FaviconGroup(site), k) + Count(FeedGroup(site, rssFeedPath, rssFeedTitle), k)
       + Count(ImageGroup(location, site), k)
  {
    var p1, p2, p3, p4 := [Encoding("utf-8")], [SiteName(site.name)], [CanonicalUrl(location.path)],
      [Title(ResolvedTitle(location.title, titleSeparator, site.name))];
    var p5, p6, p7 := [Description(ResolvedDescription(location.description, site.description))], SocialMeta(site), FixedLinks();
    var p8, p9, p10 := [TwitterCard(CardFor(location))], Stylesheets(stylesheetPaths), [Viewport];
    var p11, p12, p13 := FaviconGroup(site), FeedGroup(site, rssFeedPath, rssFeedTitle), ImageGroup(location, site);
    CountConcat(p12, p13, k);
    CountConcat(p11, p12 + p13, k);
    CountConcat(p10, p11 + (p12 + p13), k);
    CountConcat(p9, p10 + (p11 + (p12 + p13)), k);
    CountConcat(p8, p9 + (p10 + (p11 + (p12 + p13))), k);
    CountConcat(p7, p8 + (p9 + (p10 + (p11 + (p12 + p13)))), k);
    CountConcat(p6, p7 + (p8 + (p9 + (p10 + (p11 + (p12 + p13))))), k);
    CountConcat(p5, p6 + (p7 + (p8 + (p9 + (p10 + (p11 + (p12 + p13)))))), k);
    CountConcat(p4, p5 + (p6 + (p7 + (p8 + (p9 + (p10 + (p11 + (p12 + p13))))))), k);
    CountConcat(p3, p4 + (p5 + (p6 + (p7 + (p8 + (p9 + (p10 + (p11 + (p12 + p13)))))))), k);
    CountConcat(p2, p3 + (p4 + (p5 + (p6 + (p7 + (p8 + (p9 + (p10 + (p11 + (p12 + p13))))))))), k);
    CountConcat(p1, p2 + (p3 + (p4 + (p5 + (p6 + (p7 + (p8 + (p9 + (p10 + (p11 + (p12 + p13)))))))))), k);
  }

  lemma HeadFront(location: Location, site: Site, titleSeparator: string, k: EntryKind)
    requires k != OtherEntry
    ensures Count([Encoding("utf-8")], k) + Count([SiteName(site.name)], k) + Count([CanonicalUrl(location.path)], k)
       + Count([Title(ResolvedTitle(location.title, titleSeparator, site.name))], k)
       + Count([Description(ResolvedDescription(location.description, site.description))], k)
       + Count(SocialMeta(site), k) + Count(FixedLinks(), k)
      == (if k == TitleEntry then 1 else 0) + (if k == DescriptionEntry then 1 else 0)
  {
    OpeningCount(location, site, k);
    CountOne(Title(ResolvedTitle(location.title, titleSeparator, site.name)), k);
    DescriptionCount(ResolvedDescription(location.description, site.description), k);
    SharedGroupsPlain(site, k);
  }

  lemma HeadBack(location: Location, site: Site, stylesheetPaths: seq<string>,
                 rssFeedPath: Option<string>, rssFeedTitle: Option<string>, k: EntryKind)
    requires k != OtherEntry
    ensures Count([TwitterCard(CardFor(location))], k) + Count(Stylesheets(stylesheetPaths), k) + Count([Viewport], k)
       + Count(FaviconGroup(site), k) + Count(FeedGroup(site, rssFeedPath, rssFeedTitle), k)
       + Count(ImageGroup(location, site), k)
      == (if k == CardEntry then 1 else 0)
       + (if k == StylesheetEntry then |stylesheetPaths| else 0)
       + (if k == FaviconEntry && site.favicon.Some? then 1 else 0)
       + (if k == FeedEntry && rssFeedPath.Some? then 1 else 0)
       + (if k == ImageEntry && location.imagePath.OrElse(site.imagePath).Some? then 1 else 0)
  {
    CardStylesCount(location, stylesheetPaths, k);
    FaviconGroupCount(site, k);
    FeedGroupCount(site, rssFeedPath, rssFeedTitle, k);
    ImageGroupCount(location, site, k);
  }

  /** How many entries of each kind the plain head holds. */
  lemma HeadCount(location: Location, site: Site, titleSeparator: string,
                  stylesheetPaths: seq<string>, rssFeedPath: Option<string>,
                  rssFeedTitle: Option<string>, k: EntryKind)
    requires k != OtherEntry
    ensures Count(Head(location, site, titleSeparator, stylesheetPaths, rssFeedPath, rssFeedTitle), k)
      == (if k == TitleEntry then 1 else 0) + (if k == DescriptionEntry then 1 else 0)
       + (if k == CardEntry then 1 else 0)
       + (if k == StylesheetEntry then |stylesheetPaths| else 0)
       + (if k == FaviconEntry && site.favicon.Some? then 1 else 0)
       + (if k == FeedEntry && rssFeedPath.Some? then 1 else 0)
       + (if k == ImageEntry && location.imagePath.OrElse(site.imagePath).Some? then 1 else 0)
  {
    HeadGroups(location, site, titleSeparator, stylesheetPaths, rssFeedPath, rssFeedTitle, k);
    HeadFront(location, site, titleSeparator, k);
    HeadBack(location, site, stylesheetPaths, rssFeedPath, rssFeedTitle, k);
  }

  /** The entries the plain head is built to carry are all in it. */
  lemma HeadMembers(location: Location, site: Site, titleSeparator: string,
                    stylesheetPaths: seq<string>, rssFeedPath: Option<string>,
                    rssFeedTitle: Option<string>)
    ensures var h := Head(location, site, titleSeparator, stylesheetPaths, rssFeedPath, rssFeedTitle);
      && Title(ResolvedTitle(location.title, titleSeparator, site.name)) in h
      && Description(ResolvedDescription(location.description, site.description)) in h
      && TwitterCard(CardFor(location)) in h
      && (rssFeedPath.Some? ==> RssFeedLink(AbsoluteString(rssFeedPath.value), RssTitle(site, rssFeedTitle)) in h)
      && (site.favicon.Some? ==> Favicon(site.favicon.value) in h)
      && (location.imagePath.Some? ==> SocialImage(location.imagePath.value) in h)
      && (location.imagePath.None? && site.imagePath.Some? ==> SocialImage(site.imagePath.value) in h)
  {
  }

  /**
   * The plain head states the card type twice: once as the fixed
   * `twitter:card` meta with "summary", and once as the card chosen for the
   * location. For a location with an image the two disagree.
   */
  lemma HeadCardTwice(location: Location, site: Site, titleSeparator: string,
                      stylesheetPaths: seq<string>, rssFeedPath: Option<string>,
                      rssFeedTitle: Option<string>)
    ensures var h := Head(location, site, titleSeparator, stylesheetPaths, rssFeedPath, rssFeedTitle);
      && Meta("twitter:card", "summary") in h
      && TwitterCard(CardFor(location)) in h
      && (location.imagePath.Some? <==> CardFor(location) != Summary)
  {
    assert Meta("twitter:card", "summary") in SocialMeta(site);
  }

  /** Every stylesheet link of the plain head is for one of the given paths. */
  lemma HeadStylesheetsWithin(location: Location, site: Site, titleSeparator: string,
      stylesheetPaths: seq<string>, rssFeedPath: Option<string>,
      rssFeedTitle: Option<string>)
    ensures StylesheetsWithin(Head(location, site, titleSeparator, stylesheetPaths, rssFeedPath, rssFeedTitle), stylesheetPaths)
  {
    var p1, p2, p3, p4 := [Encoding("utf-8")], [SiteName(site.name)], [CanonicalUrl(location.path)],
      [Title(ResolvedTitle(location.title, titleSeparator, site.name))];
    var p5, p6, p7 := [Description(ResolvedDescription(location.description, site.description))], SocialMeta(site), FixedLinks();
    var p8, p9, p10 := [TwitterCard(CardFor(location))], Stylesheets(stylesheetPaths), [Viewport];
    var p11, p12, p13 := FaviconGroup(site), FeedGroup(site, rssFeedPath, rssFeedTitle), ImageGroup(location, site);
    StylesheetsMembership(stylesheetPaths);
    assert StylesheetsWithin(p9, stylesheetPaths);
    StylesheetsWithinConcat(p12, p13, stylesheetPaths);
    StylesheetsWithinConcat(p11, p12 + p13, stylesheetPaths);
    StylesheetsWithinConcat(p10, p11 + (p12 + p13), stylesheetPaths);
    StylesheetsWithinConcat(p9, p10 + (p11 + (p12 + p13)), stylesheetPaths);
    StylesheetsWithinConcat(p8, p9 + (p10 + (p11 + (p12 + p13))), stylesheetPaths);
    StylesheetsWithinConcat(p7, p8 + (p9 + (p10 + (p11 + (p12 + p13)))), stylesheetPaths);
    StylesheetsWithinConcat(p6, p7 + (p8 + (p9 + (p10 + (p11 + (p12 + p13))))), stylesheetPaths);
    StylesheetsWithinConcat(p5, p6 + (p7 + (p8 + (p9 + (p10 + (p11 + (p12 + p13)))))), stylesheetPaths);
    StylesheetsWithinConcat(p4, p5 + (p6 + (p7 + (p8 + (p9 + (p10 + (p11 + (p12 + p13))))))), stylesheetPaths);
    StylesheetsWithinConcat(p3, p4 + (p5 + (p6 + (p7 + (p8 + (p9 + (p10 + (p11 + (p12 + p13)))))))), stylesheetPaths);
    StylesheetsWithinConcat(p2, p3 + (p4 + (p5 + (p6 + (p7 + (p8 + (p9 + (p10 + (p11 + (p12 + p13))))))))), stylesheetPaths);
    StylesheetsWithinConcat(p1, p2 + (p3 + (p4 + (p5 + (p6 + (p7 + (p8 + (p9 + (p10 + (p11 + (p12 + p13)))))))))), stylesheetPaths);
  }

  /** Every given path has a stylesheet link in the plain head. */
  lemma HeadStylesheetsListed(location: Location, site: Site, titleSeparator: string,
      stylesheetPaths: seq<string>, rssFeedPath: Option<string>,
      rssFeedTitle: Option<string>)
    ensures forall p | p in stylesheetPaths :: Stylesheet(p) in Head(location, site, titleSeparator, stylesheetPaths, rssFeedPath, rssFeedTitle)
  {
    StylesheetsMembership(stylesheetPaths);
  }

  /**
   * The plain head carries everything every head carries, never a refresh
   * instruction, the site's favicon exactly when it has one, and one social
   * image exactly when the location or, failing that, the site has one.
   */
  lemma HeadShape(location: Location, site: Site, titleSeparator: string,
                  stylesheetPaths: seq<string>, rssFeedPath: Option<string>,
                  rssFeedTitle: Option<string>)
    ensures var h := Head(location, site, titleSeparator, stylesheetPaths, rssFeedPath, rssFeedTitle);
      && CommonHead(h, location, site, titleSeparator, stylesheetPaths, rssFeedPath, rssFeedTitle)
      && Count(h, RefreshEntry) == 0
      && Count(h, FaviconEntry) == (if site.favicon.Some? then 1 else 0)
      && (site.favicon.Some? ==> Favicon(site.favicon.value) in h)
      && Count(h, ImageEntry) == (if location.imagePath.Some? || site.imagePath.Some? then 1 else 0)
      && (location.imagePath.Some? ==> SocialImage(location.imagePath.value) in h)
      && (location.imagePath.None? && site.imagePath.Some? ==> SocialImage(site.imagePath.value) in h)
  {
    HeadCount(location, site, titleSeparator, stylesheetPaths, rssFeedPath, rssFeedTitle, TitleEntry);
    HeadCount(location, site, titleSeparator, stylesheetPaths, rssFeedPath, rssFeedTitle, DescriptionEntry);
    HeadCount(location, site, titleSeparator, stylesheetPaths, rssFeedPath, rssFeedTitle, CardEntry);
    HeadCount(location, site, titleSeparator, stylesheetPaths, rssFeedPath, rssFeedTitle, StylesheetEntry);
    HeadCount(location, site, titleSeparator, stylesheetPaths, rssFeedPath, rssFeedTitle, FeedEntry);
    HeadCount(location, site, titleSeparator, stylesheetPaths, rssFeedPath, rssFeedTitle, RefreshEntry);
    HeadCount(location, site, titleSeparator, stylesheetPaths, rssFeedPath, rssFeedTitle, FaviconEntry);
    HeadCount(location, site, titleSeparator, stylesheetPaths, rssFeedPath, rssFeedTitle, ImageEntry);
    HeadMembers(location, site, titleSeparator, stylesheetPaths, rssFeedPath, rssFeedTitle);
    HeadStylesheetsWithin(location, site, titleSeparator, stylesheetPaths, rssFeedPath, rssFeedTitle);
    HeadStylesheetsListed(location, site, titleSeparator, stylesheetPaths, rssFeedPath, rssFeedTitle);
  }

  /** The plain head never refreshes. */
  lemma HeadOmitsRefresh(location: Location, site: Site, titleSeparator: string,
                         stylesheetPaths: seq<string>, rssFeedPath: Option<string>,
                         rssFeedTitle: Option<string>)
    ensures forall e | e in Head(location, site, titleSeparator, stylesheetPaths, rssFeedPath, rssFeedTitle) :: !IsRefresh(e)
  {
    var h := Head(location, site, titleSeparator, stylesheetPaths, rssFeedPath, rssFeedTitle);
    HeadCount(location, site, titleSeparator, stylesheetPaths, rssFeedPath, rssFeedTitle, RefreshEntry);
    NoneCounted(h, RefreshEntry);
  }
}
