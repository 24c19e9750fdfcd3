/**
 * How the theme assembles each kind of page: the head it asks for, and the
 * blocks of the body in order. Every body opens with the site header and
 * closes with the footer. Fixed prose (the main section, the home page's
 * about section, the about page's own content and the footer) is kept as
 * bare tags; the other blocks carry what the theme fills in.
 */
module KristapsTheme {
  import opened Wrappers
  import opened Markup
  import opened Publishing
  import Strings
  import HeadMetadata
  import OldBlogPostsFactory
  import Talks
  import Projects

  /** A page: its language, its head entries and its body blocks. */
  datatype Html = Html(lang: string, head: seq<HeadMetadata.HeadEntry>, body: seq<Block>)

  /** One entry of an item list: title link, tags, date, description, "Read more" link. */
  datatype BlogEntry = BlogEntry(title: Link, tags: seq<Tag>, date: string, description: string, readMore: Link)

  datatype Block =
    | PageHeader(home: Link, nav: Option<seq<Link>>)
    | MainSection
    | AboutSection
    | AboutPage
    | Divider(title: string)
    | ProjectsBlock(projects: seq<seq<Projects.ProjectPart>>)
    | TalksBlock(talks: Talks.TalksSection)
    | BlogList(title: string, entries: seq<BlogEntry>)
    | Article(titleLink: Link, tags: seq<Tag>, date: string, content: string)
    | TagIndex(heading: string, tags: seq<Tag>)
    | TagResults(heading: string, tag: Tag, browseAll: Link, entries: seq<BlogEntry>)
    | Footer

  const SiteOwner: string := "Kristaps Grinbergs"
  const BrowseAllTags: string := "Browse all tags"
  const TaggedWith: string := "Tagged with "
  const ReadMore: string := "Read more"

  // ---------------------------------------------------------------------
  // Body helpers

  /** A navigation link to a section, labelled with its lower-cased title. */
  function NavLink(section: Section): Link {
    Link(section.location.path, Strings.Lowercased(section.location.title))
  }

  function NavLinks(sections: seq<Section>): (r: seq<Link>)
    ensures |r| == |sections|
    ensures forall i :: 0 <= i < |sections| ==> r[i] == NavLink(sections[i])
  {
    seq(|sections|, i requires 0 <= i < |sections| => NavLink(sections[i]))
  }

  /**
   * The site header: the owner's name linking home and, when the site has
   * more than one section, a navigation list. The selected section is
   * accepted and never looked at.
   */
  function Header(context: Context, selectedSection: Option<string>): Block {
    PageHeader(
      Link("/", SiteOwner),
      if |context.sections| > 1 then Some([Link("/", "home")] + NavLinks(context.sections)) else None)
  }

  /** One item list entry; both links lead to the item. */
  function EntryFor(item: Item): BlogEntry {
    BlogEntry(
      Link(item.location.path, item.location.title),
      item.tags,
      item.date.short,
      item.htmlDescription,
      Link(item.location.path, ReadMore))
  }

  /** The item list: one entry per item, in the given order. */
  function ItemList(items: seq<Item>): (r: seq<BlogEntry>)
    ensures |r| == |items|
    ensures forall i :: 0 <= i < |items| ==> r[i] == EntryFor(items[i])
  {
    seq(|items|, i requires 0 <= i < |items| => EntryFor(items[i]))
  }

  // ---------------------------------------------------------------------
  // The pages: each is its language, the head it asks for, and its body

  /** The home page body: the main section, then the about and the projects sections, each after its divider. */
  function IndexBody(context: Context): seq<Block> {
    [Header(context, None), MainSection, Divider("about"), AboutSection, Divider("projects"), ProjectsBlock(Projects.ProjectsSection()), Footer]
  }

  function MakeIndexHTML(index: Location, context: Context): Html {
    Html(context.site.language, HeadMetadata.Head(index, context.site), IndexBody(context))
  }

  /** A section page body: the section's title and its items. */
  function SectionBody(section: Section, context: Context): seq<Block> {
    [Header(context, Some(section.id)), BlogList(section.location.title, ItemList(section.items)), Footer]
  }

  function MakeSectionHTML(section: Section, context: Context): Html {
    Html(context.site.language, HeadMetadata.Head(section.location, context.site), SectionBody(section, context))
  }

  /** An item page body: the item's title linking to itself, its tags, its date and its body. */
  function ItemBody(item: Item, context: Context): seq<Block> {
    [Header(context, Some(item.sectionId)),
     Article(Link(item.location.path, item.location.title), item.tags, item.date.short, item.body),
     Footer]
  }

  function MakeItemHTML(item: Item, context: Context): Html {
    Html(context.site.language, HeadMetadata.Head(item.location, context.site), ItemBody(item, context))
  }

  /**
   * A static page body: the talks page lists the talks read from the talks
   * file (`talkFile` is the outcome of reading it), the about page shows its
   * own content, and any other page only the header and the footer.
   */
  function StaticPageBody(page: Page, context: Context, talkFile: Option<seq<Talks.Talk>>): seq<Block> {
    [Header(context, None)]
    + (if page.location.path == "talks" then [TalksBlock(Talks.TalksSectionFor(Talks.GetTalks(talkFile)))] else [])
    + (if page.location.path == "about" then [AboutPage] else [])
    + [Footer]
  }

  /** A static page; its head redirects when the page stands for an old post. */
  function MakePageHTML(page: Page, context: Context, talkFile: Option<seq<Talks.Talk>>): Html {
    Html(
      context.site.language,
      HeadMetadata.HeadWithRefresh(page.location, context.site,
        refreshToPage := OldBlogPostsFactory.NeedRefresh(page.location.path)),
      StaticPageBody(page, context, talkFile))
  }

  /** The tag list page body: every tag once, in ascending order. */
  function TagListBody(page: TagListPage, context: Context): seq<Block> {
    [Header(context, None), TagIndex(BrowseAllTags, Strings.SortedSet(page.tags)), Footer]
  }

  function MakeTagListHTML(page: TagListPage, context: Context): Html {
    Html(context.site.language, HeadMetadata.Head(page.location, context.site), TagListBody(page, context))
  }

  /** A tag details page body: the items carrying the tag, newest first. */
  function TagDetailsBody(page: TagDetailsPage, context: Context): seq<Block> {
    [Header(context, None),
     TagResults(TaggedWith, page.tag, Link(context.tagListPath, BrowseAllTags),
                ItemList(ItemsTaggedNewestFirst(AllItems(context.sections), page.tag))),
     Footer]
  }

  function MakeTagDetailsHTML(page: TagDetailsPage, context: Context): Html {
    Html(context.site.language, HeadMetadata.Head(page.location, context.site), TagDetailsBody(page, context))
  }

  // ---------------------------------------------------------------------
  // Properties

  /** A body opens with the header, closes with the footer, and has neither in between. */
  predicate Framed(body: seq<Block>) {
    && |body| >= 2
    && body[0].PageHeader?
    && body[|body| - 1] == Footer
    && forall i :: 0 < i < |body| - 1 ==> !body[i].PageHeader? && body[i] != Footer
  }

  /** Every page other than the home page is framed by the header and the footer (the home page: `IndexFramed`). */
  lemma AllPagesFramed(context: Context, section: Section, item: Item, page: Page,
                       talkFile: Option<seq<Talks.Talk>>, tagList: TagListPage, tagDetails: TagDetailsPage)
    ensures Framed(SectionBody(section, context))
    ensures Framed(ItemBody(item, context))
    ensures Framed(StaticPageBody(page, context, talkFile))
    ensures Framed(TagListBody(tagList, context))
    ensures Framed(TagDetailsBody(tagDetails, context))
  {
  }

  /** The home page is framed as every other page. */
  lemma IndexFramed(context: Context)
    ensures Framed(IndexBody(context))
  {
  }

  /**
   * The home page shows every project of the list in order: each entry of
   * its projects block reads back as the project at the same position.
   */
  lemma IndexShowsProjects(context: Context)
    ensures var block := IndexBody(context)[5];
      && block.ProjectsBlock?
      && |block.projects| == |Projects.AllProjects|
      && forall i :: 0 <= i < |Projects.AllProjects| ==>
           Projects.ProjectFromItem(block.projects[i]) == Some(Projects.AllProjects[i])
  {
    Projects.ProjectsSectionRoundTrip();
  }

  /**
   * The navigation list is there exactly when the site has more than one
   * section; it then links home first and then every section in order,
   * labelled with its title in lower case.
   */
  lemma HeaderNavigation(context: Context, selectedSection: Option<string>)
    ensures var h := Header(context, selectedSection);
      && h.PageHeader?
      && h.home == Link("/", SiteOwner)
      && (h.nav.Some? <==> |context.sections| > 1)
      && (h.nav.Some? ==>
            && |h.nav.value| == |context.sections| + 1
            && h.nav.value[0] == Link("/", "home")
            && forall i :: 0 <= i < |context.sections| ==>
                 && h.nav.value[i + 1].href == context.sections[i].location.path
                 && h.nav.value[i + 1].text == Strings.Lowercased(context.sections[i].location.title))
  {
    if |context.sections| > 1 {
      var nav := [Link("/", "home")] + NavLinks(context.sections);
      forall i | 0 <= i < |context.sections|
        ensures nav[i + 1] == NavLink(context.sections[i])
      {
      }
    }
  }

  /** The header is the same whichever section is selected. */
  lemma HeaderIgnoresSelection(context: Context, a: Option<string>, b: Option<string>)
    ensures Header(context, a) == Header(context, b)
  {
  }

  /** Both links of every item list entry lead to that entry's item, in order. */
  lemma ItemListLinks(items: seq<Item>)
    ensures forall i :: 0 <= i < |items| ==>
      && ItemList(items)[i].title == Link(items[i].location.path, items[i].location.title)
      && ItemList(items)[i].readMore == Link(items[i].location.path, "Read more")
      && ItemList(items)[i].date == items[i].date.short
  {
  }

  /**
   * A static page's body holds the talks exactly when its path is "talks"
   * and the about page's content exactly when its path is "about" (never both);
   * any other page is header and footer alone.
   */
  lemma StaticPageDispatch(page: Page, context: Context, talkFile: Option<seq<Talks.Talk>>)
    ensures var body := StaticPageBody(page, context, talkFile);
      && ((exists i :: 0 <= i < |body| && body[i].TalksBlock?) <==> page.location.path == "talks")
      && (AboutPage in body <==> page.location.path == "about")
      && !((exists i :: 0 <= i < |body| && body[i].TalksBlock?) && AboutPage in body)
      && (page.location.path != "talks" && page.location.path != "about" ==> body == [Header(context, None), Footer])
  {
    var body := StaticPageBody(page, context, talkFile);
    if page.location.path == "talks" {
      assert body[1].TalksBlock?;
    }
  }

  /** The talks page lists every talk of a readable talks file, in order, and none when the file cannot be read. */
  lemma TalksPageLists(page: Page, context: Context, talkFile: Option<seq<Talks.Talk>>)
    requires page.location.path == "talks"
    ensures var body := StaticPageBody(page, context, talkFile);
      && |body| == 3
      && body[1].TalksBlock?
      && |body[1].talks.items| == (if talkFile.Some? then |talkFile.value| else 0)
      && (talkFile.Some? ==> forall i :: 0 <= i < |talkFile.value| ==> body[1].talks.items[i] == Talks.TalkItem(talkFile.value[i]))
  {
  }

  /**
   * A static page's head refreshes exactly when its path is an old post's
   * slug, and then to that post under the blog path.
   */
  lemma StaticPageRefresh(page: Page, context: Context, talkFile: Option<seq<Talks.Talk>>)
    ensures var head := MakePageHTML(page, context, talkFile).head;
      && HeadMetadata.Count(head, HeadMetadata.RefreshEntry) == (if page.location.path in OldBlogPostsFactory.Links then 1 else 0)
      && (page.location.path in OldBlogPostsFactory.Links ==>
            HeadMetadata.RefreshTo("/blog/" + page.location.path) in head)
  {
    HeadMetadata.HeadWithRefreshShape(page.location, context.site, HeadMetadata.DefaultTitleSeparator,
      HeadMetadata.DefaultStylesheets, Some(DefaultRssFeedPath), None,
      OldBlogPostsFactory.NeedRefresh(page.location.path));
  }

  /** The head of the page added for an old post redirects to the post and is titled with the site's name alone. */
  lemma StubPageHead(slug: string, site: Site)
    requires slug in OldBlogPostsFactory.Links
    ensures var head := HeadMetadata.HeadWithRefresh(OldBlogPostsFactory.StubPage(slug).location, site,
                          refreshToPage := OldBlogPostsFactory.NeedRefresh(slug));
      && HeadMetadata.RefreshTo("/blog/" + slug) in head
      && HeadMetadata.Title(site.name) in head
  {
    var refresh := OldBlogPostsFactory.NeedRefresh(slug);
    assert refresh == Some("/blog/" + slug);
    HeadMetadata.HeadWithRefreshMembers(OldBlogPostsFactory.StubPage(slug).location, site,
      HeadMetadata.DefaultTitleSeparator, HeadMetadata.DefaultStylesheets, Some(DefaultRssFeedPath), None, refresh);
  }

  /**
   * The page added for an old post redirects to the post under the blog
   * path, is titled with the site's name alone, and shows no content.
   */
  lemma StubPageRedirects(slug: string, context: Context, talkFile: Option<seq<Talks.Talk>>)
    requires slug in OldBlogPostsFactory.Links
    ensures var page := MakePageHTML(OldBlogPostsFactory.StubPage(slug), context, talkFile);
      && HeadMetadata.RefreshTo("/blog/" + slug) in page.head
      && HeadMetadata.Title(context.site.name) in page.head
      && page.body == [Header(context, None), Footer]
  {
    StubPageHead(slug, context.site);
    OldBlogPostsFactory.SlugIsNotStaticPath(slug);
    OtherPageBody(OldBlogPostsFactory.StubPage(slug), context, talkFile);
  }

  /** A static page other than the talks and the about page shows only the header and the footer. */
  lemma OtherPageBody(page: Page, context: Context, talkFile: Option<seq<Talks.Talk>>)
    requires page.location.path != "talks" && page.location.path != "about"
    ensures StaticPageBody(page, context, talkFile) == [Header(context, None), Footer]
  {
  }

  /** Every page added for the old posts redirects, as above. */
  lemma StubPagesRedirect(context: Context, talkFile: Option<seq<Talks.Talk>>)
    ensures forall k :: 0 <= k < |OldBlogPostsFactory.Pages()| ==>
      var page := MakePageHTML(OldBlogPostsFactory.Pages()[k], context, talkFile);
      && HeadMetadata.RefreshTo("/blog/" + OldBlogPostsFactory.Links[k]) in page.head
      && page.body == [Header(context, None), Footer]
  {
    forall k | 0 <= k < |OldBlogPostsFactory.Pages()|
      ensures var page := MakePageHTML(OldBlogPostsFactory.Pages()[k], context, talkFile);
        && HeadMetadata.RefreshTo("/blog/" + OldBlogPostsFactory.Links[k]) in page.head
        && page.body == [Header(context, None), Footer]
    {
      StubPageRedirects(OldBlogPostsFactory.Links[k], context, talkFile);
    }
  }

  /** The tag list page shows every tag of the page exactly once, in strictly ascending order. */
  lemma TagListSorted(page: TagListPage, context: Context)
    ensures var body := TagListBody(page, context);
      && body[1].TagIndex?
      && Strings.StrictlyAscending(body[1].tags)
      && forall t :: t in body[1].tags <==> t in page.tags
  {
    var tags := Strings.SortedSet(page.tags);
    assert forall t :: t in tags <==> t in Strings.Elems(tags);
  }

  /** The tag list page does not depend on the order or repetition of the tags it is given. */
  lemma TagListOrderFree(page: TagListPage, tags: seq<Tag>, context: Context)
    requires forall t :: t in tags <==> t in page.tags
    ensures TagListBody(TagListPage(page.location, tags), context) == TagListBody(page, context)
  {
    assert Strings.Elems(tags) == Strings.Elems(page.tags);
    Strings.SortedSetDeterministic(tags, page.tags);
  }

  /**
   * A tag details page lists exactly the site's items that carry the tag,
   * newest first, each as often as it occurs in the site.
   */
  lemma TagDetailsListsTagged(page: TagDetailsPage, context: Context)
    ensures var body := TagDetailsBody(page, context);
      && body[1].TagResults?
      && body[1].browseAll == Link(context.tagListPath, "Browse all tags")
      && exists items: seq<Item> :: body[1].entries == ItemList(items) && ListsTagged(items, context.sections, page.tag)
  {
    var items := ItemsTaggedNewestFirst(AllItems(context.sections), page.tag);
    TaggedListing(context.sections, page.tag);
    assert TagDetailsBody(page, context)[1].entries == ItemList(items);
  }

  /**
   * A section page has the plain head for the section: one title, one
   * description, one card type, the default stylesheet, the site feed at
   * `/feed.rss` with its default title, and no refresh.
   */
  lemma SectionPageHead(section: Section, context: Context)
    ensures var head := MakeSectionHTML(section, context).head;
      && HeadMetadata.CommonHead(head, section.location, context.site, " | ", ["/styles.css"], Some("feed.rss"), None)
      && HeadMetadata.Count(head, HeadMetadata.RefreshEntry) == 0
      && HeadMetadata.RssFeedLink("/feed.rss", "Subscribe to " + context.site.name) in head
  {
    HeadMetadata.HeadShape(section.location, context.site, " | ", ["/styles.css"], Some("feed.rss"), None);
    DefaultFeedHref();
  }
}
